/**
 * The shop's product record (Lab2/domain/models/product.py). Its field
 * values are passed through untouched, so they are opaque `Value`s.
 */
module Products {

  /** A Python value held by a product field: `None`, a string or a number. */
  datatype Value = Null | Str(s: string) | Num(x: real)

  /** Python's `bool(v)`. */
  predicate Truthy(v: Value) {
    match v
    case Null => false
    case Str(s) => s != ""
    case Num(x) => x != 0.0
  }

  /** A product; the fields are assigned once, when it is made. */
  datatype Product = Product(name: Value, price: Value, description: Value, date: Value)
  {
    function GetName(): Value { name }
    function GetPrice(): Value { price }
    function GetDescription(): Value { description }
    function GetDate(): Value { date }
  }

  /** `Product(name, price, description=None, date=None)`. */
  function NewProduct(name: Value, price: Value, description: Value := Null, date: Value := Null): (p: Product)
    ensures p.GetName() == name && p.GetPrice() == price
    ensures p.GetDescription() == description && p.GetDate() == date
  {
    Product(name, price, description, date)
  }

  /** The " - description" segment of the string form; empty for a falsy description. */
  function DescriptionSegment(p: Product, show: Value -> string): (r: string)
    ensures Truthy(p.description) ==> r == " - " + show(p.description)
    ensures !Truthy(p.description) ==> r == ""
  {
    if Truthy(p.description) then " - " + show(p.description) else ""
  }

  /** The " (Date: ...)" segment of the string form; empty for a falsy date. */
  function DateSegment(p: Product, show: Value -> string): (r: string)
    ensures Truthy(p.date) ==> r == " (Date: " + show(p.date) + ")"
    ensures !Truthy(p.date) ==> r == ""
  {
    if Truthy(p.date) then " (Date: " + show(p.date) + ")" else ""
  }

  /**
   * `str(product)`: `show` is Python's `str` of a value and `money` the
   * two-decimal formatting of the price.
   */
  function ToText(p: Product, show: Value -> string, money: Value -> string): (r: string)
    ensures !Truthy(p.description) && !Truthy(p.date) ==> r == show(p.name) + ": $" + money(p.price)
    ensures Truthy(p.description) && !Truthy(p.date) ==>
      r == show(p.name) + ": $" + money(p.price) + " - " + show(p.description)
    ensures !Truthy(p.description) && Truthy(p.date) ==>
      r == show(p.name) + ": $" + money(p.price) + " (Date: " + show(p.date) + ")"
    ensures Truthy(p.description) && Truthy(p.date) ==>
      r == show(p.name) + ": $" + money(p.price) + " - " + show(p.description) + " (Date: " + show(p.date) + ")"
    ensures Truthy(p.date) ==> var tail := " (Date: " + show(p.date) + ")";
      |tail| <= |r| && r[|r| - |tail|..] == tail
    ensures var head := show(p.name) + ": $" + money(p.price); |head| <= |r| && r[..|head|] == head
  {
    var head := show(p.name) + ": $" + money(p.price);
    var r := head + DescriptionSegment(p, show) + DateSegment(p, show);
    assert r[..|head|] == head;
    var dated := " (Date: " + show(p.date) + ")";
    assert Truthy(p.description) && Truthy(p.date) ==>
      r == (head + " - " + show(p.description)) + dated;
    assert !Truthy(p.description) && Truthy(p.date) ==> r == head + dated;
    r
  }
}

/** Step-by-step construction of a product (Lab2/domain/builder/product_builder.py). */
module ProductBuilders {
  import opened Wrappers
  import opened Products

  /** The `ValueError` `build` raises when a required field is missing. */
  datatype BuildError = NameAndPriceRequired

  class ProductBuilder {
    var name: Value
    var price: Value
    var description: Value
    var date: Value

    /** A new builder has every field unset. */
    constructor ()
      ensures name == Null && price == Null && description == Null && date == Null
    {
      name, price, description, date := Null, Null, Null, Null;
    }

    method SetName(name: Value) returns (self: ProductBuilder)
      modifies this
      ensures self == this
      ensures this.name == name
      ensures price == old(price) && description == old(description) && date == old(date)
    {
      this.name := name;
      self := this;
    }

    method SetPrice(price: Value) returns (self: ProductBuilder)
      modifies this
      ensures self == this
      ensures this.price == price
      ensures name == old(name) && description == old(description) && date == old(date)
    {
      this.price := price;
      self := this;
    }

    method SetDescription(description: Value) returns (self: ProductBuilder)
      modifies this
      ensures self == this
      ensures this.description == description
      ensures name == old(name) && price == old(price) && date == old(date)
    {
      this.description := description;
      self := this;
    }

    method SetDate(date: Value) returns (self: ProductBuilder)
      modifies this
      ensures self == this
      ensures this.date == date
      ensures name == old(name) && price == old(price) && description == old(description)
    {
      this.date := date;
      self := this;
    }

    /**
     * `build`: fails exactly when name or price is `None` (so a price of 0
     * is accepted); otherwise the product carries the builder's four fields.
     * The builder itself is not changed.
     */
    method Build() returns (r: Result<Product, BuildError>)
      ensures r.Failure? <==> name == Null || price == Null
      ensures r.Success? ==> r.value.GetName() == name && r.value.GetPrice() == price
      ensures r.Success? ==> r.value.GetDescription() == description && r.value.GetDate() == date
    {
      if name == Null || price == Null {
        return Failure(NameAndPriceRequired);
      }
      r := Success(NewProduct(name, price, description, date));
    }
  }

  /** Setting every field and building gives that product; a zero price is not "missing". */
  method BuildWithZeroPrice(name: string) returns (p: Result<Product, BuildError>)
    ensures p == Success(Product(Str(name), Num(0.0), Null, Null))
  {
    var b := new ProductBuilder();
    var b1 := b.SetName(Str(name));
    var b2 := b1.SetPrice(Num(0.0));
    p := b2.Build();
  }
}

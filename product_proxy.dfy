/**
 * An access-counting stand-in for a product (Lab2/patterns/proxy/product_proxy.py).
 * Each read of a field through the proxy adds one to its count; a
 * "restricted" proxy hides the price.
 */
module ProductProxies {
  import opened Products

  const Public := "public"
  const Restricted := "restricted"

  /** The price a proxy with this access level shows. */
  function VisiblePrice(accessLevel: string, product: Product): (r: Value)
    ensures accessLevel == Restricted ==> r == Null
    ensures accessLevel != Restricted ==> r == product.GetPrice()
  {
    if accessLevel == Restricted then Null else product.price
  }

  class ProductProxy {
    /** The wrapped product; the proxy never changes it. */
    const product: Product
    const accessLevel: string
    var accessCount: nat

    /** `ProductProxy(product, access_level="public")`: no reads counted yet. */
    constructor (product: Product, accessLevel: string := Public)
      ensures this.product == product && this.accessLevel == accessLevel
      ensures accessCount == 0
    {
      this.product := product;
      this.accessLevel := accessLevel;
      accessCount := 0;
    }

    /** The `name` property. */
    method Name() returns (r: Value)
      modifies this
      ensures r == product.GetName()
      ensures accessCount == old(accessCount) + 1
    {
      accessCount := accessCount + 1;
      r := product.name;
    }

    /** The `price` property: counted even when restricted, and then `None`. */
    method Price() returns (r: Value)
      modifies this
      ensures r == VisiblePrice(accessLevel, product)
      ensures accessCount == old(accessCount) + 1
    {
      accessCount := accessCount + 1;
      if accessLevel == Restricted {
        return Null;
      }
      r := product.price;
    }

    /** The `description` property. */
    method Description() returns (r: Value)
      modifies this
      ensures r == product.GetDescription()
      ensures accessCount == old(accessCount) + 1
    {
      accessCount := accessCount + 1;
      r := product.description;
    }

    /** The `date` property. */
    method Date() returns (r: Value)
      modifies this
      ensures r == product.GetDate()
      ensures accessCount == old(accessCount) + 1
    {
      accessCount := accessCount + 1;
      r := product.date;
    }

    /** `get_price`: a read of the `price` property. */
    method GetPrice() returns (r: Value)
      modifies this
      ensures r == VisiblePrice(accessLevel, product)
      ensures accessCount == old(accessCount) + 1
    {
      r := Price();
    }

    /** `get_name`: a read of the `name` property. */
    method GetName() returns (r: Value)
      modifies this
      ensures r == product.GetName()
      ensures accessCount == old(accessCount) + 1
    {
      r := Name();
    }

    /** `get_description`: a read of the `description` property. */
    method GetDescription() returns (r: Value)
      modifies this
      ensures r == product.GetDescription()
      ensures accessCount == old(accessCount) + 1
    {
      r := Description();
    }

    /** `get_date`: a read of the `date` property. */
    method GetDate() returns (r: Value)
      modifies this
      ensures r == product.GetDate()
      ensures accessCount == old(accessCount) + 1
    {
      r := Date();
    }

    /** `get_access_count`: the number of reads so far; not itself a read. */
    method GetAccessCount() returns (r: nat)
      ensures r == accessCount
    {
      r := accessCount;
    }

    /** `str(proxy)`: the wrapped product's text behind a "[PROXY] " tag; not counted as a read. */
    function ToText(show: Value -> string, money: Value -> string): (r: string)
      ensures |r| >= 8 && r[..8] == "[PROXY] "
      ensures r[8..] == Products.ToText(product, show, money)
    {
      "[PROXY] " + Products.ToText(product, show, money)
    }
  }

  /** The demo's three reads through a public proxy: a count of three and the product's own values. */
  method ReadThreeFields(product: Product) returns (name: Value, price: Value, description: Value, count: nat)
    ensures name == product.name && price == product.price && description == product.description
    ensures count == 3
  {
    var proxy := new ProductProxy(product, accessLevel := Public);
    name := proxy.Name();
    price := proxy.Price();
    description := proxy.Description();
    count := proxy.GetAccessCount();
  }
}

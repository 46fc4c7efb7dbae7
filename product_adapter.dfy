/** Conversion of an external product record (Lab2/patterns/adapter/external_product_adapter.py). */
module ProductAdapters {
  import opened Wrappers
  import opened Products

  /** The `KeyError` of a missing required key. */
  datatype AdapterError = MissingKey(key: string)

  const NoDescription := Str("No description")

  /** An adapter around external data that names its fields title, cost, info and date. */
  datatype ExternalProductAdapter = ExternalProductAdapter(externalData: map<string, Value>)
  {
    /**
     * `to_product`: title becomes the name and cost the price (each
     * required, title looked up first); date and info are optional, info
     * falling back to "No description".
     */
    function ToProduct(): (r: Result<Product, AdapterError>)
      ensures "title" !in externalData ==> r == Failure(MissingKey("title"))
      ensures "title" in externalData && "cost" !in externalData ==> r == Failure(MissingKey("cost"))
      ensures r.Success? <==> "title" in externalData && "cost" in externalData
      ensures r.Success? ==> r.value.GetName() == externalData["title"] && r.value.GetPrice() == externalData["cost"]
      ensures r.Success? ==> r.value.GetDate() == (if "date" in externalData then externalData["date"] else Null)
      ensures r.Success? ==> r.value.GetDescription() == (if "info" in externalData then externalData["info"] else NoDescription)
    {
      if "title" !in externalData then Failure(MissingKey("title"))
      else if "cost" !in externalData then Failure(MissingKey("cost"))
      else Success(NewProduct(
        name := externalData["title"],
        price := externalData["cost"],
        date := if "date" in externalData then externalData["date"] else Null,
        description := if "info" in externalData then externalData["info"] else NoDescription))
    }
  }

  /** The demo's record, with all four external keys, converts field for field. */
  lemma AdaptsFullRecord(title: Value, cost: Value, info: Value, date: Value)
    ensures ExternalProductAdapter(map["title" := title, "cost" := cost, "info" := info, "date" := date]).ToProduct()
      == Success(Product(title, cost, info, date))
  {
  }

  /** Without info and date, the product gets the stock description and no date. */
  lemma AdaptsMinimalRecord(title: Value, cost: Value)
    ensures ExternalProductAdapter(map["title" := title, "cost" := cost]).ToProduct()
      == Success(Product(title, cost, NoDescription, Null))
  {
  }
}

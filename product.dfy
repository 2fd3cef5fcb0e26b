/** The product model over the flat-file store: validation of new products in
    a fixed order, partial updates that touch only the supplied fields,
    deletion, and the denormalisation of each product's category. */
module Products {
  import opened Wrappers
  import opened Json
  import opened Text
  import JsonStore
  import ProductSchema

  /** The `price` a request supplies: absent, form text, or a JSON number. */
  datatype PriceInput = NoPrice | PriceText(text: string) | PriceNumber(n: real)

  /** JavaScript truthiness of the price: `undefined`, `''` and `0` are falsy. */
  predicate PriceTruthy(p: PriceInput)
  {
    match p
    case NoPrice => false
    case PriceText(t) => t != ""
    case PriceNumber(n) => n != 0.0
  }

  /** `parseFloat(price)`, with `None` for NaN. Text goes through the given
      `parseFloat`, a number parses to itself, and `undefined` parses to NaN. */
  function ParsePrice(p: PriceInput, parseFloat: string -> Option<real>): (r: Option<real>)
    ensures p.NoPrice? ==> r.None?
    ensures p.PriceNumber? ==> r == Some(p.n)
    ensures p.PriceText? ==> r == parseFloat(p.text)
  {
    match p
    case NoPrice => None
    case PriceText(t) => parseFloat(t)
    case PriceNumber(n) => Some(n)
  }

  /** The fields of a create or update request; `None` is `undefined`. */
  datatype ProductFields = ProductFields(
    name: Option<string>,
    price: PriceInput,
    description: Option<string>,
    category: Option<string>,
    image: Option<string>)

  /** The errors the model throws. */
  datatype ProductError = NameRequired | PriceRequired | DescriptionRequired | CategoryRequired | InvalidCategory
  {
    function Message(): string
    {
      match this
      case NameRequired => "Product name is required"
      case PriceRequired => "Valid price is required"
      case DescriptionRequired => "Product description is required"
      case CategoryRequired => "Category is required"
      case InvalidCategory => "Invalid category"
    }
  }

  /** The price check of `save`: truthy, a number once parsed, not negative. */
  predicate SavePriceOk(p: PriceInput, parseFloat: string -> Option<real>)
  {
    PriceTruthy(p) && ParsePrice(p, parseFloat).Some? && ParsePrice(p, parseFloat).value >= 0.0
  }

  /** The price check of `findByIdAndUpdate`: a number once parsed, not negative. */
  predicate UpdatePriceOk(p: PriceInput, parseFloat: string -> Option<real>)
  {
    ParsePrice(p, parseFloat).Some? && ParsePrice(p, parseFloat).value >= 0.0
  }

  /** A category with id `id` exists. An empty id casts to no id, which
      names no category. */
  predicate CategoryExists(categories: map<string, Record>, id: string)
  {
    id != "" && id in categories
  }

  /** `Category.findById(v)`: the category record `v` names, if any. */
  function LookupCategory(categories: map<string, Record>, v: Value): (r: Option<Record>)
    ensures r.Some? <==> v.Str? && CategoryExists(categories, v.s)
    ensures r.Some? ==> r.value == categories[v.s]
  {
    if v.Str? && CategoryExists(categories, v.s) then Some(categories[v.s]) else None
  }

  /** The fields `save` hands to the store, or the first check that fails:
      name, then price, then description, then category presence, then
      category existence. */
  function SaveData(input: ProductFields, parseFloat: string -> Option<real>, categories: map<string, Record>): (r: Result<Record, ProductError>)
    ensures Blank(input.name) ==> r == Err(NameRequired)
    ensures !Blank(input.name) && !SavePriceOk(input.price, parseFloat) ==> r == Err(PriceRequired)
    ensures !Blank(input.name) && SavePriceOk(input.price, parseFloat) && Blank(input.description)
      ==> r == Err(DescriptionRequired)
    ensures (!Blank(input.name) && SavePriceOk(input.price, parseFloat) && !Blank(input.description)
      && !TruthyText(input.category)) ==> r == Err(CategoryRequired)
    ensures (!Blank(input.name) && SavePriceOk(input.price, parseFloat) && !Blank(input.description)
      && TruthyText(input.category) && !CategoryExists(categories, input.category.value)) ==> r == Err(InvalidCategory)
    ensures r.Ok? <==>
      && !Blank(input.name) && SavePriceOk(input.price, parseFloat) && !Blank(input.description)
      && TruthyText(input.category) && CategoryExists(categories, input.category.value)
    ensures r.Ok? ==>
      && r.value.Keys == {"name", "price", "description", "category", "image"}
      && r.value["name"] == Str(Trim(input.name.value))
      && r.value["price"] == Num(ParsePrice(input.price, parseFloat).value)
      && r.value["description"] == Str(Trim(input.description.value))
      && r.value["category"] == Str(input.category.value)
      && r.value["image"] == (if TruthyText(input.image) then Str(input.image.value) else Null)
  {
    if Blank(input.name) then Err(NameRequired)
    else if !SavePriceOk(input.price, parseFloat) then Err(PriceRequired)
    else if Blank(input.description) then Err(DescriptionRequired)
    else if !TruthyText(input.category) then Err(CategoryRequired)
    else if LookupCategory(categories, Str(input.category.value)).None? then Err(InvalidCategory)
    else
      Ok(map[
        "name" := Str(Trim(input.name.value)),
        "price" := Num(ParsePrice(input.price, parseFloat).value),
        "description" := Str(Trim(input.description.value)),
        "category" := Str(input.category.value),
        "image" := if TruthyText(input.image) then Str(input.image.value) else Null])
  }

  /** The names of the fields an update supplies (those not `undefined`). */
  function Supplied(update: ProductFields): set<string>
  {
    (if update.name.Some? then {"name"} else {})
    + (if !update.price.NoPrice? then {"price"} else {})
    + (if update.description.Some? then {"description"} else {})
    + (if update.category.Some? then {"category"} else {})
    + (if update.image.Some? then {"image"} else {})
  }

  /** Which keys `Supplied` holds, field by field. */
  lemma SuppliedKeys(update: ProductFields)
    ensures "name" in Supplied(update) <==> update.name.Some?
    ensures "price" in Supplied(update) <==> !update.price.NoPrice?
    ensures "description" in Supplied(update) <==> update.description.Some?
    ensures "category" in Supplied(update) <==> update.category.Some?
    ensures "image" in Supplied(update) <==> update.image.Some?
  {
  }

  /** A supplied name that is white space only. */
  predicate BadName(update: ProductFields)
  {
    update.name.Some? && Trim(update.name.value) == ""
  }

  /** A supplied price that is NaN or negative. */
  predicate BadPrice(update: ProductFields, parseFloat: string -> Option<real>)
  {
    !update.price.NoPrice? && !UpdatePriceOk(update.price, parseFloat)
  }

  /** A supplied description that is white space only. */
  predicate BadDescription(update: ProductFields)
  {
    update.description.Some? && Trim(update.description.value) == ""
  }

  /** A supplied category that names no category. */
  predicate BadCategory(update: ProductFields, categories: map<string, Record>)
  {
    update.category.Some? && !CategoryExists(categories, update.category.value)
  }

  /** The first check of `findByIdAndUpdate` that fails, if any. Only
      supplied fields are checked, in the order name, price, description,
      category; each error is reported exactly when the earlier checks pass
      and its own fails. */
  function UpdateError(update: ProductFields, parseFloat: string -> Option<real>, categories: map<string, Record>): (e: Option<ProductError>)
    ensures e == Some(NameRequired) <==> BadName(update)
    ensures e == Some(PriceRequired) <==> !BadName(update) && BadPrice(update, parseFloat)
    ensures e == Some(DescriptionRequired) <==>
      !BadName(update) && !BadPrice(update, parseFloat) && BadDescription(update)
    ensures e == Some(InvalidCategory) <==>
      !BadName(update) && !BadPrice(update, parseFloat) && !BadDescription(update) && BadCategory(update, categories)
    ensures e.None? <==>
      !BadName(update) && !BadPrice(update, parseFloat) && !BadDescription(update) && !BadCategory(update, categories)
    ensures e != Some(CategoryRequired)
  {
    if BadName(update) then Some(NameRequired)
    else if BadPrice(update, parseFloat) then Some(PriceRequired)
    else if BadDescription(update) then Some(DescriptionRequired)
    else if update.category.Some? && LookupCategory(categories, Str(update.category.value)).None? then Some(InvalidCategory)
    else None
  }

  /** The value `findByIdAndUpdate` copies for a supplied field: strings
      trimmed, the price parsed, the category and image as given. */
  function CleanValue(update: ProductFields, parseFloat: string -> Option<real>, key: string): Value
    requires key in Supplied(update)
    requires !update.price.NoPrice? ==> ParsePrice(update.price, parseFloat).Some?
  {
    if key == "name" then Str(Trim(update.name.value))
    else if key == "price" then Num(ParsePrice(update.price, parseFloat).value)
    else if key == "description" then Str(Trim(update.description.value))
    else if key == "category" then Str(update.category.value)
    else Str(update.image.value)
  }

  /** The `cleanUpdateData` object: exactly the supplied fields, the strings
      trimmed, the price parsed, the category and image as given. */
  function CleanUpdate(update: ProductFields, parseFloat: string -> Option<real>): (r: Record)
    requires !update.price.NoPrice? ==> ParsePrice(update.price, parseFloat).Some?
    ensures r.Keys == Supplied(update)
    ensures update.name.Some? ==> "name" in r && r["name"] == Str(Trim(update.name.value))
    ensures !update.price.NoPrice? ==> "price" in r && r["price"] == Num(ParsePrice(update.price, parseFloat).value)
    ensures update.description.Some? ==> "description" in r && r["description"] == Str(Trim(update.description.value))
    ensures update.category.Some? ==> "category" in r && r["category"] == Str(update.category.value)
    ensures update.image.Some? ==> "image" in r && r["image"] == Str(update.image.value)
  {
    SuppliedKeys(update);
    map key | key in Supplied(update) :: CleanValue(update, parseFloat, key)
  }

  /** `findByIdAndUpdate`'s checks and the update object they let through. */
  function UpdateData(update: ProductFields, parseFloat: string -> Option<real>, categories: map<string, Record>): (r: Result<Record, ProductError>)
    ensures r.Err? <==> UpdateError(update, parseFloat, categories).Some?
    ensures r.Err? ==> r.error == UpdateError(update, parseFloat, categories).value
    ensures r.Ok? ==> r.value.Keys == Supplied(update)
  {
    var e := UpdateError(update, parseFloat, categories);
    if e.Some? then Err(e.value) else Ok(CleanUpdate(update, parseFloat))
  }

  /** The record `populate` makes of one product: when the field asked for is
      `category` and the product's category is truthy, the category replaced
      by the record it names, or kept as it is when it names none. */
  function PopulateProduct(p: Option<Record>, field: string, categories: map<string, Record>): (r: Option<Record>)
    ensures r.None? <==> p.None?
    ensures r.Some? ==> r.value.Keys == p.value.Keys
    ensures r.Some? ==> forall k :: k in p.value && k != "category" ==> r.value[k] == p.value[k]
    ensures r.Some? && "category" in p.value ==>
      r.value["category"] ==
        if field == "category" && Truthy(p.value["category"]) && LookupCategory(categories, p.value["category"]).Some?
        then Obj(LookupCategory(categories, p.value["category"]).value)
        else p.value["category"]
  {
    if p.Some? && field == "category" && "category" in p.value && Truthy(p.value["category"]) then
      var category := LookupCategory(categories, p.value["category"]);
      Some(p.value["category" := if category.Some? then Obj(category.value) else p.value["category"]])
    else p
  }

  /** The record conforms to the product schema's constraints on name, price,
      description and category. */
  predicate ConformsToSchema(rec: Record)
  {
    && "name" in rec && rec["name"].Str?
    && "price" in rec && rec["price"].Num?
    && "description" in rec && rec["description"].Str?
    && "category" in rec && rec["category"].Str?
    && ProductSchema.ValidFields(rec["name"].s, rec["price"].n, rec["description"].s, rec["category"].s)
  }

  /** A product `save` stores meets the schema's constraints. */
  lemma SavedConforms(input: ProductFields, parseFloat: string -> Option<real>, categories: map<string, Record>, freshId: string, now: int)
    requires SaveData(input, parseFloat, categories).Ok?
    ensures ConformsToSchema(JsonStore.NewItem(SaveData(input, parseFloat, categories).value, freshId, now))
  {
    TrimIdempotent(input.name.value);
    TrimIdempotent(input.description.value);
  }

  /** A non-empty trimmed text field stays non-empty and trimmed when an
      update either leaves it alone or supplies a value that trims to
      something non-empty. */
  lemma MergedTextStaysValid(existing: Record, clean: Record, now: int, key: string, supplied: Option<string>)
    requires key != "updatedAt" && key in existing && existing[key].Str?
    requires existing[key].s != "" && Trim(existing[key].s) == existing[key].s
    requires key in clean ==> supplied.Some? && clean[key] == Str(Trim(supplied.value)) && Trim(supplied.value) != ""
    ensures var m := JsonStore.Merged(existing, clean, now);
      key in m && m[key].Str? && m[key].s != "" && Trim(m[key].s) == m[key].s
  {
    if key in clean {
      TrimIdempotent(supplied.value);
    }
  }

  /** The cleaned fields of an update that passes its checks are ones the schema accepts. */
  lemma CheckedUpdateIsClean(update: ProductFields, parseFloat: string -> Option<real>, categories: map<string, Record>)
    requires UpdateError(update, parseFloat, categories).None?
    ensures var clean := CleanUpdate(update, parseFloat);
      && ("name" in clean ==> update.name.Some? && clean["name"] == Str(Trim(update.name.value))
                               && Trim(update.name.value) != "")
      && ("description" in clean ==> update.description.Some?
                                      && clean["description"] == Str(Trim(update.description.value))
                                      && Trim(update.description.value) != "")
      && ("price" in clean ==> clean["price"].Num? && clean["price"].n >= 0.0)
      && ("category" in clean ==> clean["category"].Str? && clean["category"].s != "")
  {
    SuppliedKeys(update);
  }

  /** An update that passes its checks keeps a conforming product conforming. */
  lemma UpdatePreservesConformance(existing: Record, update: ProductFields, parseFloat: string -> Option<real>,
                                   categories: map<string, Record>, now: int)
    requires ConformsToSchema(existing)
    requires UpdateData(update, parseFloat, categories).Ok?
    ensures ConformsToSchema(JsonStore.Merged(existing, UpdateData(update, parseFloat, categories).value, now))
  {
    var clean := CleanUpdate(update, parseFloat);
    CheckedUpdateIsClean(update, parseFloat, categories);
    var merged := JsonStore.Merged(existing, clean, now);
    MergedTextStaysValid(existing, clean, now, "name", update.name);
    MergedTextStaysValid(existing, clean, now, "description", update.description);
    assert merged["price"].Num? && merged["price"].n >= 0.0;
    assert merged["category"].Str?;
  }

  /** A numeric price of 0 is refused by `save` (0 is falsy) but accepted by
      `findByIdAndUpdate`. */
  lemma ZeroPriceOnlyOnUpdate(input: ProductFields, parseFloat: string -> Option<real>, categories: map<string, Record>)
    requires !Blank(input.name) && input.price == PriceNumber(0.0)
    ensures SaveData(input, parseFloat, categories) == Err(PriceRequired)
    ensures UpdateData(ProductFields(None, PriceNumber(0.0), None, None, None), parseFloat, categories)
      == Ok(map["price" := Num(0.0)])
  {
    var update := ProductFields(None, PriceNumber(0.0), None, None, None);
    assert Supplied(update) == {"price"};
    assert CleanUpdate(update, parseFloat) == map["price" := Num(0.0)];
  }

  /** The product collection. */
  class ProductModel {
    const storage: JsonStore.JsonStorage

    constructor (storage: JsonStore.JsonStorage)
      ensures this.storage == storage
    {
      this.storage := storage;
    }

    /** Validates a new product and, when every check passes, stores it; a
        failed check stores nothing. */
    method Save(input: ProductFields, parseFloat: string -> Option<real>, categories: map<string, Record>,
                freshId: string, now: int) returns (r: Result<Record, ProductError>)
      modifies storage
      ensures SaveData(input, parseFloat, categories).Err? ==>
        r == Err(SaveData(input, parseFloat, categories).error) && storage.data == old(storage.data)
      ensures SaveData(input, parseFloat, categories).Ok? ==>
        r == Ok(JsonStore.NewItem(SaveData(input, parseFloat, categories).value, freshId, now))
        && storage.data == old(storage.data) + [r.value]
    {
      var fields := SaveData(input, parseFloat, categories);
      if fields.Err? {
        return Err(fields.error);
      }
      var item := storage.Create(fields.value, freshId, now);
      r := Ok(item);
    }

    /** Applies a partial update: `null` for an unknown id before any check;
        otherwise the first failing check, or the stored record with the
        supplied fields merged in. */
    method FindByIdAndUpdate(id: string, update: ProductFields, parseFloat: string -> Option<real>,
                             categories: map<string, Record>, now: int) returns (r: Result<Option<Record>, ProductError>)
      modifies storage
      ensures var i := JsonStore.FindIndex(old(storage.data), "_id", Some(Str(id)));
        if i < 0 then r == Ok(None) && storage.data == old(storage.data)
        else match UpdateData(update, parseFloat, categories)
          case Err(e) => r == Err(e) && storage.data == old(storage.data)
          case Ok(clean) =>
            var merged := JsonStore.Merged(old(storage.data)[i], clean, now);
            r == Ok(Some(merged)) && storage.data == old(storage.data)[i := merged]
    {
      var existing := storage.FindById(Str(id));
      if existing.None? {
        return Ok(None);
      }
      var clean := UpdateData(update, parseFloat, categories);
      if clean.Err? {
        return Err(clean.error);
      }
      var updated := storage.Update(Str(id), clean.value, now);
      r := Ok(updated);
    }

    /** Removes the first product with key `id` and returns it, or `null`. */
    method FindByIdAndDelete(id: string) returns (r: Option<Record>)
      modifies storage
      ensures var i := JsonStore.FindIndex(old(storage.data), "_id", Some(Str(id)));
        if i < 0 then r.None? && storage.data == old(storage.data)
        else r == Some(old(storage.data)[i]) && storage.data == old(storage.data)[..i] + old(storage.data)[i + 1..]
    {
      r := storage.Delete(Str(id));
    }

    /** Denormalises the category of each product; an array gives an array of
        the same length, a single product a single result. */
    method Populate(products: OneOrMany<Option<Record>>, field: string, categories: map<string, Record>)
      returns (r: OneOrMany<Option<Record>>)
      ensures r.One? <==> products.One?
      ensures |r.AsSeq()| == |products.AsSeq()|
      ensures forall i :: 0 <= i < |r.AsSeq()| ==> r.AsSeq()[i] == PopulateProduct(products.AsSeq()[i], field, categories)
    {
      var xs := products.AsSeq();
      var populated: seq<Option<Record>> := [];
      for i := 0 to |xs|
        invariant |populated| == i
        invariant forall k :: 0 <= k < i ==> populated[k] == PopulateProduct(xs[k], field, categories)
      {
        var product := xs[i];
        if product.Some? && field == "category" && "category" in product.value && Truthy(product.value["category"]) {
          var category := LookupCategory(categories, product.value["category"]);
          var replaced := if category.Some? then Obj(category.value) else product.value["category"];
          populated := populated + [Some(product.value["category" := replaced])];
        } else {
          populated := populated + [product];
        }
      }
      if products.Many? {
        r := Many(populated);
      } else {
        r := One(populated[0]);
      }
    }
  }
}

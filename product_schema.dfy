/** The product document schema: its field constraints and defaults, and the
    two virtual getters that reconcile the three image shapes (a metadata
    list, a local `images` list and a legacy single `image`). */
module ProductSchema {
  import opened Wrappers
  import opened Text
  import opened Json

  /** One uploaded image as the remote image host describes it; every part defaults to `null`. */
  datatype ImageMetadata = ImageMetadata(
    url: Option<string>,
    thumbnailUrl: Option<string>,
    width: Option<real>,
    height: Option<real>,
    size: Option<real>)

  /** A stored product document. */
  datatype ProductDoc = ProductDoc(
    name: string,
    price: real,
    description: string,
    category: string,
    images: seq<string>,
    imageKitFileIds: seq<string>,
    imageMetadataList: seq<ImageMetadata>,
    image: Option<string>,
    imageKitFileId: Option<string>,
    imageMetadata: Option<ImageMetadata>)

  /** The fields handed to the schema; `None` is a field left out. */
  datatype ProductDraft = ProductDraft(
    name: Option<string>,
    price: Option<real>,
    description: Option<string>,
    category: Option<string>,
    images: Option<seq<string>>,
    imageKitFileIds: Option<seq<string>>,
    imageMetadataList: Option<seq<ImageMetadata>>,
    image: Option<string>,
    imageKitFileId: Option<string>,
    imageMetadata: Option<ImageMetadata>)

  /** The schema's validators, one per constraint. */
  datatype SchemaError = NameRequired | PriceRequired | PriceNegative | DescriptionRequired | CategoryRequired
  {
    function Message(): string
    {
      match this
      case NameRequired => "Product name is required"
      case PriceRequired => "Product price is required"
      case PriceNegative => "Price must be positive"
      case DescriptionRequired => "Product description is required"
      case CategoryRequired => "Category is required"
    }
  }

  /** The constraints on the required fields of a stored product: name and
      description are non-empty and trimmed (the `trim` setter runs first),
      the price is at least 0, and a category id is present (an empty id
      casts to no id, which `required` refuses). */
  predicate ValidFields(name: string, price: real, description: string, category: string)
  {
    name != "" && Trim(name) == name
    && price >= 0.0
    && description != "" && Trim(description) == description
    && category != ""
  }

  /** A document the schema accepts. */
  predicate Valid(d: ProductDoc)
  {
    ValidFields(d.name, d.price, d.description, d.category)
  }

  /** A stored valid document has a name and a description that are not
      white space only. */
  lemma ValidHasText(d: ProductDoc)
    requires Valid(d)
    ensures !AllSpace(d.name) && !AllSpace(d.description) && d.price >= 0.0 && d.category != ""
  {
    TrimEmptyIff(d.name);
    TrimEmptyIff(d.description);
  }

  /** The constraint `e` stands for does not hold of `d`: a missing or
      all-white-space string, a missing or negative price, a missing or empty
      category id. */
  predicate Violated(d: ProductDraft, e: SchemaError)
  {
    match e
    case NameRequired => d.name.None? || AllSpace(d.name.value)
    case PriceRequired => d.price.None?
    case PriceNegative => d.price.Some? && d.price.value < 0.0
    case DescriptionRequired => d.description.None? || AllSpace(d.description.value)
    case CategoryRequired => d.category.None? || d.category.value == ""
  }

  /** Every validator that fails on `d`, after the `trim` setters: exactly the
      constraints `d` violates. */
  function Errors(d: ProductDraft): (r: set<SchemaError>)
    ensures forall e :: e in r <==> Violated(d, e)
  {
    TrimEmptyIff(d.name.GetOr(""));
    TrimEmptyIff(d.description.GetOr(""));
    (if d.name.None? || Trim(d.name.value) == "" then {NameRequired} else {})
    + (if d.price.None? then {PriceRequired} else if d.price.value < 0.0 then {PriceNegative} else {})
    + (if d.description.None? || Trim(d.description.value) == "" then {DescriptionRequired} else {})
    + (if d.category.None? || d.category.value == "" then {CategoryRequired} else {})
  }

  /** Casting and validating a draft: string fields trimmed, missing optional
      fields given their defaults (empty arrays, `null`), or the failed
      validators. */
  function Validate(d: ProductDraft): (r: Result<ProductDoc, set<SchemaError>>)
    ensures r.Ok? <==> Errors(d) == {}
    ensures r.Err? ==> r.error == Errors(d) && r.error != {}
    ensures r.Ok? ==> Valid(r.value)
    ensures r.Ok? ==>
      && r.value.name == Trim(d.name.value) && r.value.price == d.price.value
      && r.value.description == Trim(d.description.value) && r.value.category == d.category.value
    ensures r.Ok? ==>
      && r.value.images == d.images.GetOr([])
      && r.value.imageKitFileIds == d.imageKitFileIds.GetOr([])
      && r.value.imageMetadataList == d.imageMetadataList.GetOr([])
      && r.value.image == d.image && r.value.imageKitFileId == d.imageKitFileId
      && r.value.imageMetadata == d.imageMetadata
  {
    var errors := Errors(d);
    if errors != {} then
      Err(errors)
    else
      TrimIdempotent(d.name.value);
      TrimIdempotent(d.description.value);
      Ok(ProductDoc(
        Trim(d.name.value), d.price.value, Trim(d.description.value), d.category.value,
        d.images.GetOr([]), d.imageKitFileIds.GetOr([]), d.imageMetadataList.GetOr([]),
        d.image, d.imageKitFileId, d.imageMetadata))
  }

  /** The draft that names every field of `d`. */
  function DraftOf(d: ProductDoc): ProductDraft
  {
    ProductDraft(Some(d.name), Some(d.price), Some(d.description), Some(d.category),
      Some(d.images), Some(d.imageKitFileIds), Some(d.imageMetadataList),
      d.image, d.imageKitFileId, d.imageMetadata)
  }

  /** A valid document passes through the schema unchanged. */
  lemma ValidRoundTrip(d: ProductDoc)
    requires Valid(d)
    ensures Validate(DraftOf(d)) == Ok(d)
  {
    NoErrorsOnValid(d);
  }

  lemma NoErrorsOnValid(d: ProductDoc)
    requires Valid(d)
    ensures Errors(DraftOf(d)) == {}
  {
    ValidHasText(d);
  }

  /** `"/uploads/" + name`: where a locally stored image is served. */
  function UploadPath(name: string): string
  {
    "/uploads/" + name
  }

  /** The upload path of each local image name, in order. */
  function UploadPaths(images: seq<string>): seq<string>
  {
    seq(|images|, i requires 0 <= i < |images| => UploadPath(images[i]))
  }

  /** The truthy urls of a metadata list, in list order. */
  function MetadataUrls(list: seq<ImageMetadata>): (r: seq<string>)
    ensures |r| <= |list|
    ensures forall k :: 0 <= k < |r| ==> r[k] != ""
    ensures r == [] <==> forall i :: 0 <= i < |list| ==> !TruthyText(list[i].url)
  {
    if list == [] then []
    else
      var last := list[|list| - 1];
      var front := list[..|list| - 1];
      MetadataUrls(front) + (if TruthyText(last.url) then [last.url.value] else [])
  }

  /** The metadata urls of a concatenation are those of each part, in order. */
  lemma {:induction false} MetadataUrlsAppend(a: seq<ImageMetadata>, b: seq<ImageMetadata>)
    ensures MetadataUrls(a + b) == MetadataUrls(a) + MetadataUrls(b)
    decreases |b|
  {
    if b == [] {
      assert a + b == a;
    } else {
      var b' := b[..|b| - 1];
      assert (a + b)[..|a + b| - 1] == a + b';
      assert (a + b)[|a + b| - 1] == b[|b| - 1];
      MetadataUrlsAppend(a, b');
    }
  }

  /** The legacy single image's url: the metadata url when truthy, else its upload path. */
  function LegacyUrl(d: ProductDoc): string
    requires TruthyText(d.image)
  {
    if d.imageMetadata.Some? && TruthyText(d.imageMetadata.value.url) then d.imageMetadata.value.url.value
    else UploadPath(d.image.value)
  }

  /** The `imageUrl` virtual: the first entry of `images`, as stored; else the
      legacy metadata url; else the legacy image's upload path; else `null`. */
  function ImageUrl(d: ProductDoc): (r: Option<string>)
    ensures r.None? <==>
      && d.images == []
      && !(d.imageMetadata.Some? && TruthyText(d.imageMetadata.value.url))
      && !TruthyText(d.image)
    ensures d.images == [] && r.Some? ==> r.value != ""
  {
    if |d.images| > 0 then Some(d.images[0])
    else if d.imageMetadata.Some? && TruthyText(d.imageMetadata.value.url) then d.imageMetadata.value.url
    else if TruthyText(d.image) then Some(UploadPath(d.image.value))
    else None
  }

  /** The `imageUrls` virtual: the truthy metadata urls if there are any; else
      the upload path of every entry of `images`; else the legacy image's url
      as a one-element list; else nothing. */
  function ImageUrls(d: ProductDoc): (r: seq<string>)
    ensures forall k :: 0 <= k < |r| ==> r[k] != ""
    ensures MetadataUrls(d.imageMetadataList) == [] && d.images != [] ==> |r| == |d.images|
  {
    var fromMetadata := MetadataUrls(d.imageMetadataList);
    if fromMetadata != [] then fromMetadata
    else if |d.images| > 0 then UploadPaths(d.images)
    else if TruthyText(d.image) then [LegacyUrl(d)]
    else []
  }

  /** The getter's first pass: the truthy metadata urls, appended in list order. */
  method CollectMetadataUrls(list: seq<ImageMetadata>) returns (urls: seq<string>)
    ensures urls == MetadataUrls(list)
  {
    urls := [];
    for i := 0 to |list|
      invariant urls == MetadataUrls(list[..i])
    {
      assert list[..i + 1][..i] == list[..i];
      if TruthyText(list[i].url) {
        urls := urls + [list[i].url.value];
      }
    }
    assert list[..|list|] == list;
  }

  /** The getter's second pass: the upload path of each image, appended in order. */
  method CollectUploadPaths(images: seq<string>) returns (urls: seq<string>)
    ensures urls == UploadPaths(images)
  {
    urls := [];
    for i := 0 to |images|
      invariant |urls| == i
      invariant forall k :: 0 <= k < i ==> urls[k] == UploadPath(images[k])
    {
      urls := urls + [UploadPath(images[i])];
    }
  }

  /** The getter as the source writes it: a list built by three passes of
      appends, each pass run only while the list is still empty. */
  method CollectImageUrls(d: ProductDoc) returns (urls: seq<string>)
    ensures urls == ImageUrls(d)
  {
    urls := CollectMetadataUrls(d.imageMetadataList);
    if |urls| == 0 && |d.images| > 0 {
      urls := CollectUploadPaths(d.images);
    }
    if |urls| == 0 && TruthyText(d.image) {
      var legacyUrl := if d.imageMetadata.Some? && TruthyText(d.imageMetadata.value.url)
        then d.imageMetadata.value.url.value else UploadPath(d.image.value);
      urls := urls + [legacyUrl];
    }
  }

  /** The list is empty exactly when no image of any of the three shapes is present. */
  lemma ImageUrlsEmptyIff(d: ProductDoc)
    ensures ImageUrls(d) == [] <==>
      (forall i :: 0 <= i < |d.imageMetadataList| ==> !TruthyText(d.imageMetadataList[i].url))
      && d.images == [] && !TruthyText(d.image)
  {
  }

  /** A product of the legacy single-image scheme reads back as a one-element
      list whose one url is the `imageUrl` virtual. */
  lemma LegacyImageIsSingleton(d: ProductDoc)
    requires MetadataUrls(d.imageMetadataList) == [] && d.images == [] && TruthyText(d.image)
    ensures ImageUrls(d) == [ImageUrl(d).value]
  {
  }

  /** With local images and no metadata urls, `imageUrl` is the bare file
      name while `imageUrls` prefixes it with the upload path. */
  lemma ImageUrlIsUnprefixed(d: ProductDoc)
    requires MetadataUrls(d.imageMetadataList) == [] && |d.images| > 0
    ensures ImageUrls(d)[0] == UploadPath(ImageUrl(d).value)
  {
  }

  /** Without local images or a legacy image, `imageUrls` holds only metadata urls. */
  lemma ImageUrlNoneMeansMetadataOnly(d: ProductDoc)
    requires ImageUrl(d).None?
    ensures ImageUrls(d) == MetadataUrls(d.imageMetadataList)
  {
  }

  /** `imageUrl` can name an image while `imageUrls` is empty: a legacy
      metadata url without a legacy `image`. */
  lemma ImageUrlWithoutImageUrls()
    ensures exists d: ProductDoc :: ImageUrl(d).Some? && ImageUrls(d) == []
  {
    var meta := ImageMetadata(Some("https://images.example/ring.jpg"), None, None, None, None);
    var d := ProductDoc("Ring", 1.0, "Gold ring", "c1", [], [], [], None, None, Some(meta));
    assert ImageUrl(d).Some? && ImageUrls(d) == [];
  }
}

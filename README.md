# Twinkle Jewellery storefront core, in Dafny

This project models the core of a small jewellery storefront: its server keeps
categories, products and contact messages, and its client shows product images.
The modelled parts are:

- **The flat-file store** (`JsonStore`). Each collection is one JSON file holding an array of
  records. The class `JsonStorage` holds that array as `data` and offers these operations:
  - `findAll`, which returns every record;
  - `findById` and `findByField`/`findOneByField`, which compare with JavaScript's strict
    equality `===`;
  - `create`, which adds a generated `_id` and the two timestamps;
  - `update`, a shallow merge that refreshes `updatedAt`;
  - `delete`, which splices the record out;
  - `populate`.

  A value read back from the file is modelled by `Json.Value`. Objects and arrays are never `===`
  to each other, because every read parses fresh objects.
- **The product model** (`Products`, `ProductSchema`).
  - `save` validates in a fixed order: name, price, description, category present, category exists.
    It then stores the trimmed, parsed fields.
  - `findByIdAndUpdate` answers `null` for an unknown id before checking anything. Otherwise it
    checks and copies only the supplied fields.
  - `findByIdAndDelete` deletes, and `populate` replaces a product's category by its record.
  - The product schema gives the field constraints, the defaults, and the `imageUrl`/`imageUrls`
    virtual fields over the three image layouts: metadata list, `images` array, and legacy single image.
- **The message model** (`Messages`). `save` validates and trims a message and stores it with a
  timestamp. `find` lists messages in file order. `findSorted` lists them newest first, using an
  in-place sort of an array.
- **Category input cleaning** (`Categories`). This is the record that `save` builds and the
  `cleanUpdateData` object that `findByIdAndUpdate` builds.
- **The admin-key guard** (`Auth`), which either refuses a request with 403 or passes it on.
- **The client image URL builder** (`Formatters.GetImageUrl`).
- **The image carousel** (`Carousel`). It covers the placeholder, single-image and gallery cases, and
  a class whose `currentIndex` changes through the previous, next and dot handlers.

JavaScript's `String.prototype.trim` is `Text.Trim`, over the ECMAScript white-space and
line-terminator characters. `String.prototype.replace` with a string pattern removes only the first
occurrence (`Text.ReplaceFirst`). `undefined` is `None` or an absent key, and truthiness is written
out per type (`Json.Truthy`, `Json.TruthyText`, `Products.PriceTruthy`).

Some things are parameters instead of being computed:
- the clock is `now`, an integer instant;
- `generateId` is `freshId`;
- `parseFloat` on text is a function `string -> Option<real>`, where `None` stands for NaN;
- the category collection that `Category.findById` consults is a map from id to record;
- `process.env.ADMIN_KEY` and `REACT_APP_API_URL` are optional strings.

The product schema allows a price of `0` (`min: 0`, server/models/ProductSchema.js:12), but
`save` refuses it, because `!productData.price` is true for `0` (server/models/Product.js:22).
`findByIdAndUpdate` accepts it. `Products.ZeroPriceOnlyOnUpdate` states both.

## Model

| member | source | states |
|---|---|---|
| JsonStore.FindIndex | server/utils/jsonStorage.js:60 | the index of the first record whose key strictly equals the id, or -1 exactly when none does |
| JsonStore.Filter | server/utils/jsonStorage.js:84 | the filter is no longer than the stored list |
| JsonStore.FilterMembers | server/utils/jsonStorage.js:84 | the filter holds only matching stored records, and every stored record that matches |
| JsonStore.FilterAppend | server/utils/jsonStorage.js:84 | filtering distributes over concatenation, so the stored order is kept |
| JsonStore.FilterHeadIsFirstMatch | server/utils/jsonStorage.js:82-90 | the filter is empty exactly when findIndex finds nothing, and its head is the record findIndex finds |
| JsonStore.FindIndexAppend | server/utils/jsonStorage.js:45-56 | after an append, a lookup finds an earlier match if there is one, otherwise the appended record if it matches |
| JsonStore.PopulateItem | server/utils/jsonStorage.js:102-113 | the item keeps its keys and every other field; the field changes only when it is truthy, and then into a record from the other collection |
| JsonStore.NewItem | server/utils/jsonStorage.js:47-52 | a created record has the caller's fields plus `_id`, `createdAt` and `updatedAt`; a caller's `_id` overrides the generated one; the store's timestamps override the caller's |
| JsonStore.Merged | server/utils/jsonStorage.js:63-67 | an updated record keeps the stored fields, overridden by the supplied ones, with `updatedAt` refreshed and no other key added |
| JsonStore.RemovedKeyIsGone | server/utils/jsonStorage.js:72-80 | in a store with unique keys, a deleted key can no longer be found |
| JsonStore.ReplacedIsFound | server/utils/jsonStorage.js:58-70 | after a record is replaced by one with the same key, the lookup finds the replacement at the same index |
| JsonStore.CreatedIsFound | server/utils/jsonStorage.js:45-56 | a record created with a fresh generated key is found by that key, at the end of the file |
| JsonStore.JsonStorage.constructor | server/utils/jsonStorage.js:5-8 | a store starts with the file's current contents |
| JsonStore.JsonStorage.FindAll | server/utils/jsonStorage.js:36-38 | every stored record, in file order |
| JsonStore.JsonStorage.FindById | server/utils/jsonStorage.js:40-43 | the first record whose `_id` strictly equals the id, or `undefined` exactly when none does |
| JsonStore.JsonStorage.Create | server/utils/jsonStorage.js:45-56 | exactly the new record is appended and returned |
| JsonStore.JsonStorage.Update | server/utils/jsonStorage.js:58-70 | an unknown id gives `null` and changes nothing; otherwise only the first matching record is replaced by the merge, which is returned |
| JsonStore.JsonStorage.Delete | server/utils/jsonStorage.js:72-80 | an unknown id gives `null` and changes nothing; otherwise exactly the first matching record is spliced out and returned |
| JsonStore.JsonStorage.FindByField | server/utils/jsonStorage.js:82-85 | exactly the stored records whose field strictly equals the value |
| JsonStore.JsonStorage.FindOneByField | server/utils/jsonStorage.js:87-90 | the first of `findByField`'s records, or `undefined` when there is none |
| JsonStore.JsonStorage.Populate | server/utils/jsonStorage.js:97-114 | one result per item; an item whose field is truthy and names a record has that field replaced by the record, and every other item is unchanged; a single item counts as an array of one |
| ProductSchema.Validate | server/models/ProductSchema.js:4-86 | accepted exactly when no validator fails, and then the document has the trimmed name and description and the draft's price and category, meets the constraints and gets its defaults (empty arrays, `null` legacy fields); a refused draft gets the non-empty set of every failing validator |
| ProductSchema.Errors | server/models/ProductSchema.js:4-23 | a validator fails exactly when its constraint is violated: a name or description missing or white space only, a missing or negative price, a missing or empty category id |
| ProductSchema.ValidFields | server/models/ProductSchema.js:4-23 | the stored constraints: name and description trimmed and non-empty, price at least 0, category id present |
| ProductSchema.Valid | server/models/ProductSchema.js:3-23 | a document meets the constraints on its required fields |
| ProductSchema.ValidHasText | server/models/ProductSchema.js:4-23 | a valid document's name and description are not white space only, its price is at least 0 and its category is present |
| ProductSchema.ValidRoundTrip | server/models/ProductSchema.js:4-86 | a valid document passes validation unchanged |
| ProductSchema.NoErrorsOnValid | server/models/ProductSchema.js:4-33 | a valid document raises no validation error |
| ProductSchema.MetadataUrls | server/models/ProductSchema.js:106-112 | the truthy metadata urls: never more than the entries, none empty, and empty exactly when no entry has a url |
| ProductSchema.MetadataUrlsAppend | server/models/ProductSchema.js:106-112 | collecting the urls of a concatenation gives the urls of the first part followed by those of the second |
| ProductSchema.CollectMetadataUrls | server/models/ProductSchema.js:106-112 | the first pass appends exactly `MetadataUrls` of the list: its truthy urls, in list order |
| ProductSchema.CollectUploadPaths | server/models/ProductSchema.js:115-119 | the second pass appends the upload path of each image, in order |
| ProductSchema.CollectImageUrls | server/models/ProductSchema.js:102-128 | the three append loops of the getter compute `ImageUrls`: metadata urls first, then upload paths of `images`, then the legacy image |
| ProductSchema.ImageUrl | server/models/ProductSchema.js:92-99 | `null` exactly when there are no images, no legacy metadata url and no legacy image; a fallback url is never empty |
| ProductSchema.ImageUrls | server/models/ProductSchema.js:102-128 | no url in the list is empty; with local images and no metadata urls there is one url per image |
| ProductSchema.ImageUrlsEmptyIff | server/models/ProductSchema.js:102-128 | `imageUrls` is empty exactly when there is no metadata url, no entry in `images` and no legacy image |
| ProductSchema.LegacyImageIsSingleton | server/models/ProductSchema.js:92-128 | a legacy single-image product reads back as a one-element `imageUrls` equal to `[imageUrl]` |
| ProductSchema.ImageUrlIsUnprefixed | server/models/ProductSchema.js:92-119 | with local images and no metadata urls, `imageUrls[0]` is the upload path of `imageUrl`, which is the bare first entry |
| ProductSchema.ImageUrlNoneMeansMetadataOnly | server/models/ProductSchema.js:92-128 | when `imageUrl` is `null`, `imageUrls` holds only metadata urls |
| ProductSchema.ImageUrlWithoutImageUrls | server/models/ProductSchema.js:92-128 | a product can have an `imageUrl` while `imageUrls` is empty (legacy metadata without a legacy image) |
| Products.SaveData | server/models/Product.js:18-44 | refusals in source order: blank name, then a price that is falsy, NaN or negative, then blank description, then missing category, then unknown category; accepted exactly when every check passes, and then exactly the five stored fields, trimmed and parsed, with `image` or `null` |
| Products.ParsePrice | server/models/Product.js:22 | `parseFloat` of the price: NaN for `undefined`, the number itself for a number, the parser's result for text |
| Products.LookupCategory | server/models/Product.js:33-34 | a category record is found exactly when the id is a non-empty string naming one, and it is that record |
| Products.UpdateError | server/models/Product.js:54-82 | each error is reported exactly when the earlier checks (name, price, description, category, in source order) pass and its own fails; no error exactly when every supplied field passes; a missing category is never an error on update |
| Products.CleanUpdate | server/models/Product.js:52-86 | exactly the supplied fields, with strings trimmed, price parsed, and category and image as given |
| Products.UpdateData | server/models/Product.js:52-88 | refused exactly when a check fails, with that check's error; otherwise the update object holds exactly the supplied fields |
| Products.PopulateProduct | server/models/Product.js:102-111 | for `category` with a truthy value, the category becomes its record, or stays as it was when no record is found; all other fields are kept, and `null` stays `null` |
| Products.SavedConforms | server/models/Product.js:38-44 | a product that `save` stores meets the schema's constraints |
| Products.MergedTextStaysValid | server/models/Product.js:54-74 | a non-empty trimmed name or description stays so under a merge that keeps it or supplies a value trimming to non-empty text |
| Products.CheckedUpdateIsClean | server/models/Product.js:54-79 | when every check passes, a supplied name and description are trimmed and not blank, a supplied price is a number of at least 0, and a supplied category is a non-empty id |
| Products.UpdatePreservesConformance | server/models/Product.js:47-89 | an accepted update keeps a conforming product conforming |
| Products.ZeroPriceOnlyOnUpdate | server/models/Product.js:22-24 | a numeric price of 0 is refused by `save` and accepted by `findByIdAndUpdate` |
| Products.ProductModel.constructor | server/models/Product.js:5-7 | the model works on its products store |
| Products.ProductModel.Save | server/models/Product.js:17-45 | a refused product stores nothing and returns the error; an accepted one is appended as `create` builds it |
| Products.ProductModel.FindByIdAndUpdate | server/models/Product.js:47-89 | an unknown id gives `null` before any check; a failed check changes nothing; otherwise only the matching record is replaced by the merge |
| Products.ProductModel.FindByIdAndDelete | server/models/Product.js:91-93 | deletes and returns the first product with the id, or gives `null` and changes nothing |
| Products.ProductModel.Populate | server/models/Product.js:96-115 | an array gives an array of the same length, a single product gives a single result, and each entry is populated |
| Messages.MessageData | server/models/Message.js:10-25 | refusals in source order (name, email, message missing or white space only); otherwise exactly the trimmed fields and a timestamp |
| Messages.WhiteSpaceMessageRefused | server/models/Message.js:16-18 | a message made only of white space is refused |
| Messages.Swap | server/models/Message.js:35 | exchanges two entries of the array and keeps its multiset |
| Messages.InsertLeft | server/models/Message.js:35 | one insertion step extends the newest-first prefix by one, keeps the multiset and leaves the rest of the array alone |
| Messages.SortNewestFirst | server/models/Message.js:35 | the in-place sort leaves a permutation of the array in non-increasing timestamp order |
| Messages.MessageModel.constructor | server/models/Message.js:4-6 | the model works on its messages store |
| Messages.MessageModel.Save | server/models/Message.js:8-26 | a refused message stores nothing; an accepted one adds exactly one record; it keeps every stored message timestamped |
| Messages.MessageModel.Find | server/models/Message.js:28-30 | all stored messages, in file order |
| Messages.MessageModel.FindSorted | server/models/Message.js:33-36 | a permutation of the stored messages, newest first; when every stored message is timestamped, so is every result |
| Categories.SaveFields | server/models/Category.js:12-16 | the name trimmed (no record when it is missing) and the description trimmed, or `''` when it is falsy |
| Categories.CleanUpdate | server/models/Category.js:22-25 | name present exactly when truthy; description present exactly when not `undefined`; both trimmed; no other key |
| Categories.SavedFieldsTrimmed | server/models/Category.js:13-16 | the stored name and description are already trimmed |
| Categories.SpaceDescriptionSavedEmpty | server/models/Category.js:15 | a white-space description is saved as `''` |
| Categories.NameUpdateCases | server/models/Category.js:23 | an empty name leaves the stored name alone, while a white-space name becomes `''` |
| Categories.SpaceDescriptionClears | server/models/Category.js:24 | a white-space description clears the stored one to `''` |
| Auth.SuppliedKey | server/middleware/auth.js:2 | the header key when it is truthy, else the query key |
| Auth.AdminAuth | server/middleware/auth.js:1-11 | a refusal is 403 with the fixed message; `next` happens exactly when a truthy supplied key equals the configured key, and never together with a response |
| Auth.PassesIffKeyMatches | server/middleware/auth.js:2-10 | a request passes exactly when a key is configured and the key it supplies (header first) equals it |
| Auth.NoKeyRefused | server/middleware/auth.js:4-8 | a request without a key is refused with 403 |
| Auth.UnconfiguredRefusesAll | server/middleware/auth.js:4 | with no configured key every request is refused |
| Auth.HeaderTakesPrecedence | server/middleware/auth.js:2-4 | a wrong header key is refused even when the query key is right |
| Formatters.ApiUrl | client/src/utils/formatters.ts:28 | the configured URL when truthy, else the local default |
| Formatters.BaseUrl | client/src/utils/formatters.ts:29 | the base is four characters shorter than the URL exactly when it contains `/api`, and otherwise as long |
| Formatters.GetImageUrl | client/src/utils/formatters.ts:24-32 | `''` for a missing or empty name; otherwise the base URL followed by `/uploads/` and the name |
| Formatters.DefaultApiAtEnd | client/src/utils/formatters.ts:28 | the default URL's only `/api` is its last four characters |
| Formatters.DefaultBaseUrl | client/src/utils/formatters.ts:28-29 | the default base URL is `http://localhost:5000` |
| Formatters.DefaultImageUrl | client/src/utils/formatters.ts:24-32 | with no configured URL the result is `http://localhost:5000/uploads/` followed by the name |
| Formatters.NoApiUnchanged | client/src/utils/formatters.ts:29 | a URL without `/api` is used unchanged as the base |
| Formatters.FirstApiRemoved | client/src/utils/formatters.ts:29 | only the first `/api` is removed; later ones stay |
| Text.Trim | server/models/Message.js:21-23 | trimming never lengthens a string |
| Text.TrimSpec | server/models/Message.js:21-23 | the trimmed string is the input with only white space removed before and after it |
| Text.TrimEnds | server/models/Message.js:21-23 | the trimmed string is empty, or neither starts nor ends with white space |
| Text.TrimEmptyIff | server/models/Message.js:10-18 | a string trims to `''` exactly when it is all white space, which is the `!s.trim()` test |
| Text.TrimIdempotent | server/models/Category.js:14-15 | trimming twice is trimming once |
| Text.IndexFrom | client/src/utils/formatters.ts:29 | the first occurrence of the pattern at or after the start, or -1 when there is none |
| Text.ReplaceFirst | client/src/utils/formatters.ts:29 | with no occurrence the string is unchanged; otherwise only the first one is replaced |
| Text.ReplaceFirstAt | client/src/utils/formatters.ts:29 | when the first occurrence starts at `k`, exactly that occurrence is replaced |
| Carousel.NextPreviousInverse | client/src/components/ImageCarousel.tsx:43-53 | next then previous, and previous then next, return to the start |
| Carousel.Next | client/src/components/ImageCarousel.tsx:49-53 | next maps `n-1` to 0 and `i` to `i+1` otherwise, that is `(i+1) % n`, staying in range |
| Carousel.Previous | client/src/components/ImageCarousel.tsx:43-47 | previous maps 0 to `n-1` and `i` to `i-1` otherwise, that is `(i+n-1) % n`, staying in range |
| Carousel.RunInRange | client/src/components/ImageCarousel.tsx:43-57 | starting in `[0, n)`, any sequence of previous, next and dot clicks stays in `[0, n)` |
| Carousel.ForwardsWrap | client/src/components/ImageCarousel.tsx:49-53 | up to `n` clicks on next move forward, wrapping past the last image once |
| Carousel.FullCircle | client/src/components/ImageCarousel.tsx:49-53 | `n` clicks on next come back to the start |
| Carousel.Render | client/src/components/ImageCarousel.tsx:22-104 | placeholder exactly for no images; a single image exactly for one, showing `images[0]`; otherwise the gallery shows `images[currentIndex]`, its position, the controls flag and one dot per image with only the current one active |
| Carousel.ImageCarousel.constructor | client/src/components/ImageCarousel.tsx:19 | the index starts at 0 |
| Carousel.ImageCarousel.GoToPrevious | client/src/components/ImageCarousel.tsx:43-47 | the index becomes the previous one, wrapping from 0 to `n-1` |
| Carousel.ImageCarousel.GoToNext | client/src/components/ImageCarousel.tsx:49-53 | the index becomes the next one, wrapping from `n-1` to 0 |
| Carousel.ImageCarousel.GoToSlide | client/src/components/ImageCarousel.tsx:55-57 | the index becomes `k` |
| Carousel.ImageCarousel.View | client/src/components/ImageCarousel.tsx:59-64 | with a valid index and two or more images, the gallery shows the current image |

## Left out

- File I/O: reading and writing the JSON file, `ensureFileExists`, and `readData`'s fallback to `[]` on a read or parse error. The file is the field `data`, and every write is assumed to succeed.
- `generateId` and `new Date()`: the id is the parameter `freshId`, and the clock is the parameter `now`. `create` reads the clock twice, but the model uses one reading (`now`) for both `createdAt` and `updatedAt`, and sets message timestamps from that same reading.
- The store does not enforce unique ids (a caller may supply `_id`). `JsonStore.UniqueIds` is therefore a hypothesis of `RemovedKeyIsGone`, not an invariant of the store.
- Products.ParsePrice: `parseFloat` on text is a parameter, not a model of JavaScript's number grammar. Prices are exact reals, not IEEE doubles, and NaN is `None`.
- Products.UpdateError: a field supplied as `null` (so that `.trim()` throws a TypeError) is not modelled, because fields are strings or `undefined`. The same holds for `Messages.MessageData` and `Categories.CleanUpdate`.
- Category lookup by id is a map from id to record. Casting errors that the document database raises for an id of the wrong shape are not modelled.
- `Product.find`, `Product.findById`, and `Category.find`, `findById`, `findByIdAndDelete`, `countDocuments` and `insertMany` only delegate to the store or the database. `CategorySchema` persistence, its uniqueness index and its validators are not part of this model.
- Messages.MessageModel.FindSorted: it states a permutation in newest-first order. It does not state that equal timestamps keep their stored order (JavaScript's sort is stable, and the insertion sort here is too, but stability is not proved). A record without a timestamp counts as instant 0 for ordering, whereas JavaScript would compare with NaN. `Save` keeps every stored message timestamped, so this does not arise for messages the model stores.
- Products.LookupCategory: a non-empty id that is not a valid document id makes the database raise a cast error; here it simply names no category.
- Json.Value: a timestamp is `Time`, which is never `===` to a string. In the file it is ISO text, so a `findByField` on a timestamp with that text would match there but not here. No modelled operation does such a lookup.
- Auth.AdminAuth: the query parameter is a string or absent. Repeated or nested query parameters, which parse to arrays or objects, are not modelled.
- The client: `formatPrice` (locale currency formatting), React rendering details (class names, alt text, key props) and asynchronous state batching. In `Carousel.ImageCarousel`, `images` is fixed for the life of a carousel, so a prop that shrinks between renders is covered only by `Render`'s empty-source case. `GoToPrevious` and `GoToNext` require two or more images, because their buttons exist only then.
- Image upload and optimisation, the remote image host, the HTTP routes, and login with JWT and bcrypt are outside this core.
- Everything is sequential: the interleaving of concurrent requests over the same file is not modelled.

# Uzbek Foodstuff admin console — a Dafny model

This project models the client-side bookkeeping of the Uzbek Foodstuff admin console. The console is a React application over the catalogue REST API at `https://api.uzbekfoodstaff.ae/api/v1`. The model covers four groups:

- **Product composition.** The colour-variant draft of the colour selector. The image uploader, with its two index-aligned lists and its one-at-a-time uploads. The products page: the submit sequence with its in-flight flag, the payload, sorting and filtering, the category lookup by slug, and image-URL normalisation. The feature selector: the per-product feature join and the add and create-type guards.
- **Reference stores.** The colour, type, feature, product-colour and currency contexts.
- **The other CRUD screens.** Social media, our contact, news, categories, colours, contact messages, users, orders, about / currency and banners.
- **Authentication.** The token store over `localStorage`, request-header construction with the `Authorization: Bearer` header of section 2.1 of RFC 6750, `apiFetch`, the authentication context and the login form.

How the model is built:

- Every HTTP round trip is an input outcome, `Http.Reply<T>`. It is one of `Ok(body)`, `NotOk(status)` (a response whose `ok` flag is false) or `Thrown(message)` (network failure, undecodable body).
- A `Http.Client` keeps `sent`, the log of every request issued, in order. "Nothing is sent" and "uploads go out in this order" are therefore postconditions on `sent`.
- Each screen or context is a class. Its fields are the component's React state, and each handler is a method that runs to completion.
- The pure helpers are functions, with lemmas about them.
- `localStorage` is a class over a `map<string, string>`.
- `confirm(...)` is a boolean parameter.
- Preview URLs produced by `URL.createObjectURL` or `FileReader` are parameters.
- `Date.now()` is a parameter, and so is the `new URL(...)` parser inside `validateUrl`.

One module per source file; `Common` holds the JavaScript list and string operations the screens use. It covers:

- `filter`, `map`, `find` and `findIndex`;
- removal by index, and replace-where;
- `||` on optional strings;
- `startsWith`, `endsWith` and `includes`;
- `trim` and ASCII `toLowerCase`;
- number-to-string conversion and `parseInt`.

`Http` holds requests, bodies, replies and the request log.

## Model

| member | source | states |
|---|---|---|
| ColorSelector.ToggleColor | src/components/ColorSelector.tsx:34-44 | toggling a selected colour drops every entry with that id; otherwise single-select gives the one blank entry and multi-select appends it |
| ColorSelector.ToggleSelectedRemoves | src/components/ColorSelector.tsx:34-37 | after toggling a selected id it is no longer selected, every entry of another colour is kept, and the draft gets shorter |
| ColorSelector.ToggleAbsentAppends | src/components/ColorSelector.tsx:40-41 | in multi-select, toggling an absent id keeps the draft as a prefix and appends exactly one blank entry for it |
| ColorSelector.ToggleTwiceRestores | src/components/ColorSelector.tsx:34-44 | in multi-select, toggling an absent id twice gives back exactly the original draft |
| ColorSelector.SingleSelectStaysSingle | src/components/ColorSelector.tsx:38-39 | in single-select, a toggle never takes a draft of length at most 1 above 1 |
| ColorSelector.ChangeColorData | src/components/ColorSelector.tsx:46-55 | editing keeps length, order and every colour id; only entries of that colour change, and only in the edited field |
| ColorSelector.ColorIds | src/components/ColorSelector.tsx:26 | a colour id is in the set exactly when `isColorSelected` holds for it |
| ColorSelector.SelectedMap | src/components/ColorSelector.tsx:28-32 | the loop's map has exactly the selected ids as keys, each bound to its last occurrence in the draft |
| ColorSelector.ColorSelector.HandleColorToggle | src/components/ColorSelector.tsx:34-44 | the draft becomes the toggled draft; the create-dialog state is unchanged |
| ColorSelector.ColorSelector.HandleColorDataChange | src/components/ColorSelector.tsx:46-55 | the draft becomes the edited draft; nothing else changes |
| ColorSelector.ColorSelector.HandleNewColorImageChange | src/components/ColorSelector.tsx:57-63 | a chosen file becomes the new-colour image with its preview; no file changes nothing |
| ColorSelector.ColorSelector.HandleCreateColor | src/components/ColorSelector.tsx:65-81 | a blank trimmed name or no image sends nothing and changes nothing; otherwise one multipart POST of the trimmed name and image. A created colour appends a blank entry for its id, even in single-select, and clears the inputs and dialog; a failure keeps them |
| ImageUploader.UploadRequest | src/components/ImageUploader.tsx:47-55 | one upload is a POST to `/product/create-images/` with parts `image` (the file) and `product` (the id as text) |
| ImageUploader.UploadRequests | src/components/ImageUploader.tsx:47-60 | the uploads of a file list are one request per file, in selection order |
| ImageUploader.FirstFailure | src/components/ImageUploader.tsx:56-62 | the index of the first non-ok response: every earlier one was ok |
| ImageUploader.SentCount | src/components/ImageUploader.tsx:47-62 | all ok sends every file; otherwise exactly up to and including the first failure |
| ImageUploader.UploadSequentially | src/components/ImageUploader.tsx:45-76 | the loop logs the uploads of exactly the files before and including the first failure, in order; it reports success iff every response was ok |
| ImageUploader.AddKeepsAligned | src/components/ImageUploader.tsx:34-38 | after an add on aligned lists they stay equal in length and each new preview belongs to its file |
| ImageUploader.RemoveAtShifts | src/components/ImageUploader.tsx:78-83 | after removal at i, element j is the old element j before i and the old element j+1 from i on |
| ImageUploader.RemoveKeepsAligned | src/components/ImageUploader.tsx:78-83 | removal at any index keeps aligned lists aligned, element by element |
| ImageUploader.ImageUploader.HandleImageChange | src/components/ImageUploader.tsx:30-43 | no files changes nothing and sends nothing; k files append the files and k previews. Only immediate mode with a non-zero product id uploads the new files in order, stopping after the first failure; the success notice appears iff every upload was ok |
| ImageUploader.ImageUploader.RemoveImageAt | src/components/ImageUploader.tsx:78-83 | both lists lose index i; an out-of-range i changes neither |
| ProductsPage.NormalizeImageUrl | src/components/pages/admin/products/page.tsx:116-120 | empty gives the placeholder, an `http` URL is kept, anything else is prefixed with the media host |
| ProductsPage.NormalizeImageUrlIdempotent | src/components/pages/admin/products/page.tsx:116-120 | a normalised non-empty URL starts with `http` and normalising it again changes nothing |
| ProductsPage.BuildPayload | src/components/pages/admin/products/page.tsx:310-320 | nine JSON fields; the seven texts are strings; an empty `old_price` becomes null; category 0 becomes null, otherwise its number |
| ProductsPage.WriteRequest | src/components/pages/admin/products/page.tsx:322-331 | editing sends PUT `/product/{id}/`, creating sends POST `/product/create/`, both with the payload |
| ProductsPage.EditNeverPostsToCreate | src/components/pages/admin/products/page.tsx:322-325 | no product id's path equals the create endpoint |
| ProductsPage.ResolvedId | src/components/pages/admin/products/page.tsx:338-339 | the edited product's id when non-zero, else the id the server returned, else 0 |
| ProductsPage.InsertByIdDesc | src/components/pages/admin/products/page.tsx:132 | inserting into an id-descending list keeps it descending and adds exactly that product |
| ProductsPage.SortByIdDesc | src/components/pages/admin/products/page.tsx:132 | the result is sorted by id descending and is a permutation of the input |
| ProductsPage.CategoryIdForSlug | src/components/pages/admin/products/page.tsx:212-215 | the id of the first category with that slug, or 0 when none has it |
| ProductsPage.FilteredProducts | src/components/pages/admin/products/page.tsx:489-494 | no filter (or 0) shows every product; otherwise exactly the products whose slug resolves to the chosen id |
| ProductsPage.ProductColorRowsFor | src/components/pages/admin/products/page.tsx:169-179 | exactly the rows whose product is the selected id |
| ProductsPage.ProductColorRowsAppend | src/components/pages/admin/products/page.tsx:169-179 | the row filter distributes over concatenation, so response order is kept |
| ProductsPage.EditForm | src/components/pages/admin/products/page.tsx:210-245 | the edit form copies the texts with "" defaults, resolves the category slug to its id and has no pending images |
| ProductsPage.EditedPayloadKeepsStoredFields | src/components/pages/admin/products/page.tsx:210-245 | submitting an unchanged edit form sends the stored title and price; `old_price` is null iff none was stored; category is null iff the slug resolves to no category |
| ProductsPage.EditPreviews | src/components/pages/admin/products/page.tsx:240-242 | one normalised preview per stored image, none when the product has no images |
| ProductsPage.ProductManagement.FetchProductData | src/components/pages/admin/products/page.tsx:122-144 | an ok response replaces the list with it sorted by id descending; a failure keeps the list; loading ends |
| ProductsPage.ProductManagement.FetchProductColors | src/components/pages/admin/products/page.tsx:156-189 | an ok response keeps the selected product's rows; a non-ok response tries the detail endpoint; a thrown error keeps the rows |
| ProductsPage.ProductManagement.SelectedProductIdChanged | src/components/pages/admin/products/page.tsx:195-200 | rows are fetched only for a non-zero selected id |
| ProductsPage.ProductManagement.OpenCreateDialog | src/components/pages/admin/products/page.tsx:202-208 | clears the editing item, form and previews and opens the dialog |
| ProductsPage.ProductManagement.HandleEdit | src/components/pages/admin/products/page.tsx:210-245 | the form becomes the product's edit form and the previews its normalised images |
| ProductsPage.ProductManagement.HandleDelete | src/components/pages/admin/products/page.tsx:247-267 | unconfirmed sends nothing; an ok DELETE drops exactly the rows with that id; a failure changes nothing |
| ProductsPage.ProductManagement.UploadImagesToProduct | src/components/pages/admin/products/page.tsx:269-301 | pending files go out in order up to the first failure; the pending list is cleared only when all succeeded |
| ProductsPage.ProductManagement.HandleSubmit | src/components/pages/admin/products/page.tsx:303-367 | a submit while one is in flight sends and changes nothing; otherwise it runs the guarded sequence and the flag is false on every exit |
| ProductsPage.ProductManagement.SubmitUnguarded | src/components/pages/admin/products/page.tsx:309-363 | a non-ok write or no resolvable id stops after the write; otherwise uploads go out against that id, the list is refetched and the dialog closes, even after a failed upload |
| ProductsPage.ProductManagement.UploadAndReload | src/components/pages/admin/products/page.tsx:341-354 | pending images switch the mode to immediate and are uploaded in order; then the list is refetched and the dialog closed |
| FeatureSelector.TypeName | src/components/FeatureSelector.tsx:91 | the name of the type with that id when it has one, else `Type {id}` |
| FeatureSelector.TypeNameNonEmpty | src/components/FeatureSelector.tsx:91 | a type name is never empty |
| FeatureSelector.ProductFeaturesExact | src/components/FeatureSelector.tsx:84-93 | the shown features are exactly the joined rows of that product |
| FeatureSelector.ProductFeaturesAppend | src/components/FeatureSelector.tsx:84-93 | the join distributes over concatenation, so response order is kept |
| FeatureSelector.AddFeatureSendsChosenType | src/components/FeatureSelector.tsx:121-141 | when the guard passes, the chosen type exists and its id is the `type` number sent |
| FeatureSelector.FeatureSelector.FetchAllFeatures | src/components/FeatureSelector.tsx:62-98 | an ok response stores all rows and shows and reports this product's joined rows; a failure changes neither; loading ends |
| FeatureSelector.FeatureSelector.ShowFeatures | src/components/FeatureSelector.tsx:84-96 | the shown and reported list is the product's joined rows |
| FeatureSelector.FeatureSelector.ProductIdChanged | src/components/FeatureSelector.tsx:112-117 | product id 0 fetches nothing; any other id fetches and shows its features |
| FeatureSelector.FeatureSelector.HandleAddFeature | src/components/FeatureSelector.tsx:120-174 | a missing type, blank value or price, or unknown type sends nothing and keeps the inputs; otherwise one POST of the trimmed fields; success refetches and clears the inputs |
| FeatureSelector.FeatureSelector.PostFeature | src/components/FeatureSelector.tsx:126-172 | the post and its outcome as `HandleAddFeature` promises for an accepted input |
| FeatureSelector.FeatureSelector.ReloadAndReset | src/components/FeatureSelector.tsx:150-158 | refetches, clears the three inputs and closes the dialog |
| FeatureSelector.FeatureSelector.HandleDeleteFeature | src/components/FeatureSelector.tsx:176-210 | one DELETE; only an ok response refetches; a failure keeps the list |
| FeatureSelector.FeatureSelector.HandleCreateType | src/components/FeatureSelector.tsx:212-229 | all three names blank sends nothing; otherwise a POST of the trimmed names; a created type is appended, preselected by id and the names cleared |
| ColorsContext.ColorsProvider.FetchColors | src/contexts/ColorsContext.tsx:33-49 | an ok fetch replaces the colours; a failure keeps them; loading ends |
| ColorsContext.ColorsProvider.CreateColor | src/contexts/ColorsContext.tsx:51-81 | a multipart POST of `name` and `image`; success appends and returns the colour, failure returns none and keeps the list |
| TypesContext.CreateTypeBody | src/contexts/TypesContext.tsx:59 | the JSON body `{product, name_uz, name_ru, name_en}` |
| TypesContext.TypesProvider.FetchTypes | src/contexts/TypesContext.tsx:32-48 | an ok fetch replaces the types; a failure keeps them; loading ends |
| TypesContext.TypesProvider.CreateType | src/contexts/TypesContext.tsx:50-81 | success appends and returns the type, failure returns none and keeps the list |
| FeaturesContext.CreateFeatureBody | src/contexts/FeaturesContext.tsx:66-71 | the JSON body `{product, type, value, price}` |
| FeaturesContext.FeaturesProvider.FetchFeatures | src/contexts/FeaturesContext.tsx:36-52 | an ok fetch replaces the features; a failure keeps them; loading ends |
| FeaturesContext.FeaturesProvider.CreateFeature | src/contexts/FeaturesContext.tsx:54-93 | success appends and returns the feature, failure returns none and keeps the list |
| ProductColorsContext.CreateProductColorBody | src/contexts/ProductColorsContext.tsx:63-67 | multipart `product`, `color`, `image`, `price` in that order; the id parts parse back to the ids |
| ProductColorsContext.ProductColorsProvider.FetchProductColors | src/contexts/ProductColorsContext.tsx:38-54 | an ok fetch replaces the rows; a failure keeps them; loading ends |
| ProductColorsContext.ProductColorsProvider.CreateProductColor | src/contexts/ProductColorsContext.tsx:56-93 | success appends and returns the row, failure returns none and keeps the list |
| CurrencyContext.FetchErrorMessage | src/contexts/CurrencyContext.tsx:33-35 | a non-ok response records `HTTP error! status: N`; a thrown error records its message |
| CurrencyContext.CurrencyProvider.constructor | src/contexts/CurrencyContext.tsx:22-25 | the store starts with no currencies, no selection, no error and loading true |
| CurrencyContext.CurrencyProvider.FetchCurrencies | src/contexts/CurrencyContext.tsx:27-52 | an ok fetch stores the list and selects its first element when non-empty; a failure records the error and keeps list and selection; loading ends |
| CurrencyContext.CurrencyProvider.SetSelectedCurrency | src/contexts/CurrencyContext.tsx:55-57 | the selection becomes exactly the given currency |
| SocialMedia.HandlePrefix | src/components/pages/admin/social-media/page.tsx:112-119 | the URL prefix for each of the five platforms, "" for any other |
| SocialMedia.FormatUrl | src/components/pages/admin/social-media/page.tsx:110-124 | blank gives ""; `@name` on a known platform becomes prefix + name; anything else is kept |
| SocialMedia.FormatUrlIdempotent | src/components/pages/admin/social-media/page.tsx:110-124 | formatting a formatted value changes nothing |
| SocialMedia.ValidateUrl | src/components/pages/admin/social-media/page.tsx:90-108 | blank is valid with ""; otherwise valid iff the parser accepts it or it is `@` plus something; a valid URL comes back formatted |
| SocialMedia.SubmitNeverRejects | src/components/pages/admin/social-media/page.tsx:126-137 | for every form and every URL parser, the loop's test `!validateUrl(url, key)` (the negation of an object, always truthy) holds for no platform |
| SocialMedia.IntendedRejectsIff | src/components/pages/admin/social-media/page.tsx:90-108 | the evidently intended check, which stops on a result whose `isValid` is false, stops exactly when some platform's link is not blank, not accepted by the parser and not `@` plus something |
| SocialMedia.InvalidLinkGetsThrough | src/components/pages/admin/social-media/page.tsx:126-137 | whenever some platform's link is invalid, the intended check would stop the submit while the check as written lets it through |
| SocialMedia.SubmitAcceptsInvalidLink | src/components/pages/admin/social-media/page.tsx:126-137 | one such input: a lone "@" as the Telegram link with a parser that rejects it |
| SocialMedia.FormattedLinks | src/components/pages/admin/social-media/page.tsx:140-146 | each of the five fields is formatted with its own platform |
| SocialMedia.FormattedLinksIdempotent | src/components/pages/admin/social-media/page.tsx:140-146 | formatting the record twice equals formatting it once |
| SocialMedia.SocialMediaManagement.FetchSocialData | src/components/pages/admin/social-media/page.tsx:71-88 | an ok fetch replaces the records; a failure keeps them; loading ends |
| SocialMedia.SocialMediaManagement.HandleSubmit | src/components/pages/admin/social-media/page.tsx:126-179 | the loop over the platforms in order stops, with nothing sent and nothing changed, exactly when the check as written rejects; otherwise it sends the formatted record by PUT (editing) or POST; success replaces the matching id or appends and resets the form; failure keeps the list and form |
| SocialMedia.SocialMediaManagement.SubmitWrite | src/components/pages/admin/social-media/page.tsx:140-179 | the write after the check: PUT or POST of the formatted record, and on ok the list update and the form reset; failure keeps them |
| SocialMedia.SocialMediaManagement.HandleEdit | src/components/pages/admin/social-media/page.tsx:181-185 | the form becomes the record's links and the dialog opens |
| SocialMedia.SocialMediaManagement.OpenCreateDialog | src/components/pages/admin/social-media/page.tsx:187-191 | the form becomes empty and the dialog opens |
| OurContact.Localize | src/components/pages/admin/our-contact/page.tsx:88-96 | a fetched record keeps its fields; each missing localized address or working time becomes "" |
| OurContact.Overlay | src/components/pages/admin/our-contact/page.tsx:138-155 | the saved record is the server item with the form's six localized fields laid over it |
| OurContact.OverlayIgnoresServerLocalized | src/components/pages/admin/our-contact/page.tsx:138-155 | the server's own localized fields never reach the saved record |
| OurContact.FormOf | src/components/pages/admin/our-contact/page.tsx:207-220 | the edit form copies the record's lists and localized fields |
| OurContact.OverlayOfOwnForm | src/components/pages/admin/our-contact/page.tsx:138-220 | saving an unchanged edit form against the same server item gives back the record |
| OurContact.RemoveThroughControlsKeepsOne | src/components/pages/admin/our-contact/page.tsx:403-413 | since remove buttons show only when there is more than one entry, a removal leaves at least one |
| OurContact.OurContactManagement.FetchContactData | src/components/pages/admin/our-contact/page.tsx:79-110 | an ok fetch stores the localized records; a failure keeps the list; loading ends |
| OurContact.OurContactManagement.HandleSubmit | src/components/pages/admin/our-contact/page.tsx:112-205 | PUT (editing) or POST; success replaces the matching id or appends the overlaid record, closes and resets; failure keeps list and form |
| OurContact.OurContactManagement.HandleEdit | src/components/pages/admin/our-contact/page.tsx:207-220 | the form becomes the record's form and the dialog opens |
| OurContact.OurContactManagement.ResetForm | src/components/pages/admin/our-contact/page.tsx:222-234 | clears the editing item and form |
| OurContact.OurContactManagement.AddPhoneNumber | src/components/pages/admin/our-contact/page.tsx:236-240 | appends "" to the phone numbers; no other field changes |
| OurContact.OurContactManagement.RemovePhoneNumber | src/components/pages/admin/our-contact/page.tsx:241-245 | drops only index i; an out-of-range i is a no-op |
| OurContact.OurContactManagement.UpdatePhoneNumber | src/components/pages/admin/our-contact/page.tsx:246-250 | replaces only element i and keeps the length |
| OurContact.OurContactManagement.AddEmail | src/components/pages/admin/our-contact/page.tsx:252-253 | appends "" to the e-mails; no other field changes |
| OurContact.OurContactManagement.RemoveEmail | src/components/pages/admin/our-contact/page.tsx:254-258 | drops only index i; an out-of-range i is a no-op |
| OurContact.OurContactManagement.UpdateEmail | src/components/pages/admin/our-contact/page.tsx:259-263 | replaces only element i and keeps the length |
| News.GetTypeInfo | src/components/pages/admin/news/page.tsx:307-309 | the type entry with that value, or the first entry ("p") |
| News.KnownTypeFound | src/components/pages/admin/news/page.tsx:307-309 | a type value is found iff it is one of p, s, c, t |
| News.GetDisplayTitle | src/components/pages/admin/news/page.tsx:312-320 | the first non-empty of title_en, title_uz, title_ru, title, else "Untitled" |
| News.GetDisplayDescription | src/components/pages/admin/news/page.tsx:323-331 | the same over the descriptions, else "No description" |
| News.AppendImages | src/components/pages/admin/news/page.tsx:183-191 | the loop appends one `images` part per entry, in order, a file or its stored URL |
| News.NewsBody | src/components/pages/admin/news/page.tsx:173-191 | the seven text parts followed by every image entry in order |
| News.BuildBody | src/components/pages/admin/news/page.tsx:173-191 | the body the submit builds is the news body of the form and images |
| News.EditForm | src/components/pages/admin/news/page.tsx:247-261 | the edit form copies the texts with "" defaults and the type |
| News.NewsManagement.FetchNewsData | src/components/pages/admin/news/page.tsx:127-148 | an ok fetch replaces the list; a failure keeps it; loading ends |
| News.NewsManagement.HandleImageUpload | src/components/pages/admin/news/page.tsx:151-159 | appends every new file and one preview each; no selection changes nothing; alignment is kept |
| News.NewsManagement.RemoveImage | src/components/pages/admin/news/page.tsx:161-164 | drops index i from both lists; alignment is kept |
| News.NewsManagement.ResetForm | src/components/pages/admin/news/page.tsx:232-245 | clears the editing item, the form (type "p") and both image lists |
| News.NewsManagement.OpenCreateDialog | src/components/pages/admin/news/page.tsx:292-295 | resets the form and opens the dialog |
| News.NewsManagement.HandleEdit | src/components/pages/admin/news/page.tsx:247-261 | both lists start as the stored image URLs, so they are aligned |
| News.NewsManagement.HandleSubmit | src/components/pages/admin/news/page.tsx:169-230 | PUT (editing) or POST of the body; success replaces the id or appends, resets and refetches; failure changes nothing |
| News.NewsManagement.ApplySaved | src/components/pages/admin/news/page.tsx:193-216 | the saved article replaces the id or is appended, the dialog closes, the form resets and the list is refetched |
| News.NewsManagement.HandleDelete | src/components/pages/admin/news/page.tsx:268-290 | unconfirmed sends nothing; an ok DELETE drops exactly that id |
| Categories.NormalizeImageUrl | src/components/pages/admin/categories/page.tsx:68-72 | empty gives the placeholder, `http` is kept, anything else is host + url + `?t=` + time |
| Categories.NormalizeImageUrlStable | src/components/pages/admin/categories/page.tsx:68-72 | a normalised URL starts with `http` and re-normalising it at any later time changes nothing |
| Categories.GetDisplayName | src/components/pages/admin/categories/page.tsx:242-246 | the first non-empty of name_en, name_uz, name_ru, name, else "Untitled" |
| Categories.ImageParts | src/components/pages/admin/categories/page.tsx:113-128 | an image part only for a file or a `data:` string |
| Categories.CategoryBody | src/components/pages/admin/categories/page.tsx:113-128 | the three names followed by the image parts |
| Categories.EditWithoutNewFileSendsNoImage | src/components/pages/admin/categories/page.tsx:113-128 | an edit that keeps the stored `http` URL sends only the three names |
| Categories.CategoryManagement.FetchCategoryData | src/components/pages/admin/categories/page.tsx:74-95 | an ok fetch replaces the list; a failure keeps it; loading ends |
| Categories.CategoryManagement.HandleImageChange | src/components/pages/admin/categories/page.tsx:97-108 | a chosen file becomes the image with its preview; no file changes nothing |
| Categories.CategoryManagement.HandleSubmit | src/components/pages/admin/categories/page.tsx:110-182 | PUT (editing) or POST; success replaces the id or appends with the image normalised and resets; failure changes nothing |
| Categories.CategoryManagement.ResetForm | src/components/pages/admin/categories/page.tsx:184-193 | clears the editing item, the names, the image and the preview |
| Categories.CategoryManagement.OpenCreateDialog | src/components/pages/admin/categories/page.tsx:236-239 | resets and opens the dialog |
| Categories.CategoryManagement.HandleEdit | src/components/pages/admin/categories/page.tsx:195-205 | the form copies the names with "" defaults and the stored image; the preview is its normalised URL |
| Categories.CategoryManagement.HandleDelete | src/components/pages/admin/categories/page.tsx:207-234 | unconfirmed sends nothing; an ok DELETE drops exactly that id |
| ColorsPage.IsWebpIgnoresCase | src/components/pages/admin/colors/page.tsx:56-58 | the `.webp` check does not depend on letter case |
| ColorsPage.NamesCompleteIffTrimmed | src/components/pages/admin/colors/page.tsx:92-103 | submission is allowed iff all three trimmed names are non-empty |
| ColorsPage.ColorBody | src/components/pages/admin/colors/page.tsx:105-113 | the three names, and the image part only when a file was chosen |
| ColorsPage.GetDisplayName | src/components/pages/admin/colors/page.tsx:184-192 | falls back en, uz, ru, name, "Untitled" |
| ColorsPage.ColorsContent.HandleFileChange | src/components/pages/admin/colors/page.tsx:53-68 | only a `.webp` file is accepted; otherwise form and preview are unchanged |
| ColorsPage.ColorsContent.OpenCreateDialog | src/components/pages/admin/colors/page.tsx:70-75 | clears editing, form and preview and opens the dialog |
| ColorsPage.ColorsContent.OpenEditDialog | src/components/pages/admin/colors/page.tsx:77-90 | copies the names with "" defaults, no image, the stored image as preview |
| ColorsPage.ColorsContent.HandleSubmit | src/components/pages/admin/colors/page.tsx:91-156 | incomplete names send nothing; otherwise PUT `/product/detail-color/{id}/` or POST; only success closes and refetches |
| ColorsPage.ColorsContent.HandleDelete | src/components/pages/admin/colors/page.tsx:158-182 | unconfirmed sends nothing; only an ok DELETE refetches |
| ContactPage.FilterMessages | src/components/pages/admin/contact/page.tsx:154-167 | the effect's two passes give the order-preserving filter of the shown messages |
| ContactPage.ThemeThenSearch | src/components/pages/admin/contact/page.tsx:154-167 | theme "all" with no term keeps everything; otherwise, filtering by theme and then by search equals the one combined filter |
| ContactPage.UniqueThemes | src/components/pages/admin/contact/page.tsx:149-151 | each theme of the data appears exactly once and nothing else |
| ContactPage.GetThemeColor | src/components/pages/admin/contact/page.tsx:134-147 | the class of each of the four known themes on the lower-cased name, gray otherwise |
| ContactPage.ThemeColorIgnoresCase | src/components/pages/admin/contact/page.tsx:134-147 | the theme colour does not depend on letter case |
| ContactPage.ContactManagement.ApplyFilters | src/components/pages/admin/contact/page.tsx:154-167 | the shown list becomes the filter of the data under the current theme and term |
| ContactPage.ContactManagement.FetchContactData | src/components/pages/admin/contact/page.tsx:65-87 | an ok fetch replaces the data and the shown list agrees with it; a failure keeps it |
| ContactPage.ContactManagement.SetSearchTerm | src/components/pages/admin/contact/page.tsx:154-167 | a new term re-filters the shown list |
| ContactPage.ContactManagement.SetFilterTheme | src/components/pages/admin/contact/page.tsx:154-167 | a new theme re-filters the shown list |
| ContactPage.ContactManagement.HandleViewMessage | src/components/pages/admin/contact/page.tsx:89-92 | selects the message and opens the dialog |
| ContactPage.ContactManagement.HandleDelete | src/components/pages/admin/contact/page.tsx:94-122 | unconfirmed sends nothing; an ok DELETE drops the id from both lists; a failure changes neither |
| UsersPage.Shown | src/components/pages/admin/users/page.tsx:635-644 | an empty term keeps every user; otherwise exactly the users whose name or e-mail contains it, ignoring case |
| UsersPage.ShownAppend | src/components/pages/admin/users/page.tsx:635-644 | the search distributes over concatenation, so it preserves order |
| UsersPage.EmptyTermMatchesAll | src/components/pages/admin/users/page.tsx:635-637 | with an empty term the search predicate keeps every user |
| UsersPage.UserManagement.ApplySearch | src/components/pages/admin/users/page.tsx:635-644 | the shown list becomes the search of the data |
| UsersPage.UserManagement.FetchUserData | src/components/pages/admin/users/page.tsx:577-597 | an ok fetch replaces the data and the shown list agrees; a failure keeps it |
| UsersPage.UserManagement.SetSearchTerm | src/components/pages/admin/users/page.tsx:635-644 | a new term re-filters the shown list |
| UsersPage.UserManagement.HandleViewUser | src/components/pages/admin/users/page.tsx:599-602 | selects the user and opens the dialog |
| UsersPage.UserManagement.HandleDelete | src/components/pages/admin/users/page.tsx:604-633 | unconfirmed sends nothing; an ok DELETE drops the id from both lists; a failure changes neither |
| Orders.SetStatus | src/components/pages/admin/orders/page.tsx:83-85 | only the orders with that id take the new status; everything else is kept |
| Orders.SetStatusTwice | src/components/pages/admin/orders/page.tsx:83-85 | setting a status twice equals setting the second one |
| Orders.SetStatusCommutes | src/components/pages/admin/orders/page.tsx:83-85 | status updates of two different orders commute |
| Orders.GetStatusBadgeClass | src/components/pages/admin/orders/page.tsx:112-125 | the class for p, s, d, c, gray for anything else |
| Orders.BadgeIdentifiesStatus | src/components/pages/admin/orders/page.tsx:112-125 | two statuses share a badge exactly when they are the same code or both unknown |
| Orders.ReceiveType | src/components/pages/admin/orders/page.tsx:386-388 | pickup iff `receive` is "p", delivery otherwise |
| Orders.CurrencyName | src/components/pages/admin/orders/page.tsx:146-158 | "uz…" picks name_uz, "ru…" name_ru, anything else name_en |
| Orders.CurrencyNameIsOneOfThree | src/components/pages/admin/orders/page.tsx:146-158 | the name shown is always one of the currency's three names, and no language reads as English |
| Orders.FormatPrice | src/components/pages/admin/orders/page.tsx:134-164 | a selected currency adds its name after the amount; none gives a "$" prefix |
| Orders.FormatPriceKeepsAmount | src/components/pages/admin/orders/page.tsx:134-164 | the amount can be read back from the label: it leads it with a currency, and follows the `$` without one |
| Orders.OrdersPage.FetchOrders | src/components/pages/admin/orders/page.tsx:42-66 | outside a browser nothing is fetched; an ok fetch replaces the orders; loading ends; the modal and its order are kept |
| Orders.OrdersPage.UpdateStatus | src/components/pages/admin/orders/page.tsx:68-95 | one PATCH; on ok only that order changes, and the modal's order follows only when it is that order; failure changes nothing |
| Orders.OrdersPage.OpenOrderModal | src/components/pages/admin/orders/page.tsx:166-169 | selects the order and opens the modal |
| Orders.OrdersPage.CloseOrderModal | src/components/pages/admin/orders/page.tsx:171-174 | closes the modal and clears the selection |
| About.NumberFieldRoundTrip | src/components/pages/admin/about/page.tsx:506-528 | a typed integer is stored as that integer |
| About.NumberFieldDefaultsToZero | src/components/pages/admin/about/page.tsx:506-528 | input with no leading integer is stored as 0 |
| About.AboutManagement.FetchAllData | src/components/pages/admin/about/page.tsx:82-92 | in a browser both lists are fetched and each ok one replaced; loading ends |
| About.AboutManagement.SetHappyClients | src/components/pages/admin/about/page.tsx:506 | the field takes the parsed value or 0 |
| About.AboutManagement.SetProductType | src/components/pages/admin/about/page.tsx:517 | the field takes the parsed value or 0 |
| About.AboutManagement.SetExperience | src/components/pages/admin/about/page.tsx:528 | the field takes the parsed value or 0 |
| About.AboutManagement.HandleAboutSubmit | src/components/pages/admin/about/page.tsx:93-151 | PUT (editing) or POST; success replaces the id or appends and resets to zeros; failure changes nothing; currencies untouched |
| About.AboutManagement.HandleCurrencySubmit | src/components/pages/admin/about/page.tsx:152-206 | PUT `/currency/{id}/` or POST `/currency/`; success replaces or appends and resets the names; failure changes nothing |
| About.AboutManagement.HandleAboutEdit | src/components/pages/admin/about/page.tsx:207-216 | the form copies the three numbers and the dialog opens |
| About.AboutManagement.HandleCurrencyEdit | src/components/pages/admin/about/page.tsx:217-226 | the form copies the three names and the dialog opens |
| About.AboutManagement.HandleAboutDelete | src/components/pages/admin/about/page.tsx:227-252 | unconfirmed sends nothing; an ok DELETE drops exactly that id |
| About.AboutManagement.HandleCurrencyDelete | src/components/pages/admin/about/page.tsx:253-278 | unconfirmed sends nothing; an ok DELETE drops exactly that id |
| About.AboutManagement.OpenAboutCreateDialog | src/components/pages/admin/about/page.tsx:279-284 | zero form, no editing item, dialog open |
| About.AboutManagement.OpenCurrencyCreateDialog | src/components/pages/admin/about/page.tsx:285-290 | empty names, no editing item, dialog open |
| Banners.ImagePart | src/components/pages/admin/banners/BannerClient.tsx:91-104 | a file or a `data:` string gives the image part; any other text gives none |
| Banners.EditWithoutNewFileHasNoImage | src/components/pages/admin/banners/BannerClient.tsx:91-104 | the stored `http` URL that editing keeps yields no image part |
| Banners.BannerClient.FetchBannerData | src/components/pages/admin/banners/BannerClient.tsx:49-70 | an ok fetch replaces the list; a failure keeps it; loading ends |
| Banners.BannerClient.HandleImageChange | src/components/pages/admin/banners/BannerClient.tsx:72-83 | a chosen file becomes the image with its preview; no file changes nothing |
| Banners.BannerClient.HandleSubmit | src/components/pages/admin/banners/BannerClient.tsx:85-162 | no image part fails before any request; otherwise PUT or POST; success replaces or appends and resets; failure changes nothing |
| Banners.BannerClient.HandleEdit | src/components/pages/admin/banners/BannerClient.tsx:164-171 | the stored URL becomes the image text and the preview |
| Banners.BannerClient.OpenCreateDialog | src/components/pages/admin/banners/BannerClient.tsx:202-207 | no image, no preview, no editing item, dialog open |
| Banners.BannerClient.HandleDelete | src/components/pages/admin/banners/BannerClient.tsx:173-200 | unconfirmed sends nothing; an ok DELETE drops exactly that id |
| Login.InputError | src/components/pages/login/page.tsx:26-37 | no error iff the e-mail has "@" and "." and the password is non-empty; the e-mail check comes first |
| Login.LoginPage.HandleSubmit | src/components/pages/login/page.tsx:21-52 | an input error is shown and login is not called; otherwise one login call; success navigates to "/admin", anything else shows the wrong-credentials error; loading ends on every path |
| Auth.LocalStorage.GetItem | src/lib/auth.ts:59-65 | a stored key gives its value; a missing key gives none |
| Auth.LocalStorage.SetItem | src/lib/auth.ts:45-49 | the key is bound to the value |
| Auth.LocalStorage.RemoveItem | src/lib/auth.ts:54-57 | the key is gone |
| Auth.LangOrDefault | src/lib/auth.ts:73 | the stored non-empty `lang`, else "ru" |
| Auth.RequestHeaders | src/lib/auth.ts:77-82 | caller headers win; JSON content type iff not form data; `Authorization: Bearer <token>` iff a token is stored; `Accept-Language`; no other key |
| Auth.SignedInDefaults | src/lib/auth.ts:77-82 | signed in with no caller headers: exactly the three headers, and the bearer credential is the stored token |
| Auth.RequestUrl | src/lib/auth.ts:84 | the base URL followed by the endpoint |
| Auth.AuthenticatedCall | src/lib/auth.ts:72-88 | the call uses the base URL, the merged headers and the given verb and body |
| Auth.AuthService.GetAccessToken | src/lib/auth.ts:59-61 | the stored access token |
| Auth.AuthService.GetRefreshToken | src/lib/auth.ts:63-65 | the stored refresh token |
| Auth.AuthService.IsAuthenticated | src/lib/auth.ts:67-69 | true iff a non-empty access token is stored |
| Auth.AuthService.Login | src/lib/auth.ts:30-52 | one JSON POST to the login path; non-ok throws "Login failed" and stores nothing; success stores both tokens; an unsuccessful body stores nothing |
| Auth.AuthService.Logout | src/lib/auth.ts:54-57 | both tokens are removed, so the service is no longer authenticated |
| Auth.AuthService.MakeAuthenticatedRequest | src/lib/auth.ts:72-88 | the call carries a bearer header exactly when the service is authenticated, unless the caller supplies one |
| Auth.SuccessfulLoginAuthenticates | src/lib/auth.ts:45-49 | storing a non-empty access token makes the storage authenticated |
| Auth.AuthServiceHolder.GetInstance | src/lib/auth.ts:23-28 | the first call creates the instance; every later call returns it |
| Auth.GetInstanceTwice | src/lib/auth.ts:23-28 | two calls return the same instance |
| AuthContext.AuthProvider.constructor | src/contexts/auth-context.tsx:17-18 | starts unauthenticated and loading |
| AuthContext.AuthProvider.CheckAuth | src/contexts/auth-context.tsx:20-28 | the flag is taken from the service and loading ends |
| AuthContext.AuthProvider.Login | src/contexts/auth-context.tsx:30-46 | returns true iff the response is ok and successful; only then is the flag set and are tokens stored; loading ends |
| AuthContext.AuthProvider.Logout | src/contexts/auth-context.tsx:48-51 | clears both tokens and the flag |
| Api.Encoded | src/lib/api.ts:17-20 | a plain object becomes JSON text; form data, text and no body are kept; the result is never a plain object |
| Api.ApiHeaders | src/lib/api.ts:9-27 | caller headers win; `Accept-Language`; JSON content type iff the body is a plain object; no other key |
| Api.ApiFetch | src/lib/api.ts:5-29 | the body is encoded in place in the options and the call uses the base URL and the headers of the original body |
| Api.ApiFetchTwice | src/lib/api.ts:17-20 | reusing the same options sends the same JSON text the second time, but without the content type |

## Left out

- Rendering, dialogs, toasts, icons, translations (`t(...)`), theming and the dashboard page are not modelled; only state and requests are.
- The network is not modelled. Every response is an input, and there are no timeouts or concurrent handlers. Each handler runs to completion.
- Request headers are not part of the `Http.Client` log. They are modelled separately in `Auth.RequestHeaders`, `Auth.AuthService.MakeAuthenticatedRequest` and `Api.ApiHeaders`.
- Header names are compared case-sensitively; the browser's `Headers` object does not.
- `JSON.stringify` is not modelled character by character. `Api.Encoded` marks an object body as `JsonText(fields)`.
- `Date.now()`, `confirm(...)`, the `new URL(...)` parser, `URL.createObjectURL` and `FileReader` previews are parameters.
- The FormData `instanceof` test is a constructor of the body type.
- `toLowerCase` covers ASCII letters only; Unicode case mapping is not modelled.
- `parseInt` is modelled for optional whitespace, an optional sign and decimal digits. A `0x` prefix and JavaScript number precision are not modelled.
- The data-URL to Blob conversion in the categories and banners pages is the value `BlobOf(url)`. The fetch it performs is not modelled.
- `Banners.BannerClient.HandleSubmit`: the code fetches a `data:` URL through `apiFetch`, whose base-URL prefix would break that fetch; the model only records that a blob is produced.
- `formatPrice` numerics (`parseFloat`, `toFixed`) and order item totals are not modelled: `Orders.FormatPrice` takes the amount as already formatted text.
- `getStatusIcon` and `getStatusText` (icons and translated labels) are not modelled.
- The categories list used for slug lookup is an input list; `CategoriesContext` is not part of this model.
- `Promise.all` in the about page is modelled as the two fetches in sequence.
- `ContactPage.UniqueThemes`: states that each theme appears exactly once, but not that the themes come in first-occurrence order.
- `ProductsPage.SortByIdDesc`: states sortedness and permutation, but not the stability of JavaScript's `sort` for equal ids.
- `OurContact.OurContactManagement.UpdatePhoneNumber` and `OurContact.OurContactManagement.UpdateEmail` require an in-range index. The rendered inputs only ever pass one; out of range, JavaScript would grow the array with holes.
- `ImageUploader.UploadSequentially`, `ImageUploader.ImageUploader.HandleImageChange` and the products upload methods take one response per file. A missing response is not part of the model.
- `handleAddColor`, `handleRemoveColor` and `openFeatureDialog` on the products page are not modelled, along with the 1×1 canvas placeholder they create. They drive the colour and feature dialogs, which are modelled through `ColorSelector`, `ProductColorsContext` and `FeatureSelector`.
- The login page's `catch` branch is not modelled because it is unreachable: `AuthContext.AuthProvider.Login` catches every error and returns false.
- The commented-out block at the top of the users page is dead code and is not modelled.

Places where the code differs from what a reader of the screens might expect; the model follows the code:

- After a successful submit, the products page closes the dialog but does not reset the form.
- The social-media submit check never rejects. `validateUrl` returns an object, and `!object` is always false. `SocialMedia.SocialMediaManagement.HandleSubmit` runs the loop as written (`SocialMedia.SubmitRejects`), and `SocialMedia.SubmitNeverRejects` proves it never stops. `SocialMedia.IntendedRejects` is the check on `isValid` the code evidently means, and `SocialMedia.InvalidLinkGetsThrough` shows what the difference lets through.
- Editing a banner without picking a new file always fails before any request. The stored URL is neither a file nor a `data:` string (`Banners.EditWithoutNewFileHasNoImage`).

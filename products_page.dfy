/** The products screen: the product list (newest first), the category filter, the
    create/edit dialog with its scalar payload and pending image uploads, and delete. */
module ProductsPage {
  import opened Common
  import opened Http
  import opened ColorSelector
  import opened FeatureSelector
  import opened ProductColorsContext
  import opened ImageUploader

  datatype Category = Category(id: nat, name: string, slug: string, nameEn: Option<string>)

  /** A colour variant as a fetched product carries it. */
  datatype ColorObj = ColorObj(colorId: nat, image: string, price: string)

  datatype Product = Product(
    id: nat, title: string,
    titleRu: Option<string>, titleUz: Option<string>, titleEn: Option<string>,
    descriptionRu: Option<string>, descriptionUz: Option<string>, descriptionEn: Option<string>,
    description: string, price: Option<string>, oldPrice: Option<string>,
    images: Option<seq<Option<string>>>, category: string,
    colors: Option<seq<ColorObj>>, features: Option<seq<ProductFeature>>)

  datatype ProductForm = ProductForm(
    id: nat, titleUz: string, titleEn: string, titleRu: string,
    descriptionUz: string, descriptionEn: string, descriptionRu: string,
    price: string, oldPrice: string, category: int,
    images: seq<File>, colors: seq<ProductColorData>, features: seq<ProductFeature>)

  /** The empty form of the create dialog. */
  function BlankForm(): ProductForm {
    ProductForm(0, "", "", "", "", "", "", "", "", 0, [], [], [])
  }

  /** The URL an image is shown from: a placeholder for a missing one, an absolute URL as is,
      and a server-relative path on the media host. */
  function NormalizeImageUrl(url: Option<string>): (r: string)
    ensures !Truthy(url) ==> r == Placeholder
    ensures Truthy(url) && StartsWith(url.value, "http") ==> r == url.value
    ensures Truthy(url) && !StartsWith(url.value, "http") ==> r == MediaHost + url.value
  {
    if !Truthy(url) then Placeholder
    else if StartsWith(url.value, "http") then url.value
    else MediaHost + url.value
  }

  /** A present image always resolves to an absolute `http…` URL, and resolving that URL again
      changes nothing. */
  lemma NormalizeImageUrlIdempotent(url: Option<string>)
    requires Truthy(url)
    ensures StartsWith(NormalizeImageUrl(url), "http")
    ensures NormalizeImageUrl(Some(NormalizeImageUrl(url))) == NormalizeImageUrl(url)
  {
    if !StartsWith(url.value, "http") {
      MediaUrlIsHttp(url.value);
    }
  }

  /** The JSON body of the product write: the six texts and the price as typed, an empty
      old price as `null`, category 0 as `null`. Images, colours and features are not sent. */
  function BuildPayload(form: ProductForm): (b: Body)
    ensures b.Json? && |b.fields| == 9
    ensures forall i :: 0 <= i < 7 ==> b.fields[i].value.Str?
    ensures b.fields[0] == Field("title_uz", Str(form.titleUz)) && b.fields[6] == Field("price", Str(form.price))
    ensures b.fields[7].name == "old_price"
            && b.fields[7].value == (if form.oldPrice == "" then Null else Str(form.oldPrice))
    ensures b.fields[8].name == "category"
            && b.fields[8].value == (if form.category == 0 then Null else Num(form.category))
  {
    Json([Field("title_uz", Str(form.titleUz)), Field("title_en", Str(form.titleEn)),
          Field("title_ru", Str(form.titleRu)), Field("description_uz", Str(form.descriptionUz)),
          Field("description_en", Str(form.descriptionEn)), Field("description_ru", Str(form.descriptionRu)),
          Field("price", Str(form.price)),
          Field("old_price", if form.oldPrice == "" then Null else Str(form.oldPrice)),
          Field("category", if form.category == 0 then Null else Num(form.category))])
  }

  const ProductPrefix := "/product/"
  const CreateProductPath := "/product/create/"
  const AllProductsPath := "/product/all/"

  /** Editing writes with PUT to the product's own path; creating POSTs to the create path. */
  function WriteRequest(editingItem: Option<Product>, form: ProductForm): (r: Request)
    ensures editingItem.Some? ==> r.verb == PUT && r.path == ItemPath(ProductPrefix, editingItem.value.id)
    ensures editingItem.None? ==> r.verb == POST && r.path == CreateProductPath
    ensures r.body == BuildPayload(form)
  {
    if editingItem.Some? then Request(PUT, ItemPath(ProductPrefix, editingItem.value.id), BuildPayload(form))
    else Request(POST, CreateProductPath, BuildPayload(form))
  }

  /** An edit never reaches the create endpoint: after the shared `/product/` prefix an item
      path continues with a digit, the create path with `c`. */
  lemma EditNeverPostsToCreate(id: nat)
    ensures ItemPath(ProductPrefix, id) != CreateProductPath
  {
    var p := ItemPath(ProductPrefix, id);
    assert p[9] == NatToString(id)[0];
    assert CreateProductPath[9] == 'c';
  }

  /** `editingItem?.id || createdProduct.id`, with 0 for "no id". */
  function ResolvedId(editingItem: Option<Product>, created: Option<nat>): (id: nat)
    ensures editingItem.Some? && editingItem.value.id != 0 ==> id == editingItem.value.id
    ensures (editingItem.None? || editingItem.value.id == 0) ==> id == (if created.Some? then created.value else 0)
  {
    if editingItem.Some? && editingItem.value.id != 0 then editingItem.value.id
    else if created.Some? then created.value
    else 0
  }

  // ---------------------------------------------------------------------------
  // Sorting: newest (largest id) first
  // ---------------------------------------------------------------------------

  predicate SortedByIdDesc(xs: seq<Product>) {
    forall i, j :: 0 <= i < j < |xs| ==> xs[i].id >= xs[j].id
  }

  /** A product put ahead of a sorted list no newer than itself keeps the list sorted. */
  lemma {:induction false} ConsSorted(h: Product, rest: seq<Product>)
    requires SortedByIdDesc(rest)
    requires rest == [] || rest[0].id <= h.id
    ensures SortedByIdDesc([h] + rest)
  {
    var r := [h] + rest;
    forall i, j | 0 <= i < j < |r|
      ensures r[i].id >= r[j].id
    {
      assert r[j] == rest[j - 1];
      if i > 0 {
        assert r[i] == rest[i - 1];
      }
    }
  }

  /** Insert `p` into a list sorted newest first, ahead of the first entry whose id is not larger. */
  function InsertByIdDesc(p: Product, xs: seq<Product>): (r: seq<Product>)
    requires SortedByIdDesc(xs)
    ensures SortedByIdDesc(r)
    ensures multiset(r) == multiset(xs) + multiset{p}
    ensures |r| == |xs| + 1
    ensures r[0] == p || (xs != [] && r[0] == xs[0])
    decreases |xs|
  {
    if xs == [] || xs[0].id <= p.id then
      ConsSorted(p, xs);
      [p] + xs
    else
      var rest := InsertByIdDesc(p, xs[1..]);
      ConsSorted(xs[0], rest);
      assert xs == [xs[0]] + xs[1..];
      [xs[0]] + rest
  }

  /** `[...data].sort((a, b) => b.id - a.id)`: the same products, newest first. */
  function SortByIdDesc(xs: seq<Product>): (r: seq<Product>)
    ensures SortedByIdDesc(r)
    ensures multiset(r) == multiset(xs)
    ensures |r| == |xs|
    decreases |xs|
  {
    if xs == [] then []
    else
      assert xs == [xs[0]] + xs[1..];
      InsertByIdDesc(xs[0], SortByIdDesc(xs[1..]))
  }

  // ---------------------------------------------------------------------------
  // Lookups and filters
  // ---------------------------------------------------------------------------

  function SlugIs(slug: string): Category -> bool {
    (c: Category) => c.slug == slug
  }

  /** The id of the first category with this slug, or 0 when there is none. */
  function CategoryIdForSlug(categories: seq<Category>, slug: string): (id: nat)
    ensures (forall c :: c in categories ==> c.slug != slug) ==> id == 0
    ensures forall i :: (0 <= i < |categories| && categories[i].slug == slug
                         && (forall j :: 0 <= j < i ==> categories[j].slug != slug))
                        ==> id == categories[i].id
  {
    var k := FindIndex(categories, SlugIs(slug));
    if k < |categories| then categories[k].id else 0
  }

  /** The category filter's test: the product's slug resolves to a category with this id. */
  predicate InCategory(categories: seq<Category>, filterCategory: nat, p: Product) {
    var c := Find(categories, SlugIs(p.category));
    c.Some? && c.value.id == filterCategory
  }

  function InCategoryTest(categories: seq<Category>, filterCategory: nat): Product -> bool {
    (p: Product) => InCategory(categories, filterCategory, p)
  }

  /** The rows the table shows: all products when no category is chosen, otherwise exactly
      those whose slug resolves to the chosen category, in list order. */
  function FilteredProducts(products: seq<Product>, categories: seq<Category>, filterCategory: Option<nat>): (r: seq<Product>)
    ensures filterCategory.None? || filterCategory.value == 0 ==> r == products
    ensures filterCategory.Some? && filterCategory.value != 0 ==>
              (forall k :: 0 <= k < |r| ==> r[k] in products && InCategory(categories, filterCategory.value, r[k]))
              && (forall i :: 0 <= i < |products| && InCategory(categories, filterCategory.value, products[i])
                    ==> products[i] in r)
  {
    if filterCategory.Some? && filterCategory.value != 0
    then Filter(products, InCategoryTest(categories, filterCategory.value))
    else products
  }

  function RowOf(productId: nat): ProductColor -> bool {
    (row: ProductColor) => row.product == productId
  }

  /** The product-colour rows of one product, in response order. */
  function ProductColorRowsFor(rows: seq<ProductColor>, productId: nat): (r: seq<ProductColor>)
    ensures forall k :: 0 <= k < |r| ==> r[k] in rows && r[k].product == productId
    ensures forall i :: 0 <= i < |rows| && rows[i].product == productId ==> rows[i] in r
  {
    Filter(rows, RowOf(productId))
  }

  /** Response order is kept: the rows of two concatenated responses are the rows of each, in turn. */
  lemma ProductColorRowsAppend(a: seq<ProductColor>, b: seq<ProductColor>, productId: nat)
    ensures ProductColorRowsFor(a + b, productId) == ProductColorRowsFor(a, productId) + ProductColorRowsFor(b, productId)
  {
    FilterAppend(a, b, RowOf(productId));
  }

  function NotProduct(id: nat): Product -> bool {
    (p: Product) => p.id != id
  }

  /** The draft entry of a fetched colour variant: its stored image is a URL. */
  function ColorEntry(c: ColorObj): ProductColorData {
    ProductColorData(c.colorId, ImageUrl(c.image), c.price)
  }

  /** The form the edit dialog opens with: every text defaults to "", the category is looked
      up by slug, no new files, the product's colours and features. */
  function EditForm(item: Product, categories: seq<Category>): (f: ProductForm)
    ensures f.id == item.id && f.category == CategoryIdForSlug(categories, item.category)
    ensures f.titleUz == OrEmpty(item.titleUz) && f.price == OrEmpty(item.price) && f.oldPrice == OrEmpty(item.oldPrice)
    ensures f.images == []
  {
    ProductForm(item.id, OrEmpty(item.titleUz), OrEmpty(item.titleEn), OrEmpty(item.titleRu),
                OrEmpty(item.descriptionUz), OrEmpty(item.descriptionEn), OrEmpty(item.descriptionRu),
                OrEmpty(item.price), OrEmpty(item.oldPrice), CategoryIdForSlug(categories, item.category),
                [],
                if item.colors.Some? then Map(item.colors.value, ColorEntry) else [],
                if item.features.Some? then item.features.value else [])
  }

  /** Saving an edit without touching the form sends the stored fields back: each text as
      stored (a missing one as ""), the old price as `null` exactly when none is stored, and
      the category as `null` exactly when the product's slug names no category with an id. */
  lemma EditedPayloadKeepsStoredFields(item: Product, categories: seq<Category>)
    ensures var b := BuildPayload(EditForm(item, categories));
      b.fields[0] == Field("title_uz", Str(OrEmpty(item.titleUz)))
      && b.fields[6] == Field("price", Str(OrEmpty(item.price)))
      && (b.fields[7].value == Null <==> !Truthy(item.oldPrice))
      && (Truthy(item.oldPrice) ==> b.fields[7].value == Str(item.oldPrice.value))
      && (b.fields[8].value == Null <==> CategoryIdForSlug(categories, item.category) == 0)
  {
    var f := EditForm(item, categories);
    assert f.oldPrice == "" <==> !Truthy(item.oldPrice);
  }

  /** The previews the edit dialog shows: one normalised URL per stored image. */
  function EditPreviews(item: Product): (r: seq<string>)
    ensures item.images.None? ==> r == []
    ensures item.images.Some? ==>
              |r| == |item.images.value|
              && forall i :: 0 <= i < |r| ==> r[i] == NormalizeImageUrl(item.images.value[i])
  {
    if item.images.Some? then Map(item.images.value, NormalizeImageUrl) else []
  }

  const ProductColorsDetailPath := "/product/detail-product-colors/"

  class ProductManagement {
    var isDialogOpen: bool
    var editingItem: Option<Product>
    var selectedProductId: Option<nat>
    var uploadMode: UploadMode
    var productColors: seq<ProductColor>
    var isSubmitting: bool
    var formData: ProductForm
    var imagePreviews: seq<string>
    var productData: seq<Product>
    var isLoading: bool
    var filterCategory: Option<nat>
    /** The files picked in the dialog's image uploader and not yet uploaded. */
    var uploadImages: seq<File>
    const client: Client

    constructor (client: Client)
      ensures this.client == client
      ensures !isDialogOpen && editingItem == None && selectedProductId == None && uploadMode == Delayed
      ensures productColors == [] && !isSubmitting && formData == BlankForm() && imagePreviews == []
      ensures productData == [] && isLoading && filterCategory == None && uploadImages == []
    {
      this.client := client;
      isDialogOpen := false;
      editingItem := None;
      selectedProductId := None;
      uploadMode := Delayed;
      productColors := [];
      isSubmitting := false;
      formData := BlankForm();
      imagePreviews := [];
      productData := [];
      isLoading := true;
      filterCategory := None;
      uploadImages := [];
    }

    /** GET every product; an ok response replaces the list, newest first. */
    method FetchProductData(reply: Reply<seq<Product>>)
      modifies this, client
      ensures productData == (if reply.Ok? then SortByIdDesc(reply.body) else old(productData))
      ensures !isLoading
      ensures isDialogOpen == old(isDialogOpen) && editingItem == old(editingItem) && isSubmitting == old(isSubmitting)
      ensures formData == old(formData) && imagePreviews == old(imagePreviews) && uploadImages == old(uploadImages)
      ensures uploadMode == old(uploadMode)
      ensures client.sent == old(client.sent) + [Request(GET, AllProductsPath, NoBody)]
    {
      isLoading := true;
      client.Send(Request(GET, AllProductsPath, NoBody));
      if reply.Ok? {
        productData := SortByIdDesc(reply.body);
      }
      isLoading := false;
    }

    /** GET the product-colour rows of one product. A non-ok response is retried on the detail
        path; a thrown error or a second failure leaves the rows unchanged. */
    method FetchProductColors(productId: nat, reply: Reply<seq<ProductColor>>, altReply: Reply<seq<ProductColor>>)
      modifies this, client
      ensures reply.Ok? ==> productColors == ProductColorRowsFor(reply.body, productId)
                            && client.sent == old(client.sent) + [Request(GET, ProductColorsPath, NoBody)]
      ensures reply.NotOk? ==>
                client.sent == old(client.sent) + [Request(GET, ProductColorsPath, NoBody),
                                                   Request(GET, ProductColorsDetailPath, NoBody)]
                && productColors == (if altReply.Ok? then ProductColorRowsFor(altReply.body, productId)
                                     else old(productColors))
      ensures reply.Thrown? ==> productColors == old(productColors)
                                && client.sent == old(client.sent) + [Request(GET, ProductColorsPath, NoBody)]
      ensures productData == old(productData) && formData == old(formData) && editingItem == old(editingItem)
      ensures selectedProductId == old(selectedProductId)
    {
      client.Send(Request(GET, ProductColorsPath, NoBody));
      if reply.NotOk? {
        client.Send(Request(GET, ProductColorsDetailPath, NoBody));
        if altReply.Ok? {
          productColors := ProductColorRowsFor(altReply.body, productId);
        }
        return;
      }
      if reply.Ok? {
        productColors := ProductColorRowsFor(reply.body, productId);
      }
    }

    /** The effect on the selected product id: fetch its colour rows when an id is selected. */
    method SelectedProductIdChanged(id: Option<nat>, reply: Reply<seq<ProductColor>>, altReply: Reply<seq<ProductColor>>)
      modifies this, client
      ensures selectedProductId == id
      ensures !(id.Some? && id.value != 0) ==> productColors == old(productColors) && client.sent == old(client.sent)
      ensures id.Some? && id.value != 0 && reply.Ok? ==> productColors == ProductColorRowsFor(reply.body, id.value)
    {
      selectedProductId := id;
      if id.Some? && id.value != 0 {
        FetchProductColors(id.value, reply, altReply);
      }
    }

    method OpenCreateDialog()
      modifies this
      ensures editingItem == None && formData == BlankForm() && imagePreviews == [] && !isSubmitting && isDialogOpen
      ensures productData == old(productData) && uploadImages == old(uploadImages) && uploadMode == old(uploadMode)
    {
      editingItem := None;
      formData := BlankForm();
      imagePreviews := [];
      isSubmitting := false;
      isDialogOpen := true;
    }

    /** Open the edit dialog on `item`; `categories` is the category list in force. */
    method HandleEdit(item: Product, categories: seq<Category>)
      modifies this
      ensures editingItem == Some(item)
      ensures formData == EditForm(item, categories) && imagePreviews == EditPreviews(item)
      ensures !isSubmitting && isDialogOpen
      ensures productData == old(productData) && uploadImages == old(uploadImages) && uploadMode == old(uploadMode)
    {
      editingItem := Some(item);
      formData := EditForm(item, categories);
      imagePreviews := EditPreviews(item);
      isSubmitting := false;
      isDialogOpen := true;
    }

    /** Delete after confirmation; only an ok response drops the rows with that id. */
    method HandleDelete(id: nat, confirmed: bool, reply: Reply<()>)
      modifies this, client
      ensures !confirmed ==> client.sent == old(client.sent) && productData == old(productData)
      ensures confirmed ==> client.sent == old(client.sent) + [Request(DELETE, ItemPath(ProductPrefix, id), NoBody)]
      ensures confirmed && reply.Ok? ==> productData == Filter(old(productData), NotProduct(id))
      ensures !reply.Ok? ==> productData == old(productData)
      ensures formData == old(formData) && editingItem == old(editingItem) && isDialogOpen == old(isDialogOpen)
    {
      if !confirmed {
        return;
      }
      client.Send(Request(DELETE, ItemPath(ProductPrefix, id), NoBody));
      if reply.Ok? {
        productData := Filter(productData, NotProduct(id));
      }
    }

    /** Upload the pending files one by one against `productId`; the pending list is cleared
        only when every upload succeeded. */
    method UploadImagesToProduct(productId: nat, oks: seq<bool>)
      requires |oks| == |uploadImages|
      modifies this, client
      ensures client.sent == old(client.sent) + UploadRequests(old(uploadImages)[..SentCount(oks)], productId)
      ensures uploadImages == (if forall i :: 0 <= i < |oks| ==> oks[i] then [] else old(uploadImages))
      ensures productData == old(productData) && isDialogOpen == old(isDialogOpen) && isSubmitting == old(isSubmitting)
      ensures formData == old(formData) && editingItem == old(editingItem) && uploadMode == old(uploadMode)
    {
      var allOk := UploadSequentially(client, uploadImages, productId, oks);
      if allOk {
        uploadImages := [];
      }
    }

    /** What a submit that got past the in-flight guard leaves behind. */
    ghost predicate Submitted(sent0: seq<Request>, editing0: Option<Product>, form0: ProductForm,
                              pending0: seq<File>, products0: seq<Product>, dialog0: bool, mode0: UploadMode,
                              writeReply: Reply<Option<nat>>, uploadOks: seq<bool>, refetch: Reply<seq<Product>>)
      requires |uploadOks| == |pending0|
      reads this, client
    {
      var write := WriteRequest(editing0, form0);
      var pid := if writeReply.Ok? then ResolvedId(editing0, writeReply.body) else 0;
      !isSubmitting && formData == form0 && editingItem == editing0
      && (if pid == 0 then
            client.sent == sent0 + [write] && productData == products0 && uploadImages == pending0
            && isDialogOpen == dialog0 && uploadMode == mode0
          else
            var sentFiles := if |pending0| > 0 then pending0[..SentCount(uploadOks)] else [];
            client.sent == sent0 + [write] + UploadRequests(sentFiles, pid) + [Request(GET, AllProductsPath, NoBody)]
            && uploadImages == (if forall i :: 0 <= i < |uploadOks| ==> uploadOks[i] then [] else pending0)
            && uploadMode == (if |pending0| > 0 then Immediate else mode0)
            && productData == (if refetch.Ok? then SortByIdDesc(refetch.body) else products0)
            && !isDialogOpen)
    }

    /** Submit the dialog. A submit while one is in flight does nothing. Otherwise the payload is
        written; a failed write or a missing product id stops there. Then the pending files are
        uploaded, the list is reloaded and the dialog is closed; the form itself is kept.
        `writeReply` carries the id in the response body, if any. */
    method HandleSubmit(writeReply: Reply<Option<nat>>, uploadOks: seq<bool>, refetch: Reply<seq<Product>>)
      requires |uploadOks| == |uploadImages|
      modifies this, client
      ensures old(isSubmitting) ==>
                client.sent == old(client.sent) && productData == old(productData) && isSubmitting
                && uploadImages == old(uploadImages) && isDialogOpen == old(isDialogOpen) && formData == old(formData)
      ensures !old(isSubmitting) ==>
                Submitted(old(client.sent), old(editingItem), old(formData), old(uploadImages), old(productData),
                          old(isDialogOpen), old(uploadMode), writeReply, uploadOks, refetch)
    {
      if isSubmitting {
        return;
      }
      isSubmitting := true;
      SubmitUnguarded(writeReply, uploadOks, refetch);
      isSubmitting := false;
    }

    method SubmitUnguarded(writeReply: Reply<Option<nat>>, uploadOks: seq<bool>, refetch: Reply<seq<Product>>)
      requires |uploadOks| == |uploadImages|
      modifies this, client
      ensures var write := WriteRequest(old(editingItem), old(formData));
        var pid := if writeReply.Ok? then ResolvedId(old(editingItem), writeReply.body) else 0;
        formData == old(formData) && editingItem == old(editingItem)
        && (if pid == 0 then
              client.sent == old(client.sent) + [write] && productData == old(productData)
              && uploadImages == old(uploadImages) && isDialogOpen == old(isDialogOpen) && uploadMode == old(uploadMode)
            else
              var sentFiles := if |old(uploadImages)| > 0 then old(uploadImages)[..SentCount(uploadOks)] else [];
              client.sent == old(client.sent) + [write] + UploadRequests(sentFiles, pid) + [Request(GET, AllProductsPath, NoBody)]
              && uploadImages == (if forall i :: 0 <= i < |uploadOks| ==> uploadOks[i] then [] else old(uploadImages))
              && uploadMode == (if |old(uploadImages)| > 0 then Immediate else old(uploadMode))
              && productData == (if refetch.Ok? then SortByIdDesc(refetch.body) else old(productData))
              && !isDialogOpen)
    {
      client.Send(WriteRequest(editingItem, formData));
      if !writeReply.Ok? {
        return;
      }
      var productId := ResolvedId(editingItem, writeReply.body);
      if productId == 0 {
        return;
      }
      UploadAndReload(productId, uploadOks, refetch);
    }

    /** The part of a submit after the write gave a product id: upload, reload, close. */
    method UploadAndReload(productId: nat, uploadOks: seq<bool>, refetch: Reply<seq<Product>>)
      requires |uploadOks| == |uploadImages|
      modifies this, client
      ensures var sentFiles := if |old(uploadImages)| > 0 then old(uploadImages)[..SentCount(uploadOks)] else [];
        client.sent == old(client.sent) + UploadRequests(sentFiles, productId) + [Request(GET, AllProductsPath, NoBody)]
        && uploadImages == (if forall i :: 0 <= i < |uploadOks| ==> uploadOks[i] then [] else old(uploadImages))
        && uploadMode == (if |old(uploadImages)| > 0 then Immediate else old(uploadMode))
        && productData == (if refetch.Ok? then SortByIdDesc(refetch.body) else old(productData))
        && !isDialogOpen && formData == old(formData) && editingItem == old(editingItem)
    {
      if |uploadImages| > 0 {
        uploadMode := Immediate;
        UploadImagesToProduct(productId, uploadOks);
      }
      FetchProductData(refetch);
      isDialogOpen := false;
    }
  }
}

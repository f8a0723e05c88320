/** The categories screen: categories with localized names and one image each. */
module Categories {
  import opened Common
  import opened Http

  datatype Category = Category(
    id: nat, name: Option<string>, nameUz: Option<string>, nameEn: Option<string>, nameRu: Option<string>,
    slug: string, image: string)

  /** The form's image: a picked file, or text (the stored URL, or a `data:` URL). */
  datatype CategoryImage = ImageFile(file: File) | ImageText(text: string)

  datatype CategoryForm = CategoryForm(nameUz: string, nameEn: string, nameRu: string, image: CategoryImage)

  function EmptyForm(): CategoryForm {
    CategoryForm("", "", "", ImageText(""))
  }

  /** The URL an image is shown from. A server-relative path gets the media host and a
      cache-busting `?t=<now>`, where `now` is the clock reading in milliseconds. */
  function NormalizeImageUrl(url: string, now: int): (r: string)
    ensures url == "" ==> r == Placeholder
    ensures url != "" && StartsWith(url, "http") ==> r == url
    ensures url != "" && !StartsWith(url, "http") ==> r == MediaHost + url + "?t=" + IntToString(now)
  {
    if url == "" then Placeholder
    else if StartsWith(url, "http") then url
    else MediaHost + url + "?t=" + IntToString(now)
  }

  /** A stored image always resolves to an absolute `http…` URL, and a resolved URL is stable:
      resolving it again at any later time changes nothing. */
  lemma NormalizeImageUrlStable(url: string, now: int, later: int)
    requires url != ""
    ensures StartsWith(NormalizeImageUrl(url, now), "http")
    ensures NormalizeImageUrl(NormalizeImageUrl(url, now), later) == NormalizeImageUrl(url, now)
  {
    if !StartsWith(url, "http") {
      MediaUrlIsHttp(url);
      StartsWithAppend(MediaHost + url, "?t=", "http");
      StartsWithAppend(MediaHost + url + "?t=", IntToString(now), "http");
    }
  }

  /** The first non-empty of the English, Uzbek and Russian names and the plain name, else "Untitled". */
  function GetDisplayName(item: Category): (r: string)
    ensures r != ""
    ensures Truthy(item.nameEn) ==> r == item.nameEn.value
    ensures !Truthy(item.nameEn) && Truthy(item.nameUz) ==> r == item.nameUz.value
    ensures !Truthy(item.nameEn) && !Truthy(item.nameUz) && Truthy(item.nameRu) ==> r == item.nameRu.value
    ensures !Truthy(item.nameEn) && !Truthy(item.nameUz) && !Truthy(item.nameRu) && Truthy(item.name)
            ==> r == item.name.value
    ensures !Truthy(item.nameEn) && !Truthy(item.nameUz) && !Truthy(item.nameRu) && !Truthy(item.name)
            ==> r == "Untitled"
  {
    Or(item.nameEn, Or(item.nameUz, Or(item.nameRu, Or(item.name, "Untitled"))))
  }

  /** The image part: the file, the blob of a `data:` URL, or none at all for any other text. */
  function ImageParts(image: CategoryImage): (ps: seq<Field>)
    ensures image.ImageFile? ==> ps == [Field("image", FileV(image.file))]
    ensures image.ImageText? && StartsWith(image.text, "data:") ==> ps == [Field("image", BlobOf(image.text))]
    ensures image.ImageText? && !StartsWith(image.text, "data:") ==> ps == []
  {
    if image.ImageFile? then [Field("image", FileV(image.file))]
    else if StartsWith(image.text, "data:") then [Field("image", BlobOf(image.text))]
    else []
  }

  function CategoryBody(f: CategoryForm): (b: Body)
    ensures b.Multipart? && |b.parts| >= 3
    ensures b.parts[..3] == [Field("name_uz", Str(f.nameUz)), Field("name_en", Str(f.nameEn)), Field("name_ru", Str(f.nameRu))]
    ensures b.parts[3..] == ImageParts(f.image)
  {
    Multipart([Field("name_uz", Str(f.nameUz)), Field("name_en", Str(f.nameEn)), Field("name_ru", Str(f.nameRu))]
              + ImageParts(f.image))
  }

  /** An edit opened on a stored http(s) image and submitted without a new file sends the
      names only, so the server keeps the image. */
  lemma EditWithoutNewFileSendsNoImage(f: CategoryForm)
    requires f.image.ImageText? && StartsWith(f.image.text, "http")
    ensures |CategoryBody(f).parts| == 3
  {
    var t := f.image.text;
    assert t[0] == t[..4][0] == 'h';
    assert !StartsWith(t, "data:") by {
      assert "data:"[0] == 'd';
    }
  }

  function WithNormalizedImage(c: Category, now: int): Category {
    c.(image := NormalizeImageUrl(c.image, now))
  }

  const CategoriesPath := "/product/categories/"

  function HasId(id: nat): Category -> bool {
    (c: Category) => c.id == id
  }

  function NotId(id: nat): Category -> bool {
    (c: Category) => c.id != id
  }

  class CategoryManagement {
    var categoryData: seq<Category>
    var isLoading: bool
    var isDialogOpen: bool
    var editingItem: Option<Category>
    var formData: CategoryForm
    var imagePreview: string
    const client: Client

    constructor (client: Client)
      ensures this.client == client && categoryData == [] && isLoading && !isDialogOpen
      ensures editingItem == None && formData == EmptyForm() && imagePreview == ""
    {
      this.client := client;
      categoryData := [];
      isLoading := true;
      isDialogOpen := false;
      editingItem := None;
      formData := EmptyForm();
      imagePreview := "";
    }

    method FetchCategoryData(reply: Reply<seq<Category>>)
      modifies this, client
      ensures categoryData == (if reply.Ok? then reply.body else old(categoryData)) && !isLoading
      ensures isDialogOpen == old(isDialogOpen) && editingItem == old(editingItem) && formData == old(formData)
      ensures client.sent == old(client.sent) + [Request(GET, CategoriesPath, NoBody)]
    {
      isLoading := true;
      client.Send(Request(GET, CategoriesPath, NoBody));
      if reply.Ok? {
        categoryData := reply.body;
      }
      isLoading := false;
    }

    /** A picked file becomes the form's image, and `dataUrl` (the file read as a data URL)
        its preview; no file changes nothing. */
    method HandleImageChange(file: Option<File>, dataUrl: string)
      modifies this
      ensures file.None? ==> formData == old(formData) && imagePreview == old(imagePreview)
      ensures file.Some? ==> formData == old(formData).(image := ImageFile(file.value)) && imagePreview == dataUrl
      ensures categoryData == old(categoryData) && editingItem == old(editingItem)
    {
      if file.Some? {
        imagePreview := dataUrl;
        formData := formData.(image := ImageFile(file.value));
      }
    }

    /** Send the names and the image part: PUT to the category's path when editing, else POST.
        On an ok response the returned category, with its image URL resolved at `now`,
        replaces the edited id or is appended; the dialog closes and the form resets. */
    method HandleSubmit(reply: Reply<Category>, now: int)
      modifies this, client
      ensures client.sent == old(client.sent) + [if old(editingItem).Some?
                                                 then Request(PUT, ItemPath(CategoriesPath, old(editingItem).value.id), CategoryBody(old(formData)))
                                                 else Request(POST, CategoriesPath, CategoryBody(old(formData)))]
      ensures reply.Ok? && old(editingItem).Some? ==>
                categoryData == ReplaceWhere(old(categoryData), HasId(old(editingItem).value.id), WithNormalizedImage(reply.body, now))
      ensures reply.Ok? && old(editingItem).None? ==> categoryData == old(categoryData) + [WithNormalizedImage(reply.body, now)]
      ensures reply.Ok? ==> !isDialogOpen && editingItem == None && formData == EmptyForm() && imagePreview == ""
      ensures !reply.Ok? ==>
                categoryData == old(categoryData) && isDialogOpen == old(isDialogOpen) && editingItem == old(editingItem)
                && formData == old(formData) && imagePreview == old(imagePreview)
    {
      var body := CategoryBody(formData);
      if editingItem.Some? {
        client.Send(Request(PUT, ItemPath(CategoriesPath, editingItem.value.id), body));
      } else {
        client.Send(Request(POST, CategoriesPath, body));
      }
      if !reply.Ok? {
        return;
      }
      var item := WithNormalizedImage(reply.body, now);
      if editingItem.Some? {
        categoryData := ReplaceWhere(categoryData, HasId(editingItem.value.id), item);
      } else {
        categoryData := categoryData + [item];
      }
      isDialogOpen := false;
      ResetForm();
    }

    method ResetForm()
      modifies this
      ensures editingItem == None && formData == EmptyForm() && imagePreview == ""
      ensures categoryData == old(categoryData) && isDialogOpen == old(isDialogOpen) && isLoading == old(isLoading)
    {
      editingItem := None;
      formData := EmptyForm();
      imagePreview := "";
    }

    method OpenCreateDialog()
      modifies this
      ensures editingItem == None && formData == EmptyForm() && imagePreview == "" && isDialogOpen
      ensures categoryData == old(categoryData)
    {
      ResetForm();
      isDialogOpen := true;
    }

    /** The edit dialog keeps the stored image URL as the form's image and previews it resolved. */
    method HandleEdit(item: Category, now: int)
      modifies this
      ensures editingItem == Some(item) && isDialogOpen
      ensures formData == CategoryForm(OrEmpty(item.nameUz), OrEmpty(item.nameEn), OrEmpty(item.nameRu), ImageText(item.image))
      ensures imagePreview == NormalizeImageUrl(item.image, now)
      ensures categoryData == old(categoryData)
    {
      editingItem := Some(item);
      formData := CategoryForm(OrEmpty(item.nameUz), OrEmpty(item.nameEn), OrEmpty(item.nameRu), ImageText(item.image));
      imagePreview := NormalizeImageUrl(item.image, now);
      isDialogOpen := true;
    }

    /** Delete after confirmation; only an ok response drops the category. */
    method HandleDelete(id: nat, confirmed: bool, reply: Reply<()>)
      modifies this, client
      ensures !confirmed ==> client.sent == old(client.sent)
      ensures confirmed ==> client.sent == old(client.sent) + [Request(DELETE, ItemPath(CategoriesPath, id), NoBody)]
      ensures categoryData == (if confirmed && reply.Ok? then Filter(old(categoryData), NotId(id)) else old(categoryData))
      ensures formData == old(formData) && editingItem == old(editingItem) && isDialogOpen == old(isDialogOpen)
    {
      if !confirmed {
        return;
      }
      client.Send(Request(DELETE, ItemPath(CategoriesPath, id), NoBody));
      if reply.Ok? {
        categoryData := Filter(categoryData, NotId(id));
      }
    }
  }
}

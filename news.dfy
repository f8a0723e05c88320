/** The news screen: articles with localized titles and descriptions, a type tag, and a
    list of images whose entries are either new files or URLs of images already stored. */
module News {
  import opened Common
  import opened Http

  /** An entry of the image list: a newly picked file, or the URL of an image already stored. */
  datatype NewsImage = NewFile(file: File) | StoredUrl(url: string)

  datatype NewsItem = NewsItem(
    id: nat, title: Option<string>, titleUz: Option<string>, titleEn: Option<string>, titleRu: Option<string>,
    description: Option<string>, descriptionUz: Option<string>, descriptionEn: Option<string>,
    descriptionRu: Option<string>, newsType: string, images: seq<string>)

  datatype NewsForm = NewsForm(
    titleUz: string, titleEn: string, titleRu: string,
    descriptionUz: string, descriptionEn: string, descriptionRu: string, newsType: string)

  function EmptyForm(): NewsForm {
    NewsForm("", "", "", "", "", "", "p")
  }

  datatype NewsType = NewsType(value: string, colorClass: string)

  const NewsTypes: seq<NewsType> := [
    NewsType("p", "bg-blue-100 text-blue-800 hover:bg-blue-200"),
    NewsType("s", "bg-green-100 text-green-800 hover:bg-green-200"),
    NewsType("c", "bg-purple-100 text-purple-800 hover:bg-purple-200"),
    NewsType("t", "bg-orange-100 text-orange-800 hover:bg-orange-200")]

  function TypeIs(t: string): NewsType -> bool {
    (n: NewsType) => n.value == t
  }

  /** The type entry with this value, or the first entry ("p") for an unknown value. */
  function GetTypeInfo(t: string): (r: NewsType)
    ensures r in NewsTypes
    ensures t in ["p", "s", "c", "t"] ==> r.value == t
    ensures t !in ["p", "s", "c", "t"] ==> r == NewsTypes[0]
  {
    var found := Find(NewsTypes, TypeIs(t));
    KnownTypeFound(t);
    if found.Some? then found.value else NewsTypes[0]
  }

  /** The lookup finds an entry exactly for the four known values. */
  lemma KnownTypeFound(t: string)
    ensures Find(NewsTypes, TypeIs(t)).Some? <==> t in ["p", "s", "c", "t"]
  {
    var ts := ["p", "s", "c", "t"];
    assert forall i :: 0 <= i < 4 ==> NewsTypes[i].value == ts[i];
    if t in ts {
      var i :| 0 <= i < 4 && ts[i] == t;
      assert TypeIs(t)(NewsTypes[i]);
    } else {
      assert forall i :: 0 <= i < 4 ==> !TypeIs(t)(NewsTypes[i]);
    }
  }

  /** The first non-empty of the English, Uzbek and Russian titles and the plain title, else "Untitled". */
  function GetDisplayTitle(item: NewsItem): (r: string)
    ensures r != ""
    ensures Truthy(item.titleEn) ==> r == item.titleEn.value
    ensures !Truthy(item.titleEn) && Truthy(item.titleUz) ==> r == item.titleUz.value
    ensures !Truthy(item.titleEn) && !Truthy(item.titleUz) && Truthy(item.titleRu) ==> r == item.titleRu.value
    ensures !Truthy(item.titleEn) && !Truthy(item.titleUz) && !Truthy(item.titleRu) && Truthy(item.title)
            ==> r == item.title.value
    ensures !Truthy(item.titleEn) && !Truthy(item.titleUz) && !Truthy(item.titleRu) && !Truthy(item.title)
            ==> r == "Untitled"
  {
    Or(item.titleEn, Or(item.titleUz, Or(item.titleRu, Or(item.title, "Untitled"))))
  }

  /** The same fallback over the descriptions, ending in "No description". */
  function GetDisplayDescription(item: NewsItem): (r: string)
    ensures r != ""
    ensures Truthy(item.descriptionEn) ==> r == item.descriptionEn.value
    ensures !Truthy(item.descriptionEn) && Truthy(item.descriptionUz) ==> r == item.descriptionUz.value
    ensures !Truthy(item.descriptionEn) && !Truthy(item.descriptionUz) && Truthy(item.descriptionRu)
            ==> r == item.descriptionRu.value
    ensures !Truthy(item.descriptionEn) && !Truthy(item.descriptionUz) && !Truthy(item.descriptionRu)
            && Truthy(item.description)
            ==> r == item.description.value
    ensures !Truthy(item.descriptionEn) && !Truthy(item.descriptionUz) && !Truthy(item.descriptionRu)
            && !Truthy(item.description)
            ==> r == "No description"
  {
    Or(item.descriptionEn, Or(item.descriptionUz, Or(item.descriptionRu, Or(item.description, "No description"))))
  }

  /** The multipart part of one image entry: the file itself, or the stored URL as text. */
  function ImagePart(img: NewsImage): Field {
    Field("images", if img.NewFile? then FileV(img.file) else Str(img.url))
  }

  function TextParts(f: NewsForm): seq<Field> {
    [Field("title_uz", Str(f.titleUz)), Field("title_en", Str(f.titleEn)), Field("title_ru", Str(f.titleRu)),
     Field("description_uz", Str(f.descriptionUz)), Field("description_en", Str(f.descriptionEn)),
     Field("description_ru", Str(f.descriptionRu)), Field("type", Str(f.newsType))]
  }

  /** Append one "images" part per entry, in list order, whatever the entry's kind. */
  method AppendImages(parts: seq<Field>, images: seq<NewsImage>) returns (r: seq<Field>)
    ensures |r| == |parts| + |images|
    ensures r[..|parts|] == parts
    ensures forall k :: 0 <= k < |images| ==> r[|parts| + k] == ImagePart(images[k])
  {
    r := parts;
    var i := 0;
    while i < |images|
      invariant 0 <= i <= |images|
      invariant |r| == |parts| + i
      invariant r[..|parts|] == parts
      invariant forall k :: 0 <= k < i ==> r[|parts| + k] == ImagePart(images[k])
    {
      r := r + [ImagePart(images[i])];
      i := i + 1;
    }
  }

  /** The submitted form: the seven text parts, then the image parts. */
  function NewsBody(f: NewsForm, images: seq<NewsImage>): (b: Body)
    ensures b.Multipart? && |b.parts| == 7 + |images|
    ensures b.parts[..7] == TextParts(f)
    ensures forall k :: 0 <= k < |images| ==> b.parts[7 + k] == ImagePart(images[k])
  {
    Multipart(TextParts(f) + Map(images, ImagePart))
  }

  /** The form data the submit builds, part by part. */
  method BuildBody(f: NewsForm, images: seq<NewsImage>) returns (b: Body)
    ensures b == NewsBody(f, images)
  {
    var parts := AppendImages(TextParts(f), images);
    assert parts == NewsBody(f, images).parts;
    b := Multipart(parts);
  }

  function AsStored(url: string): NewsImage {
    StoredUrl(url)
  }

  /** The edit dialog's form: missing texts become "". */
  function EditForm(item: NewsItem): (f: NewsForm)
    ensures f.titleUz == OrEmpty(item.titleUz) && f.titleEn == OrEmpty(item.titleEn)
            && f.titleRu == OrEmpty(item.titleRu)
    ensures f.descriptionUz == OrEmpty(item.descriptionUz) && f.descriptionEn == OrEmpty(item.descriptionEn)
            && f.descriptionRu == OrEmpty(item.descriptionRu)
    ensures f.newsType == item.newsType
  {
    NewsForm(OrEmpty(item.titleUz), OrEmpty(item.titleEn), OrEmpty(item.titleRu),
             OrEmpty(item.descriptionUz), OrEmpty(item.descriptionEn), OrEmpty(item.descriptionRu), item.newsType)
  }

  const NewsPath := "/about/news/"

  function HasId(id: nat): NewsItem -> bool {
    (n: NewsItem) => n.id == id
  }

  class NewsManagement {
    var newsData: seq<NewsItem>
    var isLoading: bool
    var isDialogOpen: bool
    var editingItem: Option<NewsItem>
    var formData: NewsForm
    var uploadedImages: seq<NewsImage>
    var imagePreviews: seq<string>
    const client: Client

    /** The image list and its previews are index-aligned. */
    predicate Aligned()
      reads this
    {
      |uploadedImages| == |imagePreviews|
    }

    constructor (client: Client)
      ensures this.client == client && newsData == [] && isLoading && !isDialogOpen && editingItem == None
      ensures formData == EmptyForm() && uploadedImages == [] && imagePreviews == [] && Aligned()
    {
      this.client := client;
      newsData := [];
      isLoading := true;
      isDialogOpen := false;
      editingItem := None;
      formData := EmptyForm();
      uploadedImages := [];
      imagePreviews := [];
    }

    method FetchNewsData(reply: Reply<seq<NewsItem>>)
      modifies this, client
      ensures newsData == (if reply.Ok? then reply.body else old(newsData)) && !isLoading
      ensures isDialogOpen == old(isDialogOpen) && editingItem == old(editingItem) && formData == old(formData)
      ensures uploadedImages == old(uploadedImages) && imagePreviews == old(imagePreviews)
      ensures client.sent == old(client.sent) + [Request(GET, NewsPath, NoBody)]
    {
      isLoading := true;
      client.Send(Request(GET, NewsPath, NoBody));
      if reply.Ok? {
        newsData := reply.body;
      }
      isLoading := false;
    }

    /** Append every picked file and one preview per file; no selection changes nothing. */
    method HandleImageUpload(files: Option<seq<File>>, previewOf: File -> string)
      modifies this
      ensures files.None? ==> uploadedImages == old(uploadedImages) && imagePreviews == old(imagePreviews)
      ensures files.Some? ==>
                uploadedImages == old(uploadedImages) + Map(files.value, (f: File) => NewFile(f))
                && imagePreviews == old(imagePreviews) + Map(files.value, previewOf)
      ensures old(Aligned()) ==> Aligned()
      ensures newsData == old(newsData) && formData == old(formData) && editingItem == old(editingItem)
    {
      if files.Some? {
        uploadedImages := uploadedImages + Map(files.value, (f: File) => NewFile(f));
        imagePreviews := imagePreviews + Map(files.value, previewOf);
      }
    }

    /** Drop entry `index` from both lists; an index out of range changes neither. */
    method RemoveImage(index: int)
      modifies this
      ensures uploadedImages == RemoveAt(old(uploadedImages), index)
      ensures imagePreviews == RemoveAt(old(imagePreviews), index)
      ensures old(Aligned()) ==> Aligned()
      ensures newsData == old(newsData) && formData == old(formData) && editingItem == old(editingItem)
    {
      uploadedImages := RemoveAt(uploadedImages, index);
      imagePreviews := RemoveAt(imagePreviews, index);
    }

    method ResetForm()
      modifies this
      ensures editingItem == None && formData == EmptyForm() && uploadedImages == [] && imagePreviews == []
      ensures newsData == old(newsData) && isDialogOpen == old(isDialogOpen) && isLoading == old(isLoading)
    {
      editingItem := None;
      formData := EmptyForm();
      uploadedImages := [];
      imagePreviews := [];
    }

    method OpenCreateDialog()
      modifies this
      ensures editingItem == None && formData == EmptyForm() && uploadedImages == [] && imagePreviews == []
      ensures isDialogOpen && newsData == old(newsData)
    {
      ResetForm();
      isDialogOpen := true;
    }

    /** Both lists start as the article's stored image URLs, so they start aligned. */
    method HandleEdit(item: NewsItem)
      modifies this
      ensures editingItem == Some(item) && formData == EditForm(item) && isDialogOpen
      ensures imagePreviews == item.images && uploadedImages == Map(item.images, AsStored)
      ensures Aligned()
      ensures newsData == old(newsData)
    {
      editingItem := Some(item);
      formData := EditForm(item);
      imagePreviews := item.images;
      uploadedImages := Map(item.images, AsStored);
      isDialogOpen := true;
    }

    /** Send the form with every image entry: PUT to the article's path when editing, else
        POST. On an ok response the returned article replaces the edited id or is appended,
        the dialog closes, the form resets (type "p") and the list is fetched again. */
    method HandleSubmit(reply: Reply<NewsItem>, refetch: Reply<seq<NewsItem>>)
      modifies this, client
      ensures var body := NewsBody(old(formData), old(uploadedImages));
              var write := if old(editingItem).Some?
                           then Request(PUT, ItemPath(NewsPath, old(editingItem).value.id), body)
                           else Request(POST, NewsPath, body);
              client.sent == old(client.sent) + [write] + (if reply.Ok? then [Request(GET, NewsPath, NoBody)] else [])
      ensures reply.Ok? ==>
                var updated := if old(editingItem).Some?
                               then ReplaceWhere(old(newsData), HasId(old(editingItem).value.id), reply.body)
                               else old(newsData) + [reply.body];
                newsData == (if refetch.Ok? then refetch.body else updated)
                && !isDialogOpen && editingItem == None && formData == EmptyForm()
                && uploadedImages == [] && imagePreviews == [] && !isLoading
      ensures !reply.Ok? ==>
                newsData == old(newsData) && isDialogOpen == old(isDialogOpen) && editingItem == old(editingItem)
                && formData == old(formData) && uploadedImages == old(uploadedImages)
                && imagePreviews == old(imagePreviews) && isLoading == old(isLoading)
    {
      var body := BuildBody(formData, uploadedImages);
      if editingItem.Some? {
        client.Send(Request(PUT, ItemPath(NewsPath, editingItem.value.id), body));
      } else {
        client.Send(Request(POST, NewsPath, body));
      }
      if reply.Ok? {
        ApplySaved(reply.body, refetch);
      }
    }

    /** After an ok write: put the saved article in the list, close, reset, reload. */
    method ApplySaved(saved: NewsItem, refetch: Reply<seq<NewsItem>>)
      modifies this, client
      ensures client.sent == old(client.sent) + [Request(GET, NewsPath, NoBody)]
      ensures var updated := if old(editingItem).Some?
                             then ReplaceWhere(old(newsData), HasId(old(editingItem).value.id), saved)
                             else old(newsData) + [saved];
              newsData == (if refetch.Ok? then refetch.body else updated)
      ensures !isDialogOpen && editingItem == None && formData == EmptyForm()
      ensures uploadedImages == [] && imagePreviews == [] && !isLoading
    {
      if editingItem.Some? {
        newsData := ReplaceWhere(newsData, HasId(editingItem.value.id), saved);
      } else {
        newsData := newsData + [saved];
      }
      isDialogOpen := false;
      ResetForm();
      FetchNewsData(refetch);
    }

    /** Delete after confirmation; only an ok response drops the article. */
    method HandleDelete(id: nat, confirmed: bool, reply: Reply<()>)
      modifies this, client
      ensures !confirmed ==> client.sent == old(client.sent) && newsData == old(newsData)
      ensures confirmed ==> client.sent == old(client.sent) + [Request(DELETE, ItemPath(NewsPath, id), NoBody)]
      ensures newsData == (if confirmed && reply.Ok? then Filter(old(newsData), (n: NewsItem) => n.id != id) else old(newsData))
      ensures formData == old(formData) && editingItem == old(editingItem) && isDialogOpen == old(isDialogOpen)
    {
      if !confirmed {
        return;
      }
      client.Send(Request(DELETE, ItemPath(NewsPath, id), NoBody));
      if reply.Ok? {
        newsData := Filter(newsData, (n: NewsItem) => n.id != id);
      }
    }
  }
}

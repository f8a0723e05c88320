/** The colours screen: create, edit and delete palette colours, each with three localized
    names and a `.webp` image; the list itself lives in the shared colour store. */
module ColorsPage {
  import opened Common
  import opened Http
  import opened ColorsContext

  datatype ColorForm = ColorForm(nameUz: string, nameEn: string, nameRu: string, image: Option<File>)

  function EmptyForm(): ColorForm {
    ColorForm("", "", "", None)
  }

  /** Only files whose name ends in ".webp", in any letter case, are accepted. */
  predicate IsWebp(fileName: string) {
    EndsWith(ToLower(fileName), ".webp")
  }

  /** The check ignores letter case: a name and its lower-cased form are judged alike. */
  lemma IsWebpIgnoresCase(fileName: string)
    ensures IsWebp(fileName) <==> IsWebp(ToLower(fileName))
  {
    ToLowerIdempotent(fileName);
  }

  /** Submit goes ahead only when each of the three names has a non-whitespace character. */
  predicate NamesComplete(f: ColorForm) {
    !IsBlank(f.nameUz) && !IsBlank(f.nameEn) && !IsBlank(f.nameRu)
  }

  /** The same test as the screen writes it, on the trimmed names. */
  lemma NamesCompleteIffTrimmed(f: ColorForm)
    ensures NamesComplete(f) <==> Trim(f.nameUz) != "" && Trim(f.nameEn) != "" && Trim(f.nameRu) != ""
  {
    BlankIffTrimEmpty(f.nameUz);
    BlankIffTrimEmpty(f.nameEn);
    BlankIffTrimEmpty(f.nameRu);
  }

  /** The three names as typed (untrimmed), then the image only when a file was picked. */
  function ColorBody(f: ColorForm): (b: Body)
    ensures b.Multipart? && |b.parts| >= 3
    ensures b.parts[..3] == [Field("name_uz", Str(f.nameUz)), Field("name_en", Str(f.nameEn)), Field("name_ru", Str(f.nameRu))]
    ensures f.image.None? ==> |b.parts| == 3
    ensures f.image.Some? ==> |b.parts| == 4 && b.parts[3] == Field("image", FileV(f.image.value))
  {
    Multipart([Field("name_uz", Str(f.nameUz)), Field("name_en", Str(f.nameEn)), Field("name_ru", Str(f.nameRu))]
              + (if f.image.Some? then [Field("image", FileV(f.image.value))] else []))
  }

  const DetailColorPath := "/product/detail-color/"

  /** The first non-empty of the English, Uzbek and Russian names and the plain name, else "Untitled". */
  function GetDisplayName(c: Color): (r: string)
    ensures r != ""
    ensures Truthy(c.nameEn) ==> r == c.nameEn.value
    ensures !Truthy(c.nameEn) && Truthy(c.nameUz) ==> r == c.nameUz.value
    ensures !Truthy(c.nameEn) && !Truthy(c.nameUz) && Truthy(c.nameRu) ==> r == c.nameRu.value
    ensures !Truthy(c.nameEn) && !Truthy(c.nameUz) && !Truthy(c.nameRu) ==> r == (if c.name != "" then c.name else "Untitled")
  {
    Or(c.nameEn, Or(c.nameUz, Or(c.nameRu, Or(Some(c.name), "Untitled"))))
  }

  class ColorsContent {
    var isDialogOpen: bool
    var editingColor: Option<Color>
    var formData: ColorForm
    var preview: string
    /** The shared colour store; the screen's own requests go through the store's client. */
    const store: ColorsProvider

    constructor (store: ColorsProvider)
      ensures this.store == store && !isDialogOpen && editingColor == None && formData == EmptyForm() && preview == ""
    {
      this.store := store;
      isDialogOpen := false;
      editingColor := None;
      formData := EmptyForm();
      preview := "";
    }

    /** A picked `.webp` file becomes the form's image, previewed at `previewUrl`; any other
        file, or none, changes nothing. */
    method HandleFileChange(file: Option<File>, previewUrl: string)
      modifies this
      ensures file.Some? && IsWebp(file.value.name) ==>
                formData == old(formData).(image := Some(file.value)) && preview == previewUrl
      ensures !(file.Some? && IsWebp(file.value.name)) ==> formData == old(formData) && preview == old(preview)
      ensures editingColor == old(editingColor) && isDialogOpen == old(isDialogOpen)
    {
      if file.Some? {
        if !IsWebp(file.value.name) {
          return;
        }
        formData := formData.(image := Some(file.value));
        preview := previewUrl;
      }
    }

    method OpenCreateDialog()
      modifies this
      ensures editingColor == None && formData == EmptyForm() && preview == "" && isDialogOpen
    {
      editingColor := None;
      formData := EmptyForm();
      preview := "";
      isDialogOpen := true;
    }

    /** The names default to "", no file is chosen, and the stored image is the preview. */
    method OpenEditDialog(c: Color)
      modifies this
      ensures editingColor == Some(c) && isDialogOpen && preview == c.image
      ensures formData == ColorForm(OrEmpty(c.nameUz), OrEmpty(c.nameEn), OrEmpty(c.nameRu), None)
    {
      editingColor := Some(c);
      formData := ColorForm(OrEmpty(c.nameUz), OrEmpty(c.nameEn), OrEmpty(c.nameRu), None);
      preview := c.image;
      isDialogOpen := true;
    }

    /** With a blank name nothing is sent. Otherwise PUT to the colour's detail path when
        editing, else POST to the create path; an ok response closes the dialog and reloads
        the store, a failure leaves everything as it was. */
    method HandleSubmit(reply: Reply<()>, refetch: Reply<seq<Color>>)
      modifies this, store, store.client
      ensures !NamesComplete(old(formData)) ==>
                store.client.sent == old(store.client.sent) && store.colors == old(store.colors)
                && isDialogOpen == old(isDialogOpen)
      ensures NamesComplete(old(formData)) ==>
                var write := if old(editingColor).Some?
                             then Request(PUT, ItemPath(DetailColorPath, old(editingColor).value.id), ColorBody(old(formData)))
                             else Request(POST, ColorsPath, ColorBody(old(formData)));
                store.client.sent == old(store.client.sent) + [write] + (if reply.Ok? then [Request(GET, ColorsPath, NoBody)] else [])
                && isDialogOpen == (if reply.Ok? then false else old(isDialogOpen))
                && store.colors == (if reply.Ok? && refetch.Ok? then refetch.body else old(store.colors))
      ensures formData == old(formData) && editingColor == old(editingColor) && preview == old(preview)
    {
      if !NamesComplete(formData) {
        return;
      }
      var body := ColorBody(formData);
      if editingColor.Some? {
        store.client.Send(Request(PUT, ItemPath(DetailColorPath, editingColor.value.id), body));
      } else {
        store.client.Send(Request(POST, ColorsPath, body));
      }
      if !reply.Ok? {
        return;
      }
      isDialogOpen := false;
      store.FetchColors(refetch);
    }

    /** Delete after confirmation; an ok response reloads the store. */
    method HandleDelete(id: nat, confirmed: bool, reply: Reply<()>, refetch: Reply<seq<Color>>)
      modifies store, store.client
      ensures !confirmed ==> store.client.sent == old(store.client.sent) && store.colors == old(store.colors)
      ensures confirmed ==>
                store.client.sent == old(store.client.sent) + [Request(DELETE, ItemPath(DetailColorPath, id), NoBody)]
                                     + (if reply.Ok? then [Request(GET, ColorsPath, NoBody)] else [])
                && store.colors == (if reply.Ok? && refetch.Ok? then refetch.body else old(store.colors))
    {
      if !confirmed {
        return;
      }
      store.client.Send(Request(DELETE, ItemPath(DetailColorPath, id), NoBody));
      if reply.Ok? {
        store.FetchColors(refetch);
      }
    }
  }
}

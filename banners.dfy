/** The banners screen: home-page banners, one image each, with create, edit and delete. */
module Banners {
  import opened Common
  import opened Http

  datatype Banner = Banner(id: nat, image: string)

  /** The form's image: a picked file, or text (the stored URL, or a `data:` URL). */
  datatype BannerImage = PickedFile(file: File) | ImageText(text: string)

  /** Why a submit did not save: no image data (thrown as "No valid image data found"),
      a non-ok response, or an exception from the request. */
  datatype BannerError = NoImageData | WriteRejected(status: int) | WriteThrew(message: string)

  /** The image part a submit can send: the file, the blob of a `data:` URL, or nothing. */
  function ImagePart(image: BannerImage): (p: Option<Field>)
    ensures image.PickedFile? ==> p == Some(Field("image", FileV(image.file)))
    ensures image.ImageText? && StartsWith(image.text, "data:") ==> p == Some(Field("image", BlobOf(image.text)))
    ensures image.ImageText? && !StartsWith(image.text, "data:") ==> p.None?
  {
    if image.PickedFile? then Some(Field("image", FileV(image.file)))
    else if StartsWith(image.text, "data:") then Some(Field("image", BlobOf(image.text)))
    else None
  }

  /** The edit dialog keeps the banner's stored URL as the form's image, and a stored URL is
      an `http…` address, never a `data:` URL: so an edit submitted without picking a new
      file has no image part and always fails. */
  lemma EditWithoutNewFileHasNoImage(item: Banner)
    requires StartsWith(item.image, "http")
    ensures ImagePart(ImageText(item.image)).None?
  {
    var t := item.image;
    assert t[0] == t[..4][0] == 'h';
    assert !StartsWith(t, "data:") by {
      assert "data:"[0] == 'd';
    }
  }

  const BannersPath := "/about/banners/"

  function HasId(id: nat): Banner -> bool {
    (b: Banner) => b.id == id
  }

  function NotId(id: nat): Banner -> bool {
    (b: Banner) => b.id != id
  }

  class BannerClient {
    var bannerData: seq<Banner>
    var isLoading: bool
    var isDialogOpen: bool
    var editingItem: Option<Banner>
    var formData: BannerImage
    var imagePreview: string
    const client: Client

    constructor (client: Client)
      ensures this.client == client && bannerData == [] && isLoading && !isDialogOpen
      ensures editingItem == None && formData == ImageText("") && imagePreview == ""
    {
      this.client := client;
      bannerData := [];
      isLoading := true;
      isDialogOpen := false;
      editingItem := None;
      formData := ImageText("");
      imagePreview := "";
    }

    method FetchBannerData(reply: Reply<seq<Banner>>)
      modifies this, client
      ensures bannerData == (if reply.Ok? then reply.body else old(bannerData)) && !isLoading
      ensures isDialogOpen == old(isDialogOpen) && editingItem == old(editingItem) && formData == old(formData)
      ensures client.sent == old(client.sent) + [Request(GET, BannersPath, NoBody)]
    {
      isLoading := true;
      client.Send(Request(GET, BannersPath, NoBody));
      if reply.Ok? {
        bannerData := reply.body;
      }
      isLoading := false;
    }

    /** A picked file becomes the image, and `dataUrl` (the file read as a data URL) its
        preview; no file changes nothing. */
    method HandleImageChange(file: Option<File>, dataUrl: string)
      modifies this
      ensures file.None? ==> formData == old(formData) && imagePreview == old(imagePreview)
      ensures file.Some? ==> formData == PickedFile(file.value) && imagePreview == dataUrl
      ensures bannerData == old(bannerData) && editingItem == old(editingItem)
    {
      if file.Some? {
        imagePreview := dataUrl;
        formData := PickedFile(file.value);
      }
    }

    /** Without an image part the submit fails before any request. Otherwise the image is PUT
        to the banner's path when editing, else POSTed; an ok response replaces the edited id
        or appends, and resets the dialog, the editing item, the form and the preview. */
    method HandleSubmit(reply: Reply<Banner>) returns (failure: Option<BannerError>)
      modifies this, client
      ensures ImagePart(old(formData)).None? ==>
                failure == Some(NoImageData) && client.sent == old(client.sent)
      ensures ImagePart(old(formData)).Some? ==>
                var body := Multipart([ImagePart(old(formData)).value]);
                client.sent == old(client.sent) + [if old(editingItem).Some?
                                                   then Request(PUT, ItemPath(BannersPath, old(editingItem).value.id), body)
                                                   else Request(POST, BannersPath, body)]
                && (failure.None? <==> reply.Ok?)
      ensures ImagePart(old(formData)).Some? && reply.Ok? && old(editingItem).Some? ==>
                bannerData == ReplaceWhere(old(bannerData), HasId(old(editingItem).value.id), reply.body)
      ensures ImagePart(old(formData)).Some? && reply.Ok? && old(editingItem).None? ==>
                bannerData == old(bannerData) + [reply.body]
      ensures failure.None? ==> !isDialogOpen && editingItem == None && formData == ImageText("") && imagePreview == ""
      ensures failure.Some? ==>
                bannerData == old(bannerData) && isDialogOpen == old(isDialogOpen) && editingItem == old(editingItem)
                && formData == old(formData) && imagePreview == old(imagePreview)
    {
      var part := ImagePart(formData);
      if part.None? {
        return Some(NoImageData);
      }
      var body := Multipart([part.value]);
      if editingItem.Some? {
        client.Send(Request(PUT, ItemPath(BannersPath, editingItem.value.id), body));
      } else {
        client.Send(Request(POST, BannersPath, body));
      }
      if reply.NotOk? {
        return Some(WriteRejected(reply.status));
      } else if reply.Thrown? {
        return Some(WriteThrew(reply.message));
      }
      if editingItem.Some? {
        bannerData := ReplaceWhere(bannerData, HasId(editingItem.value.id), reply.body);
      } else {
        bannerData := bannerData + [reply.body];
      }
      isDialogOpen := false;
      editingItem := None;
      formData := ImageText("");
      imagePreview := "";
      failure := None;
    }

    /** The edit dialog keeps the stored URL as the image and as the preview. */
    method HandleEdit(item: Banner)
      modifies this
      ensures editingItem == Some(item) && formData == ImageText(item.image) && imagePreview == item.image
      ensures isDialogOpen && bannerData == old(bannerData)
    {
      editingItem := Some(item);
      formData := ImageText(item.image);
      imagePreview := item.image;
      isDialogOpen := true;
    }

    /** The create dialog starts with no image and no preview. */
    method OpenCreateDialog()
      modifies this
      ensures editingItem == None && formData == ImageText("") && imagePreview == ""
      ensures isDialogOpen && bannerData == old(bannerData)
    {
      editingItem := None;
      formData := ImageText("");
      imagePreview := "";
      isDialogOpen := true;
    }

    /** Delete after confirmation; only an ok response drops the banner. */
    method HandleDelete(id: nat, confirmed: bool, reply: Reply<()>)
      modifies this, client
      ensures !confirmed ==> client.sent == old(client.sent)
      ensures confirmed ==> client.sent == old(client.sent) + [Request(DELETE, ItemPath(BannersPath, id), NoBody)]
      ensures bannerData == (if confirmed && reply.Ok? then Filter(old(bannerData), NotId(id)) else old(bannerData))
      ensures formData == old(formData) && editingItem == old(editingItem) && isDialogOpen == old(isDialogOpen)
    {
      if !confirmed {
        return;
      }
      client.Send(Request(DELETE, ItemPath(BannersPath, id), NoBody));
      if reply.Ok? {
        bannerData := Filter(bannerData, NotId(id));
      }
    }
  }
}

/** The product image picker: two index-aligned lists (the picked files and their preview
    URLs), and the upload of picked files, one request at a time. */
module ImageUploader {
  import opened Common
  import opened Http

  const UploadPath := "/product/create-images/"

  /** The request that uploads one file for product `productId`: multipart `image` and `product`. */
  function UploadRequest(file: File, productId: nat): (r: Request)
    ensures r.verb == POST && r.path == UploadPath
    ensures r.body == Multipart([Field("image", FileV(file)), Field("product", Str(IntToString(productId)))])
  {
    Request(POST, UploadPath, Multipart([Field("image", FileV(file)), Field("product", Str(IntToString(productId)))]))
  }

  /** The upload requests for `files`, in order. */
  function UploadRequests(files: seq<File>, productId: nat): (rs: seq<Request>)
    ensures |rs| == |files|
    ensures forall i :: 0 <= i < |files| ==> rs[i] == UploadRequest(files[i], productId)
    decreases |files|
  {
    if files == [] then [] else [UploadRequest(files[0], productId)] + UploadRequests(files[1..], productId)
  }

  /** The number of leading ok responses: the index of the first failure, if any. */
  function FirstFailure(oks: seq<bool>): (k: nat)
    ensures k <= |oks|
    ensures forall i :: 0 <= i < k ==> oks[i]
    ensures k < |oks| ==> !oks[k]
    decreases |oks|
  {
    if oks == [] || !oks[0] then 0 else 1 + FirstFailure(oks[1..])
  }

  /** How many files the loop sends: all of them if every response is ok, otherwise up to
      and including the first one that fails. */
  function SentCount(oks: seq<bool>): (n: nat)
    ensures n <= |oks|
    ensures (forall i :: 0 <= i < |oks| ==> oks[i]) ==> n == |oks|
    ensures (exists i :: 0 <= i < |oks| && !oks[i]) ==> n == FirstFailure(oks) + 1 && !oks[n - 1]
  {
    var k := FirstFailure(oks);
    if k < |oks| then k + 1 else k
  }

  /** `uploadImages`: POST each file in order; the first non-ok response throws, which ends
      the loop. `oks[i]` is the outcome of the i-th request. The result is true when every
      upload succeeded (the success notice), false when one failed (the error notice). */
  method UploadSequentially(client: Client, files: seq<File>, productId: nat, oks: seq<bool>) returns (allOk: bool)
    requires |oks| == |files|
    modifies client
    ensures allOk <==> forall i :: 0 <= i < |oks| ==> oks[i]
    ensures client.sent == old(client.sent) + UploadRequests(files[..SentCount(oks)], productId)
  {
    var i := 0;
    allOk := true;
    while i < |files|
      invariant 0 <= i <= |files|
      invariant i <= FirstFailure(oks)
      invariant client.sent == old(client.sent) + UploadRequests(files[..i], productId)
    {
      client.Send(UploadRequest(files[i], productId));
      assert files[..i + 1] == files[..i] + [files[i]];
      UploadRequestsAppend(files[..i], files[i], productId);
      if !oks[i] {
        allOk := false;
        assert FirstFailure(oks) == i;
        assert files[..i + 1] == files[..SentCount(oks)];
        return;
      }
      i := i + 1;
    }
    assert FirstFailure(oks) == |oks|;
    assert files[..i] == files[..SentCount(oks)];
  }

  lemma {:induction false} UploadRequestsAppend(files: seq<File>, f: File, productId: nat)
    ensures UploadRequests(files + [f], productId) == UploadRequests(files, productId) + [UploadRequest(f, productId)]
  {
    var a := UploadRequests(files + [f], productId);
    var b := UploadRequests(files, productId) + [UploadRequest(f, productId)];
    assert |a| == |b|;
    forall i | 0 <= i < |a|
      ensures a[i] == b[i]
    {
      if i < |files| {
        assert (files + [f])[i] == files[i];
      } else {
        assert (files + [f])[i] == f;
      }
    }
  }

  /** Adding files keeps the two lists aligned: each new file sits at the same index as its preview. */
  lemma AddKeepsAligned(images: seq<File>, previews: seq<string>, files: seq<File>, previewOf: File -> string)
    requires |images| == |previews|
    ensures var ni := images + files; var np := previews + Map(files, previewOf);
      |ni| == |np| && forall j :: |images| <= j < |ni| ==> np[j] == previewOf(ni[j])
  {
  }

  /** The element at `j` after removing index `i`: the one at `j`, or at `j + 1` from `i` on. */
  lemma RemoveAtShifts<T>(xs: seq<T>, i: int, j: int)
    requires 0 <= j < |RemoveAt(xs, i)|
    ensures RemoveAt(xs, i)[j] == xs[if 0 <= i <= j then j + 1 else j]
  {
    if 0 <= i < |xs| {
      if j < i {
        assert RemoveAt(xs, i)[j] == xs[..i][j];
      } else {
        assert RemoveAt(xs, i)[j] == xs[i + 1..][j - i];
      }
    }
  }

  /** Removing index `i` from both lists keeps them aligned: positions before `i` keep their
      pair, positions from `i` on hold the pair that followed. */
  lemma RemoveKeepsAligned(images: seq<File>, previews: seq<string>, i: int)
    requires |images| == |previews|
    ensures |RemoveAt(images, i)| == |RemoveAt(previews, i)|
    ensures forall j :: 0 <= j < |RemoveAt(images, i)| ==>
              RemoveAt(images, i)[j] == images[if 0 <= i <= j then j + 1 else j]
              && RemoveAt(previews, i)[j] == previews[if 0 <= i <= j then j + 1 else j]
  {
    forall j | 0 <= j < |RemoveAt(images, i)|
      ensures RemoveAt(images, i)[j] == images[if 0 <= i <= j then j + 1 else j]
              && RemoveAt(previews, i)[j] == previews[if 0 <= i <= j then j + 1 else j]
    {
      RemoveAtShifts(images, i, j);
      RemoveAtShifts(previews, i, j);
    }
  }

  datatype UploadMode = Immediate | Delayed

  /** The outcome notice of an image selection. */
  datatype Notice = NoNotice | UploadSucceeded | UploadFailed

  /** `productId` as a JavaScript value: `null`, or a number that is falsy when 0. */
  predicate HasProductId(productId: Option<nat>) {
    productId.Some? && productId.value != 0
  }

  /** The uploader of the product dialog. `images` and `imagePreviews` are state the parent
      owns; its `onImagesChange`/`onPreviewsChange` callbacks replace them. */
  class ImageUploader {
    var images: seq<File>
    var imagePreviews: seq<string>
    const productId: Option<nat>
    const uploadMode: UploadMode
    const client: Client

    constructor (images: seq<File>, imagePreviews: seq<string>, productId: Option<nat>,
                 uploadMode: UploadMode, client: Client)
      ensures this.images == images && this.imagePreviews == imagePreviews
      ensures this.productId == productId && this.uploadMode == uploadMode && this.client == client
    {
      this.images := images;
      this.imagePreviews := imagePreviews;
      this.productId := productId;
      this.uploadMode := uploadMode;
      this.client := client;
    }

    /** A file selection: nothing for an empty one; otherwise append the files and their
        previews, and in immediate mode with a product id upload exactly the new files. */
    method HandleImageChange(files: seq<File>, previewOf: File -> string, oks: seq<bool>) returns (notice: Notice)
      requires |oks| == |files|
      modifies this, client
      ensures files == [] ==> images == old(images) && imagePreviews == old(imagePreviews)
                              && client.sent == old(client.sent) && notice == NoNotice
      ensures files != [] ==> images == old(images) + files
                              && imagePreviews == old(imagePreviews) + Map(files, previewOf)
      ensures files != [] && uploadMode == Immediate && HasProductId(productId) ==>
                client.sent == old(client.sent) + UploadRequests(files[..SentCount(oks)], productId.value)
                && (notice == UploadSucceeded <==> forall i :: 0 <= i < |oks| ==> oks[i])
                && notice != NoNotice
      ensures !(uploadMode == Immediate && HasProductId(productId)) ==>
                client.sent == old(client.sent) && notice == NoNotice
    {
      notice := NoNotice;
      if files == [] {
        return;
      }
      images := images + files;
      imagePreviews := imagePreviews + Map(files, previewOf);
      if uploadMode == Immediate && HasProductId(productId) {
        var allOk := UploadSequentially(client, files, productId.value, oks);
        notice := if allOk then UploadSucceeded else UploadFailed;
      }
    }

    /** `removeImageAt(i)`: drop index `i` from both lists. */
    method RemoveImageAt(i: int)
      modifies this
      ensures images == RemoveAt(old(images), i) && imagePreviews == RemoveAt(old(imagePreviews), i)
    {
      images := RemoveAt(images, i);
      imagePreviews := RemoveAt(imagePreviews, i);
    }
  }
}

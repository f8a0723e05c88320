/** The draft list of colour variants of a product being edited: which palette colours
    are attached, each with its own image and price. */
module ColorSelector {
  import opened Common
  import opened Http
  import opened ColorsContext

  /** An image slot: empty (`null`), a freshly picked file, or the URL of a stored image. */
  datatype ImageRef = NoImage | ImageFile(file: File) | ImageUrl(url: string)

  datatype ProductColorData = ProductColorData(colorId: nat, image: ImageRef, price: string)

  /** The entry a newly attached colour starts with: no image, empty price. */
  function Blank(colorId: nat): ProductColorData {
    ProductColorData(colorId, NoImage, "")
  }

  /** `selectedColors.some(sc => sc.colorId === colorId)` */
  predicate IsColorSelected(draft: seq<ProductColorData>, colorId: nat) {
    exists i :: 0 <= i < |draft| && draft[i].colorId == colorId
  }

  /** The test that keeps every entry of another colour. */
  function NotColor(colorId: nat): ProductColorData -> bool {
    (sc: ProductColorData) => sc.colorId != colorId
  }

  /** The draft after clicking colour `colorId`: a selected colour is detached (every entry
      with that id goes), an unselected one is attached as a blank entry; in single-select
      mode the blank entry replaces the whole draft. */
  function ToggleColor(draft: seq<ProductColorData>, colorId: nat, singleSelect: bool): (r: seq<ProductColorData>)
    ensures IsColorSelected(draft, colorId) ==> r == Filter(draft, NotColor(colorId))
    ensures !IsColorSelected(draft, colorId) && singleSelect ==> r == [Blank(colorId)]
    ensures !IsColorSelected(draft, colorId) && !singleSelect ==> r == draft + [Blank(colorId)]
  {
    if IsColorSelected(draft, colorId) then Filter(draft, NotColor(colorId))
    else if singleSelect then [Blank(colorId)]
    else draft + [Blank(colorId)]
  }

  /** Detaching a selected colour removes every entry with that id, keeps every other entry,
      and shortens the draft. */
  lemma ToggleSelectedRemoves(draft: seq<ProductColorData>, colorId: nat, singleSelect: bool)
    requires IsColorSelected(draft, colorId)
    ensures var r := ToggleColor(draft, colorId, singleSelect);
      !IsColorSelected(r, colorId)
      && (forall i :: 0 <= i < |draft| && draft[i].colorId != colorId ==> draft[i] in r)
      && |r| < |draft|
  {
    var p := NotColor(colorId);
    var k :| 0 <= k < |draft| && draft[k].colorId == colorId;
    FilterShorter(draft, p, k);
  }

  /** A filter that rejects the element at index `k` loses at least that one. */
  lemma {:induction false} FilterShorter<T>(xs: seq<T>, p: T -> bool, k: nat)
    requires k < |xs| && !p(xs[k])
    ensures |Filter(xs, p)| < |xs|
    decreases |xs|
  {
    if k > 0 {
      FilterShorter(xs[1..], p, k - 1);
    }
  }

  /** In multi-select mode attaching a colour adds exactly one blank entry, at the end. */
  lemma ToggleAbsentAppends(draft: seq<ProductColorData>, colorId: nat)
    requires !IsColorSelected(draft, colorId)
    ensures var r := ToggleColor(draft, colorId, false);
      |r| == |draft| + 1 && r[..|draft|] == draft && r[|draft|] == Blank(colorId)
      && IsColorSelected(r, colorId)
  {
    var r := ToggleColor(draft, colorId, false);
    assert r[|draft|].colorId == colorId;
  }

  /** In multi-select mode attaching and then detaching a colour restores the draft exactly. */
  lemma ToggleTwiceRestores(draft: seq<ProductColorData>, colorId: nat)
    requires !IsColorSelected(draft, colorId)
    ensures ToggleColor(ToggleColor(draft, colorId, false), colorId, false) == draft
  {
    var p := NotColor(colorId);
    var once := ToggleColor(draft, colorId, false);
    assert once == draft + [Blank(colorId)];
    assert once[|draft|].colorId == colorId;
    FilterAppend(draft, [Blank(colorId)], p);
    FilterKeepsAll(draft, p);
    assert Filter([Blank(colorId)], p) == [];
  }

  /** In single-select mode a toggle never takes a draft of at most one entry above one. */
  lemma SingleSelectStaysSingle(draft: seq<ProductColorData>, colorId: nat)
    requires |draft| <= 1
    ensures |ToggleColor(draft, colorId, true)| <= 1
  {
  }

  /** What a per-colour field editor writes: the image slot or the price. */
  datatype ColorEdit = SetImage(image: ImageRef) | SetPrice(price: string)

  function ApplyEdit(sc: ProductColorData, edit: ColorEdit): ProductColorData {
    match edit
    case SetImage(im) => sc.(image := im)
    case SetPrice(pr) => sc.(price := pr)
  }

  /** `selectedColors.map(sc => sc.colorId === colorId ? {...sc, [field]: value} : sc)` */
  function ChangeColorData(draft: seq<ProductColorData>, colorId: nat, edit: ColorEdit): (r: seq<ProductColorData>)
    ensures |r| == |draft|
    ensures forall i :: 0 <= i < |draft| ==> r[i].colorId == draft[i].colorId
    ensures forall i :: 0 <= i < |draft| && draft[i].colorId != colorId ==> r[i] == draft[i]
    ensures forall i :: 0 <= i < |draft| && draft[i].colorId == colorId ==>
              (edit.SetImage? ==> r[i].image == edit.image && r[i].price == draft[i].price)
              && (edit.SetPrice? ==> r[i].price == edit.price && r[i].image == draft[i].image)
    decreases |draft|
  {
    if draft == [] then []
    else [if draft[0].colorId == colorId then ApplyEdit(draft[0], edit) else draft[0]]
         + ChangeColorData(draft[1..], colorId, edit)
  }

  /** The colour ids the draft mentions. */
  function ColorIds(draft: seq<ProductColorData>): (ids: set<nat>)
    ensures forall id :: id in ids <==> IsColorSelected(draft, id)
  {
    set i | 0 <= i < |draft| :: draft[i].colorId
  }

  /** No entry after index `i` and before index `k` has the colour id of entry `i`. */
  predicate LastBefore(draft: seq<ProductColorData>, i: int, k: int)
    requires 0 <= i < k <= |draft|
  {
    forall j :: i < j < k ==> draft[j].colorId != draft[i].colorId
  }

  /** `selectedMap`: the record from colour id to entry filled by a forEach, so a later entry
      overwrites an earlier one with the same id. */
  method SelectedMap(draft: seq<ProductColorData>) returns (m: map<nat, ProductColorData>)
    ensures m.Keys == ColorIds(draft)
    ensures forall i :: 0 <= i < |draft| && LastBefore(draft, i, |draft|) ==> m[draft[i].colorId] == draft[i]
  {
    m := map[];
    var k := 0;
    while k < |draft|
      invariant 0 <= k <= |draft|
      invariant m.Keys == ColorIds(draft[..k])
      invariant forall i :: 0 <= i < k && LastBefore(draft, i, k) ==> draft[i].colorId in m && m[draft[i].colorId] == draft[i]
    {
      var m' := m[draft[k].colorId := draft[k]];
      forall i | 0 <= i < k + 1 && LastBefore(draft, i, k + 1)
        ensures draft[i].colorId in m' && m'[draft[i].colorId] == draft[i]
      {
        if i < k {
          assert LastBefore(draft, i, k);
          assert draft[k].colorId != draft[i].colorId;
        }
      }
      assert ColorIds(draft[..k + 1]) == ColorIds(draft[..k]) + {draft[k].colorId} by {
        assert draft[..k + 1] == draft[..k] + [draft[k]];
        assert draft[..k + 1][k] == draft[k];
        forall id | id in ColorIds(draft[..k + 1])
          ensures id in ColorIds(draft[..k]) + {draft[k].colorId}
        {
          var i :| 0 <= i < k + 1 && draft[..k + 1][i].colorId == id;
          if i < k {
            assert draft[..k][i].colorId == id;
          }
        }
        forall id | id in ColorIds(draft[..k])
          ensures id in ColorIds(draft[..k + 1])
        {
          var i :| 0 <= i < k && draft[..k][i].colorId == id;
          assert draft[..k + 1][i].colorId == id;
        }
      }
      m := m';
      k := k + 1;
    }
    assert draft[..k] == draft;
  }

  /** The colour picker of the product dialog. `selectedColors` is the draft the parent owns;
      the component's `onColorsChange` callback replaces it. */
  class ColorSelector {
    var selectedColors: seq<ProductColorData>
    var isCreateDialogOpen: bool
    var newColorName: string
    var newColorImage: Option<File>
    var newColorImagePreview: string
    const singleSelect: bool
    const store: ColorsProvider

    constructor (selectedColors: seq<ProductColorData>, singleSelect: bool, store: ColorsProvider)
      ensures this.selectedColors == selectedColors && this.singleSelect == singleSelect && this.store == store
      ensures !isCreateDialogOpen && newColorName == "" && newColorImage == None && newColorImagePreview == ""
    {
      this.selectedColors := selectedColors;
      this.singleSelect := singleSelect;
      this.store := store;
      isCreateDialogOpen := false;
      newColorName := "";
      newColorImage := None;
      newColorImagePreview := "";
    }

    method HandleColorToggle(colorId: nat)
      modifies this
      ensures selectedColors == ToggleColor(old(selectedColors), colorId, singleSelect)
      ensures isCreateDialogOpen == old(isCreateDialogOpen) && newColorName == old(newColorName)
      ensures newColorImage == old(newColorImage) && newColorImagePreview == old(newColorImagePreview)
    {
      selectedColors := ToggleColor(selectedColors, colorId, singleSelect);
    }

    method HandleColorDataChange(colorId: nat, edit: ColorEdit)
      modifies this
      ensures selectedColors == ChangeColorData(old(selectedColors), colorId, edit)
      ensures isCreateDialogOpen == old(isCreateDialogOpen) && newColorName == old(newColorName)
      ensures newColorImage == old(newColorImage) && newColorImagePreview == old(newColorImagePreview)
    {
      selectedColors := ChangeColorData(selectedColors, colorId, edit);
    }

    /** Picking an image for the new colour; `preview` is the object URL the browser makes for it. */
    method HandleNewColorImageChange(file: Option<File>, preview: string)
      modifies this
      ensures file.Some? ==> newColorImage == file && newColorImagePreview == preview
      ensures file.None? ==> newColorImage == old(newColorImage) && newColorImagePreview == old(newColorImagePreview)
      ensures selectedColors == old(selectedColors) && newColorName == old(newColorName)
      ensures isCreateDialogOpen == old(isCreateDialogOpen)
    {
      if file.Some? {
        newColorImage := file;
        newColorImagePreview := preview;
      }
    }

    /** Create a palette colour from the dialog and attach it. Nothing happens unless the
        trimmed name is non-empty and an image is chosen. On success the new colour is
        appended as a blank entry (even in single-select mode) and the dialog is cleared and closed. */
    method HandleCreateColor(reply: Reply<Color>)
      modifies this, store, store.client
      ensures IsBlank(old(newColorName)) || old(newColorImage).None? ==>
                selectedColors == old(selectedColors) && newColorName == old(newColorName)
                && newColorImage == old(newColorImage) && newColorImagePreview == old(newColorImagePreview)
                && isCreateDialogOpen == old(isCreateDialogOpen)
                && store.colors == old(store.colors) && store.client.sent == old(store.client.sent)
      ensures !IsBlank(old(newColorName)) && old(newColorImage).Some? ==>
                store.client.sent == old(store.client.sent)
                  + [Request(POST, ColorsPath, Multipart([Field("name", Str(Trim(old(newColorName)))),
                                                          Field("image", FileV(old(newColorImage).value))]))]
                && store.colors == (if reply.Ok? then old(store.colors) + [reply.body] else old(store.colors))
      ensures !IsBlank(old(newColorName)) && old(newColorImage).Some? && reply.Ok? ==>
                selectedColors == old(selectedColors) + [Blank(reply.body.id)]
                && newColorName == "" && newColorImage == None && newColorImagePreview == ""
                && !isCreateDialogOpen
      ensures !IsBlank(old(newColorName)) && old(newColorImage).Some? && !reply.Ok? ==>
                selectedColors == old(selectedColors) && newColorName == old(newColorName)
                && newColorImage == old(newColorImage) && newColorImagePreview == old(newColorImagePreview)
                && isCreateDialogOpen == old(isCreateDialogOpen)
    {
      if IsBlank(newColorName) || newColorImage.None? {
        return;
      }
      var created := store.CreateColor(Trim(newColorName), newColorImage.value, reply);
      if created.Some? {
        selectedColors := selectedColors + [Blank(created.value.id)];
        newColorName := "";
        newColorImage := None;
        newColorImagePreview := "";
        isCreateDialogOpen := false;
      }
    }
  }
}

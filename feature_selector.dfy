/** The feature editor of one product: the product's rows of the global feature list, joined
    with the names of their types, plus the add-feature, delete-feature and create-type actions. */
module FeatureSelector {
  import opened Common
  import opened Http
  import opened TypesContext
  import opened FeaturesContext

  /** A feature as the editor shows it: its type id joined with the type's name. */
  datatype ProductFeature = ProductFeature(id: nat, typeId: nat, typeName: string, value: string, price: string)

  /** `types.find(t => t.id === typeId)?.name || "Type " + typeId` */
  function TypeName(types: seq<ProductType>, typeId: nat): (name: string)
    ensures var found := Find(types, (t: ProductType) => t.id == typeId);
      (found.Some? && found.value.name != "" ==> name == found.value.name)
      && (found.None? || found.value.name == "" ==> name == "Type " + IntToString(typeId))
  {
    var found := Find(types, (t: ProductType) => t.id == typeId);
    if found.Some? && found.value.name != "" then found.value.name else "Type " + IntToString(typeId)
  }

  /** A type name is never empty: a missing or nameless type gets the `Type <id>` label. */
  lemma TypeNameNonEmpty(types: seq<ProductType>, typeId: nat)
    ensures TypeName(types, typeId) != ""
  {
  }

  function ForProduct(productId: nat): Feature -> bool {
    (f: Feature) => f.product == productId
  }

  function Join(types: seq<ProductType>): Feature -> ProductFeature {
    (f: Feature) => ProductFeature(f.id, f.typeId, TypeName(types, f.typeId), f.value, f.price)
  }

  /** The rows of product `productId`, in response order, each joined with its type name. */
  function ProductFeatures(rows: seq<Feature>, types: seq<ProductType>, productId: nat): seq<ProductFeature> {
    Map(Filter(rows, ForProduct(productId)), Join(types))
  }

  /** Every displayed row comes from a fetched row of this product, with its id, type, value
      and price, and every fetched row of this product is displayed. */
  lemma ProductFeaturesExact(rows: seq<Feature>, types: seq<ProductType>, productId: nat)
    ensures var r := ProductFeatures(rows, types, productId);
      (forall k :: 0 <= k < |r| ==> exists f :: f in rows && f.product == productId && r[k] == Join(types)(f))
      && (forall i :: 0 <= i < |rows| && rows[i].product == productId ==> Join(types)(rows[i]) in r)
  {
    var kept := Filter(rows, ForProduct(productId));
    var r := ProductFeatures(rows, types, productId);
    forall k | 0 <= k < |r|
      ensures exists f :: f in rows && f.product == productId && r[k] == Join(types)(f)
    {
      assert r[k] == Join(types)(kept[k]);
      assert kept[k] in rows && ForProduct(productId)(kept[k]);
    }
    forall i | 0 <= i < |rows| && rows[i].product == productId
      ensures Join(types)(rows[i]) in r
    {
      assert ForProduct(productId)(rows[i]);
      assert rows[i] in kept;
      var k :| 0 <= k < |kept| && kept[k] == rows[i];
      assert r[k] == Join(types)(rows[i]);
    }
  }

  /** Display order is response order: the rows of a concatenated response are the rows of
      the first part followed by those of the second. */
  lemma ProductFeaturesAppend(a: seq<Feature>, b: seq<Feature>, types: seq<ProductType>, productId: nat)
    ensures ProductFeatures(a + b, types, productId)
            == ProductFeatures(a, types, productId) + ProductFeatures(b, types, productId)
  {
    FilterAppend(a, b, ForProduct(productId));
    MapAppend(Filter(a, ForProduct(productId)), Filter(b, ForProduct(productId)), Join(types));
  }

  /** The test `t.id.toString() === newFeatureType`. */
  function HasDecimalId(newFeatureType: string): ProductType -> bool {
    (t: ProductType) => IntToString(t.id) == newFeatureType
  }

  /** The type the add-feature form names, if any. */
  function ChosenType(types: seq<ProductType>, newFeatureType: string): Option<ProductType> {
    Find(types, HasDecimalId(newFeatureType))
  }

  /** No request is sent for the add-feature form unless a type is chosen, the trimmed value
      and price are non-empty, and the chosen type exists. */
  predicate AddFeatureAllowed(types: seq<ProductType>, newFeatureType: string, value: string, price: string) {
    newFeatureType != "" && !IsBlank(value) && !IsBlank(price)
    && ChosenType(types, newFeatureType).Some?
  }

  /** The POST of the add-feature form: `type` is `parseInt` of the form's type field, value
      and price are trimmed. */
  function AddFeatureRequest(productId: nat, newFeatureType: string, value: string, price: string): Request {
    Request(POST, FeaturesPath, CreateFeatureBody(productId, ParseIntOrZero(newFeatureType), Trim(value), Trim(price)))
  }

  /** The type the POST names is the type picked in the form: its decimal id is the form
      value, so `parseInt` of the form value gives back that id. */
  lemma AddFeatureSendsChosenType(types: seq<ProductType>, productId: nat, newFeatureType: string,
                                  value: string, price: string)
    requires AddFeatureAllowed(types, newFeatureType, value, price)
    ensures var t := ChosenType(types, newFeatureType).value;
      t in types && IntToString(t.id) == newFeatureType
      && AddFeatureRequest(productId, newFeatureType, value, price).body.fields[1] == Field("type", Num(t.id))
  {
    var t := ChosenType(types, newFeatureType).value;
    ParseIntToString(t.id);
  }

  /** Creating a type needs at least one non-blank name. */
  predicate CreateTypeAllowed(nameUz: string, nameRu: string, nameEn: string) {
    !IsBlank(nameUz) || !IsBlank(nameRu) || !IsBlank(nameEn)
  }

  const DetailFeaturesPath := "/product/detail-features/"

  class FeatureSelector {
    var productId: nat
    var loading: bool
    var allFeatures: seq<Feature>
    var filterPro: seq<ProductFeature>
    /** The last list handed to the parent through `onFeaturesChange`. */
    var reported: Option<seq<ProductFeature>>
    var isCreateDialogOpen: bool
    var isCreateTypeDialogOpen: bool
    var newFeatureType: string
    var newFeatureValue: string
    var newFeaturePrice: string
    var newTypeNameUz: string
    var newTypeNameRu: string
    var newTypeNameEn: string
    const client: Client
    const typesStore: TypesProvider

    constructor (productId: nat, client: Client, typesStore: TypesProvider)
      ensures this.productId == productId && this.client == client && this.typesStore == typesStore
      ensures !loading && allFeatures == [] && filterPro == [] && reported == None
      ensures !isCreateDialogOpen && !isCreateTypeDialogOpen
      ensures newFeatureType == "" && newFeatureValue == "" && newFeaturePrice == ""
      ensures newTypeNameUz == "" && newTypeNameRu == "" && newTypeNameEn == ""
    {
      this.productId := productId;
      this.client := client;
      this.typesStore := typesStore;
      loading := false;
      allFeatures := [];
      filterPro := [];
      reported := None;
      isCreateDialogOpen := false;
      isCreateTypeDialogOpen := false;
      newFeatureType := "";
      newFeatureValue := "";
      newFeaturePrice := "";
      newTypeNameUz := "";
      newTypeNameRu := "";
      newTypeNameEn := "";
    }

    /** GET every feature and keep this product's rows; a non-ok response changes nothing. */
    method FetchAllFeatures(reply: Reply<seq<Feature>>)
      modifies this, client
      ensures reply.Ok? ==> allFeatures == reply.body
                            && filterPro == ProductFeatures(reply.body, typesStore.types, productId)
                            && reported == Some(filterPro)
      ensures !reply.Ok? ==> allFeatures == old(allFeatures) && filterPro == old(filterPro)
                             && reported == old(reported)
      ensures !loading && productId == old(productId)
      ensures isCreateDialogOpen == old(isCreateDialogOpen) && isCreateTypeDialogOpen == old(isCreateTypeDialogOpen)
      ensures newFeatureType == old(newFeatureType) && newFeatureValue == old(newFeatureValue)
      ensures newFeaturePrice == old(newFeaturePrice)
      ensures newTypeNameUz == old(newTypeNameUz) && newTypeNameRu == old(newTypeNameRu)
      ensures newTypeNameEn == old(newTypeNameEn)
      ensures client.sent == old(client.sent) + [Request(GET, FeaturesPath, NoBody)]
    {
      client.Send(Request(GET, FeaturesPath, NoBody));
      if reply.Ok? {
        allFeatures := reply.body;
        ShowFeatures();
      }
      loading := false;
    }

    /** Derive this product's rows from `allFeatures` and hand them to the parent. */
    method ShowFeatures()
      modifies this
      ensures filterPro == ProductFeatures(allFeatures, typesStore.types, productId)
      ensures reported == Some(filterPro)
      ensures allFeatures == old(allFeatures) && loading == old(loading) && productId == old(productId)
      ensures isCreateDialogOpen == old(isCreateDialogOpen) && isCreateTypeDialogOpen == old(isCreateTypeDialogOpen)
      ensures newFeatureType == old(newFeatureType) && newFeatureValue == old(newFeatureValue)
      ensures newFeaturePrice == old(newFeaturePrice)
      ensures newTypeNameUz == old(newTypeNameUz) && newTypeNameRu == old(newTypeNameRu)
      ensures newTypeNameEn == old(newTypeNameEn)
    {
      filterPro := ProductFeatures(allFeatures, typesStore.types, productId);
      reported := Some(filterPro);
    }

    /** The effect keyed on the product id: it runs when the id changes and fetches only for
        a non-zero id. */
    method ProductIdChanged(newId: nat, reply: Reply<seq<Feature>>)
      modifies this, client
      ensures productId == newId
      ensures newId == 0 ==> allFeatures == old(allFeatures) && filterPro == old(filterPro)
                             && reported == old(reported) && client.sent == old(client.sent)
      ensures newId != 0 ==> client.sent == old(client.sent) + [Request(GET, FeaturesPath, NoBody)]
                             && (reply.Ok? ==> filterPro == ProductFeatures(reply.body, typesStore.types, newId))
    {
      productId := newId;
      if newId != 0 {
        FetchAllFeatures(reply);
      }
    }

    /** Add a feature of the chosen type. `reply` is the POST's outcome, `refetch` that of the
        reload that follows an ok POST. The inputs are reset only after an ok POST. */
    method HandleAddFeature(reply: Reply<()>, refetch: Reply<seq<Feature>>)
      modifies this, client
      ensures !AddFeatureAllowed(typesStore.types, old(newFeatureType), old(newFeatureValue), old(newFeaturePrice)) ==>
                client.sent == old(client.sent) && filterPro == old(filterPro)
                && newFeatureType == old(newFeatureType) && newFeatureValue == old(newFeatureValue)
                && newFeaturePrice == old(newFeaturePrice) && isCreateDialogOpen == old(isCreateDialogOpen)
      ensures AddFeatureAllowed(typesStore.types, old(newFeatureType), old(newFeatureValue), old(newFeaturePrice)) ==>
                PostedFeature(old(client.sent), old(newFeatureType), old(newFeatureValue), old(newFeaturePrice),
                              old(filterPro), old(isCreateDialogOpen), reply, refetch)
      ensures productId == old(productId)
    {
      if newFeatureType == "" || IsBlank(newFeatureValue) || IsBlank(newFeaturePrice) {
        return;
      }
      var selectedType := ChosenType(typesStore.types, newFeatureType);
      if selectedType.None? {
        return;
      }
      PostFeature(reply, refetch);
    }

    /** The state after the add-feature POST went out: on an ok reply the reload followed and
        the inputs are reset; otherwise only the POST went out and the inputs are kept. */
    ghost predicate PostedFeature(sent0: seq<Request>, type0: string, value0: string, price0: string,
                                  shown0: seq<ProductFeature>, dialog0: bool,
                                  reply: Reply<()>, refetch: Reply<seq<Feature>>)
      reads this, client, typesStore
    {
      var post := AddFeatureRequest(productId, type0, value0, price0);
      if reply.Ok? then
        client.sent == sent0 + [post, Request(GET, FeaturesPath, NoBody)]
        && (refetch.Ok? ==> filterPro == ProductFeatures(refetch.body, typesStore.types, productId))
        && newFeatureType == "" && newFeatureValue == "" && newFeaturePrice == ""
        && !isCreateDialogOpen
      else
        client.sent == sent0 + [post] && filterPro == shown0
        && newFeatureType == type0 && newFeatureValue == value0 && newFeaturePrice == price0
        && isCreateDialogOpen == dialog0
    }

    method PostFeature(reply: Reply<()>, refetch: Reply<seq<Feature>>)
      modifies this, client
      ensures PostedFeature(old(client.sent), old(newFeatureType), old(newFeatureValue), old(newFeaturePrice),
                            old(filterPro), old(isCreateDialogOpen), reply, refetch)
      ensures productId == old(productId)
    {
      var post := AddFeatureRequest(productId, newFeatureType, newFeatureValue, newFeaturePrice);
      client.Send(post);
      if !reply.Ok? {
        return;
      }
      ReloadAndReset(refetch);
    }

    /** After an ok add-feature POST: reload, then clear the three inputs and close the dialog. */
    method ReloadAndReset(refetch: Reply<seq<Feature>>)
      modifies this, client
      ensures client.sent == old(client.sent) + [Request(GET, FeaturesPath, NoBody)]
      ensures refetch.Ok? ==> filterPro == ProductFeatures(refetch.body, typesStore.types, productId)
      ensures newFeatureType == "" && newFeatureValue == "" && newFeaturePrice == ""
      ensures !isCreateDialogOpen && productId == old(productId)
    {
      FetchAllFeatures(refetch);
      newFeatureType := "";
      newFeatureValue := "";
      newFeaturePrice := "";
      isCreateDialogOpen := false;
    }

    /** DELETE one feature; only an ok response triggers the reload. */
    method HandleDeleteFeature(featureId: nat, reply: Reply<()>, refetch: Reply<seq<Feature>>)
      modifies this, client
      ensures reply.Ok? ==>
                client.sent == old(client.sent)
                  + [Request(DELETE, ItemPath(DetailFeaturesPath, featureId), NoBody), Request(GET, FeaturesPath, NoBody)]
                && (refetch.Ok? ==> filterPro == ProductFeatures(refetch.body, typesStore.types, productId))
      ensures !reply.Ok? ==>
                client.sent == old(client.sent) + [Request(DELETE, ItemPath(DetailFeaturesPath, featureId), NoBody)]
                && filterPro == old(filterPro) && allFeatures == old(allFeatures)
      ensures productId == old(productId)
    {
      client.Send(Request(DELETE, ItemPath(DetailFeaturesPath, featureId), NoBody));
      if reply.Ok? {
        FetchAllFeatures(refetch);
      }
    }

    /** Create a type from the three names (trimmed); on success preselect it and clear the names. */
    method HandleCreateType(reply: Reply<ProductType>)
      modifies this, typesStore, typesStore.client
      ensures !CreateTypeAllowed(old(newTypeNameUz), old(newTypeNameRu), old(newTypeNameEn)) ==>
                typesStore.client.sent == old(typesStore.client.sent) && typesStore.types == old(typesStore.types)
                && newFeatureType == old(newFeatureType) && newTypeNameUz == old(newTypeNameUz)
                && newTypeNameRu == old(newTypeNameRu) && newTypeNameEn == old(newTypeNameEn)
      ensures CreateTypeAllowed(old(newTypeNameUz), old(newTypeNameRu), old(newTypeNameEn)) ==>
                typesStore.client.sent == old(typesStore.client.sent)
                  + [Request(POST, TypesPath, CreateTypeBody(productId, Trim(old(newTypeNameUz)),
                                                             Trim(old(newTypeNameRu)), Trim(old(newTypeNameEn))))]
      ensures CreateTypeAllowed(old(newTypeNameUz), old(newTypeNameRu), old(newTypeNameEn)) && reply.Ok? ==>
                newFeatureType == IntToString(reply.body.id)
                && newTypeNameUz == "" && newTypeNameRu == "" && newTypeNameEn == ""
                && !isCreateTypeDialogOpen && typesStore.types == old(typesStore.types) + [reply.body]
      ensures CreateTypeAllowed(old(newTypeNameUz), old(newTypeNameRu), old(newTypeNameEn)) && !reply.Ok? ==>
                newFeatureType == old(newFeatureType) && newTypeNameUz == old(newTypeNameUz)
                && newTypeNameRu == old(newTypeNameRu) && newTypeNameEn == old(newTypeNameEn)
                && typesStore.types == old(typesStore.types)
      ensures productId == old(productId) && filterPro == old(filterPro)
    {
      if IsBlank(newTypeNameUz) && IsBlank(newTypeNameRu) && IsBlank(newTypeNameEn) {
        return;
      }
      var uz, ru, en := Trim(newTypeNameUz), Trim(newTypeNameRu), Trim(newTypeNameEn);
      var newType := typesStore.CreateType(productId, uz, ru, en, reply);
      if newType.Some? {
        newFeatureType := IntToString(newType.value.id);
        newTypeNameUz := "";
        newTypeNameRu := "";
        newTypeNameEn := "";
        isCreateTypeDialogOpen := false;
      }
    }
  }
}

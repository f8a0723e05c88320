/** The shared list of feature types (the kinds of characteristic a product can carry). */
module TypesContext {
  import opened Common
  import opened Http

  datatype ProductType = ProductType(id: nat, name: string, nameUz: string, nameRu: string,
                                     nameEn: string, productId: nat)

  const TypesPath := "/product/create-product-type/"

  /** The JSON body of a create request: `{product, name_uz, name_ru, name_en}`. */
  function CreateTypeBody(productId: nat, nameUz: string, nameRu: string, nameEn: string): (b: Body)
    ensures b.Json? && |b.fields| == 4
    ensures b.fields[0] == Field("product", Num(productId))
    ensures b.fields[1].name == "name_uz" && b.fields[2].name == "name_ru" && b.fields[3].name == "name_en"
    ensures b.fields[1].value == Str(nameUz) && b.fields[2].value == Str(nameRu) && b.fields[3].value == Str(nameEn)
  {
    Json([Field("product", Num(productId)), Field("name_uz", Str(nameUz)),
          Field("name_ru", Str(nameRu)), Field("name_en", Str(nameEn))])
  }

  class TypesProvider {
    var types: seq<ProductType>
    var loading: bool
    const client: Client

    constructor (client: Client)
      ensures types == [] && !loading && this.client == client
    {
      types := [];
      loading := false;
      this.client := client;
    }

    /** GET the types; only an ok response replaces the list. */
    method FetchTypes(reply: Reply<seq<ProductType>>)
      modifies this, client
      ensures types == (if reply.Ok? then reply.body else old(types))
      ensures !loading
      ensures client.sent == old(client.sent) + [Request(GET, TypesPath, NoBody)]
    {
      loading := true;
      client.Send(Request(GET, TypesPath, NoBody));
      if reply.Ok? {
        types := reply.body;
      }
      loading := false;
    }

    /** POST the JSON body; an ok response appends the new type and returns it. */
    method CreateType(productId: nat, nameUz: string, nameRu: string, nameEn: string,
                      reply: Reply<ProductType>) returns (r: Option<ProductType>)
      modifies this, client
      ensures reply.Ok? ==> r == Some(reply.body) && types == old(types) + [reply.body]
      ensures !reply.Ok? ==> r == None && types == old(types)
      ensures loading == old(loading)
      ensures client.sent == old(client.sent)
                + [Request(POST, TypesPath, CreateTypeBody(productId, nameUz, nameRu, nameEn))]
    {
      client.Send(Request(POST, TypesPath, CreateTypeBody(productId, nameUz, nameRu, nameEn)));
      if reply.Ok? {
        types := types + [reply.body];
        r := Some(reply.body);
      } else {
        r := None;
      }
    }
  }
}

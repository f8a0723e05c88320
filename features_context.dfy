/** The shared list of product features (a type, a value and a price per row). */
module FeaturesContext {
  import opened Common
  import opened Http

  datatype Feature = Feature(id: nat, product: nat, typeId: nat, value: string, price: string)

  const FeaturesPath := "/product/create-features/"

  /** The JSON body of a create request: `{product, type, value, price}`. */
  function CreateFeatureBody(productId: nat, typeId: int, value: string, price: string): (b: Body)
    ensures b.Json? && |b.fields| == 4
    ensures b.fields[0] == Field("product", Num(productId))
    ensures b.fields[1] == Field("type", Num(typeId))
    ensures b.fields[2] == Field("value", Str(value))
    ensures b.fields[3] == Field("price", Str(price))
  {
    Json([Field("product", Num(productId)), Field("type", Num(typeId)),
          Field("value", Str(value)), Field("price", Str(price))])
  }

  class FeaturesProvider {
    var features: seq<Feature>
    var loading: bool
    const client: Client

    constructor (client: Client)
      ensures features == [] && !loading && this.client == client
    {
      features := [];
      loading := false;
      this.client := client;
    }

    /** GET the features; only an ok response replaces the list. */
    method FetchFeatures(reply: Reply<seq<Feature>>)
      modifies this, client
      ensures features == (if reply.Ok? then reply.body else old(features))
      ensures !loading
      ensures client.sent == old(client.sent) + [Request(GET, FeaturesPath, NoBody)]
    {
      loading := true;
      client.Send(Request(GET, FeaturesPath, NoBody));
      if reply.Ok? {
        features := reply.body;
      }
      loading := false;
    }

    /** POST the JSON body; an ok response appends the new feature and returns it. */
    method CreateFeature(productId: nat, typeId: int, value: string, price: string,
                         reply: Reply<Feature>) returns (r: Option<Feature>)
      modifies this, client
      ensures reply.Ok? ==> r == Some(reply.body) && features == old(features) + [reply.body]
      ensures !reply.Ok? ==> r == None && features == old(features)
      ensures loading == old(loading)
      ensures client.sent == old(client.sent)
                + [Request(POST, FeaturesPath, CreateFeatureBody(productId, typeId, value, price))]
    {
      client.Send(Request(POST, FeaturesPath, CreateFeatureBody(productId, typeId, value, price)));
      if reply.Ok? {
        features := features + [reply.body];
        r := Some(reply.body);
      } else {
        r := None;
      }
    }
  }
}

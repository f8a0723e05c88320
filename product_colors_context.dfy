/** The shared list of product colour rows (a colour attached to a product, with its own image and price). */
module ProductColorsContext {
  import opened Common
  import opened Http

  datatype ProductColor = ProductColor(id: nat, product: nat, color: nat, image: string,
                                       price: string, name: string, colorImage: string)

  const ProductColorsPath := "/product/create-product-colors/"

  /** The multipart body of a create request: `product`, `color`, `image`, `price`, ids in decimal. */
  function CreateProductColorBody(productId: nat, colorId: nat, image: File, price: string): (b: Body)
    ensures b.Multipart? && |b.parts| == 4
    ensures b.parts[0].name == "product" && b.parts[1].name == "color"
    ensures b.parts[2] == Field("image", FileV(image)) && b.parts[3] == Field("price", Str(price))
    ensures b.parts[0].value.Str? && ParseLeadingInt(b.parts[0].value.s) == Some(productId as int)
    ensures b.parts[1].value.Str? && ParseLeadingInt(b.parts[1].value.s) == Some(colorId as int)
  {
    ParseIntToString(productId);
    ParseIntToString(colorId);
    Multipart([Field("product", Str(IntToString(productId))), Field("color", Str(IntToString(colorId))),
               Field("image", FileV(image)), Field("price", Str(price))])
  }

  class ProductColorsProvider {
    var productColors: seq<ProductColor>
    var loading: bool
    const client: Client

    constructor (client: Client)
      ensures productColors == [] && !loading && this.client == client
    {
      productColors := [];
      loading := false;
      this.client := client;
    }

    /** GET the rows; only an ok response replaces the list. */
    method FetchProductColors(reply: Reply<seq<ProductColor>>)
      modifies this, client
      ensures productColors == (if reply.Ok? then reply.body else old(productColors))
      ensures !loading
      ensures client.sent == old(client.sent) + [Request(GET, ProductColorsPath, NoBody)]
    {
      loading := true;
      client.Send(Request(GET, ProductColorsPath, NoBody));
      if reply.Ok? {
        productColors := reply.body;
      }
      loading := false;
    }

    /** POST the multipart body; an ok response appends the new row and returns it. */
    method CreateProductColor(productId: nat, colorId: nat, image: File, price: string,
                              reply: Reply<ProductColor>) returns (r: Option<ProductColor>)
      modifies this, client
      ensures reply.Ok? ==> r == Some(reply.body) && productColors == old(productColors) + [reply.body]
      ensures !reply.Ok? ==> r == None && productColors == old(productColors)
      ensures loading == old(loading)
      ensures client.sent == old(client.sent)
                + [Request(POST, ProductColorsPath, CreateProductColorBody(productId, colorId, image, price))]
    {
      client.Send(Request(POST, ProductColorsPath, CreateProductColorBody(productId, colorId, image, price)));
      if reply.Ok? {
        productColors := productColors + [reply.body];
        r := Some(reply.body);
      } else {
        r := None;
      }
    }
  }
}

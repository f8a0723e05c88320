/** The shared list of colours (the colour palette products draw their variants from). */
module ColorsContext {
  import opened Common
  import opened Http

  datatype Color = Color(id: nat, name: string, image: string,
                         nameUz: Option<string>, nameEn: Option<string>, nameRu: Option<string>,
                         colorImage: Option<string>)

  const ColorsPath := "/product/create-color/"

  class ColorsProvider {
    var colors: seq<Color>
    var loading: bool
    const client: Client

    constructor (client: Client)
      ensures colors == [] && !loading && this.client == client
    {
      colors := [];
      loading := false;
      this.client := client;
    }

    /** GET the palette; only an ok response replaces the list. */
    method FetchColors(reply: Reply<seq<Color>>)
      modifies this, client
      ensures colors == (if reply.Ok? then reply.body else old(colors))
      ensures !loading
      ensures client.sent == old(client.sent) + [Request(GET, ColorsPath, NoBody)]
    {
      loading := true;
      client.Send(Request(GET, ColorsPath, NoBody));
      if reply.Ok? {
        colors := reply.body;
      }
      loading := false;
    }

    /** POST a multipart `name`/`image`; an ok response appends the new colour and returns it,
        anything else returns null and leaves the list alone. */
    method CreateColor(name: string, image: File, reply: Reply<Color>) returns (r: Option<Color>)
      modifies this, client
      ensures reply.Ok? ==> r == Some(reply.body) && colors == old(colors) + [reply.body]
      ensures !reply.Ok? ==> r == None && colors == old(colors)
      ensures loading == old(loading)
      ensures client.sent == old(client.sent)
                + [Request(POST, ColorsPath, Multipart([Field("name", Str(name)), Field("image", FileV(image))]))]
    {
      client.Send(Request(POST, ColorsPath, Multipart([Field("name", Str(name)), Field("image", FileV(image))])));
      if reply.Ok? {
        colors := colors + [reply.body];
        r := Some(reply.body);
      } else {
        r := None;
      }
    }
  }
}

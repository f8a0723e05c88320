/** The console's view of the REST API: the requests it issues and the outcome
    of each one. The transport is not modelled; every call's outcome is an input,
    and a `Client` keeps the log of the requests issued, in order. */
module Http {
  import opened Common

  datatype Method = GET | POST | PUT | PATCH | DELETE

  /** A file picked in the browser; `handle` tells apart files with the same name. */
  datatype File = File(name: string, handle: nat)

  /** A JSON value or a multipart part. `Strs` is a JSON array of strings; `BlobOf(u)` is the
      blob a `data:` URL `u` decodes to. */
  datatype Value = Str(s: string) | Num(n: int) | Null | Strs(items: seq<string>) | FileV(file: File) | BlobOf(dataUrl: string)

  datatype Field = Field(name: string, value: Value)

  datatype Body = NoBody | Json(fields: seq<Field>) | Multipart(parts: seq<Field>)

  datatype Request = Request(verb: Method, path: string, body: Body)

  /** The outcome of one call: an ok response with its decoded body, a response whose
      `ok` flag is false, or an exception (network failure, undecodable body). */
  datatype Reply<T> = Ok(body: T) | NotOk(status: int) | Thrown(message: string)

  /** Issues requests; `sent` is the log of every request issued so far. */
  class Client {
    var sent: seq<Request>

    constructor ()
      ensures sent == []
    {
      sent := [];
    }

    method Send(r: Request)
      modifies this
      ensures sent == old(sent) + [r]
    {
      sent := sent + [r];
    }
  }

  /** Where images without a URL are shown from, and the host that serves stored media. */
  const Placeholder := "/placeholder.svg"
  const MediaHost := "https://uzbekfoodstuff.pythonanywhere.com"

  /** A path prefixed with the media host is an absolute `http…` URL. */
  lemma MediaUrlIsHttp(path: string)
    ensures StartsWith(MediaHost + path, "http")
  {
    var s := MediaHost + path;
    assert s[0] == 'h' && s[1] == 't' && s[2] == 't' && s[3] == 'p';
    assert s[..4] == "http";
  }

  /** The path of one record: `prefix + id + "/"`, as in `/product/${id}/`. */
  function ItemPath(prefix: string, id: nat): (p: string)
    ensures StartsWith(p, prefix) && EndsWith(p, "/")
    ensures |p| > |prefix| + 1
  {
    prefix + NatToString(id) + "/"
  }

  /** Distinct ids address distinct records. */
  lemma ItemPathInjective(prefix: string, a: nat, b: nat)
    ensures ItemPath(prefix, a) == ItemPath(prefix, b) <==> a == b
  {
    if ItemPath(prefix, a) == ItemPath(prefix, b) {
      var pa := ItemPath(prefix, a);
      var na := NatToString(a);
      var nb := NatToString(b);
      assert |na| == |nb|;
      assert pa[|prefix|..|prefix| + |na|] == na;
      assert ItemPath(prefix, b)[|prefix|..|prefix| + |nb|] == nb;
      IntToStringInjective(a, b);
    }
  }
}

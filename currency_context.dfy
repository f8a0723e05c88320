/** The currency list shown next to prices, with a selected currency. It is fetched from an
    absolute URL with a plain request (no token, no language header). */
module CurrencyContext {
  import opened Common
  import opened Http

  datatype Currency = Currency(id: nat, name: string, nameUz: string, nameEn: string, nameRu: string)

  const CurrencyUrl := "https://api.uzbekfoodstaff.ae/api/v1/currency/"

  /** The message recorded when the fetch fails: the HTTP status for a non-ok response,
      the exception's message otherwise. */
  function FetchErrorMessage(reply: Reply<seq<Currency>>): (m: string)
    requires !reply.Ok?
    ensures reply.NotOk? ==> m == "HTTP error! status: " + IntToString(reply.status)
    ensures reply.Thrown? ==> m == reply.message
  {
    if reply.NotOk? then "HTTP error! status: " + IntToString(reply.status) else reply.message
  }

  class CurrencyProvider {
    var currencies: seq<Currency>
    var selectedCurrency: Option<Currency>
    var loading: bool
    var error: Option<string>
    const client: Client

    constructor (client: Client)
      ensures currencies == [] && selectedCurrency == None && loading && error == None
      ensures this.client == client
    {
      currencies := [];
      selectedCurrency := None;
      loading := true;
      error := None;
      this.client := client;
    }

    /** The mount-time fetch: an ok response stores the list and selects its first entry when
        there is one; a failure records a message. */
    method FetchCurrencies(reply: Reply<seq<Currency>>)
      modifies this, client
      ensures reply.Ok? ==> currencies == reply.body && error == old(error)
      ensures reply.Ok? && |reply.body| > 0 ==> selectedCurrency == Some(reply.body[0])
      ensures reply.Ok? && |reply.body| == 0 ==> selectedCurrency == old(selectedCurrency)
      ensures !reply.Ok? ==> currencies == old(currencies) && selectedCurrency == old(selectedCurrency)
                             && error == Some(FetchErrorMessage(reply))
      ensures !loading
      ensures client.sent == old(client.sent) + [Request(GET, CurrencyUrl, NoBody)]
    {
      loading := true;
      client.Send(Request(GET, CurrencyUrl, NoBody));
      if reply.Ok? {
        currencies := reply.body;
        if |reply.body| > 0 {
          selectedCurrency := Some(reply.body[0]);
        }
      } else {
        error := Some(FetchErrorMessage(reply));
      }
      loading := false;
    }

    method SetSelectedCurrency(c: Currency)
      modifies this
      ensures selectedCurrency == Some(c)
      ensures currencies == old(currencies) && loading == old(loading) && error == old(error)
    {
      selectedCurrency := Some(c);
    }
  }
}

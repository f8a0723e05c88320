/** The about screen: the company figures record (happy clients, product types, years of
    experience) and the currency list, each with create, edit and delete. */
module About {
  import opened Common
  import opened Http
  import opened CurrencyContext

  datatype AboutItem = AboutItem(id: nat, happyClients: int, productType: int, experience: int)

  datatype AboutForm = AboutForm(happyClients: int, productType: int, experience: int)

  datatype CurrencyForm = CurrencyForm(nameUz: string, nameEn: string, nameRu: string)

  function ZeroAbout(): AboutForm {
    AboutForm(0, 0, 0)
  }

  function EmptyCurrency(): CurrencyForm {
    CurrencyForm("", "", "")
  }

  /** A number field shows what it stores: typing the decimal form of `n` stores `n`. */
  lemma NumberFieldRoundTrip(n: int)
    ensures ParseIntOrZero(IntToString(n)) == n
  {
    ParseIntToString(n);
  }

  /** Text with no leading integer stores 0. */
  lemma NumberFieldDefaultsToZero(text: string)
    requires ParseLeadingInt(text).None?
    ensures ParseIntOrZero(text) == 0
  {
  }

  function AboutBody(f: AboutForm): Body {
    Json([Field("happy_clients", Num(f.happyClients)), Field("product_type", Num(f.productType)),
          Field("experience", Num(f.experience))])
  }

  function CurrencyBody(f: CurrencyForm): Body {
    Json([Field("name_uz", Str(f.nameUz)), Field("name_en", Str(f.nameEn)), Field("name_ru", Str(f.nameRu))])
  }

  const AboutPath := "/about/"
  const CurrencyPath := "/currency/"

  function AboutHasId(id: nat): AboutItem -> bool {
    (a: AboutItem) => a.id == id
  }

  function CurrencyHasId(id: nat): Currency -> bool {
    (c: Currency) => c.id == id
  }

  class AboutManagement {
    var aboutData: seq<AboutItem>
    var currencyData: seq<Currency>
    var isLoading: bool
    var isAboutDialogOpen: bool
    var isCurrencyDialogOpen: bool
    var editingAboutItem: Option<AboutItem>
    var editingCurrencyItem: Option<Currency>
    var aboutFormData: AboutForm
    var currencyFormData: CurrencyForm
    const client: Client

    constructor (client: Client)
      ensures this.client == client && aboutData == [] && currencyData == [] && isLoading
      ensures !isAboutDialogOpen && !isCurrencyDialogOpen && editingAboutItem == None && editingCurrencyItem == None
      ensures aboutFormData == ZeroAbout() && currencyFormData == EmptyCurrency()
    {
      this.client := client;
      aboutData := [];
      currencyData := [];
      isLoading := true;
      isAboutDialogOpen := false;
      isCurrencyDialogOpen := false;
      editingAboutItem := None;
      editingCurrencyItem := None;
      aboutFormData := ZeroAbout();
      currencyFormData := EmptyCurrency();
    }

    /** The mount effect: in a browser both lists are fetched (each replaced only by an ok
        response); `isLoading` is false afterwards either way. */
    method FetchAllData(inBrowser: bool, aboutReply: Reply<seq<AboutItem>>, currencyReply: Reply<seq<Currency>>)
      modifies this, client
      ensures !inBrowser ==> client.sent == old(client.sent) && aboutData == old(aboutData) && currencyData == old(currencyData)
      ensures inBrowser ==>
                client.sent == old(client.sent) + [Request(GET, AboutPath, NoBody), Request(GET, CurrencyPath, NoBody)]
                && aboutData == (if aboutReply.Ok? then aboutReply.body else old(aboutData))
                && currencyData == (if currencyReply.Ok? then currencyReply.body else old(currencyData))
      ensures !isLoading
      ensures aboutFormData == old(aboutFormData) && currencyFormData == old(currencyFormData)
    {
      if !inBrowser {
        isLoading := false;
        return;
      }
      isLoading := true;
      client.Send(Request(GET, AboutPath, NoBody));
      if aboutReply.Ok? {
        aboutData := aboutReply.body;
      }
      client.Send(Request(GET, CurrencyPath, NoBody));
      if currencyReply.Ok? {
        currencyData := currencyReply.body;
      }
      isLoading := false;
    }

    /** The three number inputs store `parseInt(text) || 0`. */
    method SetHappyClients(text: string)
      modifies this
      ensures aboutFormData == old(aboutFormData).(happyClients := ParseIntOrZero(text))
      ensures aboutData == old(aboutData) && editingAboutItem == old(editingAboutItem)
    {
      aboutFormData := aboutFormData.(happyClients := ParseIntOrZero(text));
    }

    method SetProductType(text: string)
      modifies this
      ensures aboutFormData == old(aboutFormData).(productType := ParseIntOrZero(text))
      ensures aboutData == old(aboutData) && editingAboutItem == old(editingAboutItem)
    {
      aboutFormData := aboutFormData.(productType := ParseIntOrZero(text));
    }

    method SetExperience(text: string)
      modifies this
      ensures aboutFormData == old(aboutFormData).(experience := ParseIntOrZero(text))
      ensures aboutData == old(aboutData) && editingAboutItem == old(editingAboutItem)
    {
      aboutFormData := aboutFormData.(experience := ParseIntOrZero(text));
    }

    /** PUT the figures to the edited record's path, else POST them. On an ok response the
        returned record replaces the edited id or is appended, the dialog closes, and the
        form returns to zeros with no record being edited. A failure changes nothing. */
    method HandleAboutSubmit(reply: Reply<AboutItem>)
      modifies this, client
      ensures client.sent == old(client.sent) + [if old(editingAboutItem).Some?
                                                 then Request(PUT, ItemPath(AboutPath, old(editingAboutItem).value.id), AboutBody(old(aboutFormData)))
                                                 else Request(POST, AboutPath, AboutBody(old(aboutFormData)))]
      ensures reply.Ok? && old(editingAboutItem).Some? ==>
                aboutData == ReplaceWhere(old(aboutData), AboutHasId(old(editingAboutItem).value.id), reply.body)
      ensures reply.Ok? && old(editingAboutItem).None? ==> aboutData == old(aboutData) + [reply.body]
      ensures reply.Ok? ==> !isAboutDialogOpen && editingAboutItem == None && aboutFormData == ZeroAbout()
      ensures !reply.Ok? ==>
                aboutData == old(aboutData) && isAboutDialogOpen == old(isAboutDialogOpen)
                && editingAboutItem == old(editingAboutItem) && aboutFormData == old(aboutFormData)
      ensures currencyData == old(currencyData) && currencyFormData == old(currencyFormData)
    {
      if editingAboutItem.Some? {
        client.Send(Request(PUT, ItemPath(AboutPath, editingAboutItem.value.id), AboutBody(aboutFormData)));
        if !reply.Ok? {
          return;
        }
        aboutData := ReplaceWhere(aboutData, AboutHasId(editingAboutItem.value.id), reply.body);
      } else {
        client.Send(Request(POST, AboutPath, AboutBody(aboutFormData)));
        if !reply.Ok? {
          return;
        }
        aboutData := aboutData + [reply.body];
      }
      isAboutDialogOpen := false;
      editingAboutItem := None;
      aboutFormData := ZeroAbout();
    }

    /** The same for a currency, at `/currency/`. */
    method HandleCurrencySubmit(reply: Reply<Currency>)
      modifies this, client
      ensures client.sent == old(client.sent) + [if old(editingCurrencyItem).Some?
                                                 then Request(PUT, ItemPath(CurrencyPath, old(editingCurrencyItem).value.id), CurrencyBody(old(currencyFormData)))
                                                 else Request(POST, CurrencyPath, CurrencyBody(old(currencyFormData)))]
      ensures reply.Ok? && old(editingCurrencyItem).Some? ==>
                currencyData == ReplaceWhere(old(currencyData), CurrencyHasId(old(editingCurrencyItem).value.id), reply.body)
      ensures reply.Ok? && old(editingCurrencyItem).None? ==> currencyData == old(currencyData) + [reply.body]
      ensures reply.Ok? ==> !isCurrencyDialogOpen && editingCurrencyItem == None && currencyFormData == EmptyCurrency()
      ensures !reply.Ok? ==>
                currencyData == old(currencyData) && isCurrencyDialogOpen == old(isCurrencyDialogOpen)
                && editingCurrencyItem == old(editingCurrencyItem) && currencyFormData == old(currencyFormData)
      ensures aboutData == old(aboutData) && aboutFormData == old(aboutFormData)
    {
      var path := if editingCurrencyItem.Some? then ItemPath(CurrencyPath, editingCurrencyItem.value.id) else CurrencyPath;
      var verb := if editingCurrencyItem.Some? then PUT else POST;
      client.Send(Request(verb, path, CurrencyBody(currencyFormData)));
      if !reply.Ok? {
        return;
      }
      if editingCurrencyItem.Some? {
        currencyData := ReplaceWhere(currencyData, CurrencyHasId(editingCurrencyItem.value.id), reply.body);
      } else {
        currencyData := currencyData + [reply.body];
      }
      isCurrencyDialogOpen := false;
      editingCurrencyItem := None;
      currencyFormData := EmptyCurrency();
    }

    method HandleAboutEdit(item: AboutItem)
      modifies this
      ensures editingAboutItem == Some(item) && isAboutDialogOpen
      ensures aboutFormData == AboutForm(item.happyClients, item.productType, item.experience)
      ensures aboutData == old(aboutData) && currencyData == old(currencyData)
    {
      editingAboutItem := Some(item);
      aboutFormData := AboutForm(item.happyClients, item.productType, item.experience);
      isAboutDialogOpen := true;
    }

    method HandleCurrencyEdit(item: Currency)
      modifies this
      ensures editingCurrencyItem == Some(item) && isCurrencyDialogOpen
      ensures currencyFormData == CurrencyForm(item.nameUz, item.nameEn, item.nameRu)
      ensures aboutData == old(aboutData) && currencyData == old(currencyData)
    {
      editingCurrencyItem := Some(item);
      currencyFormData := CurrencyForm(item.nameUz, item.nameEn, item.nameRu);
      isCurrencyDialogOpen := true;
    }

    /** Delete a figures record after confirmation; only an ok response drops it. */
    method HandleAboutDelete(id: nat, confirmed: bool, reply: Reply<()>)
      modifies this, client
      ensures !confirmed ==> client.sent == old(client.sent)
      ensures confirmed ==> client.sent == old(client.sent) + [Request(DELETE, ItemPath(AboutPath, id), NoBody)]
      ensures aboutData == (if confirmed && reply.Ok? then Filter(old(aboutData), (a: AboutItem) => a.id != id) else old(aboutData))
      ensures currencyData == old(currencyData) && aboutFormData == old(aboutFormData)
    {
      if !confirmed {
        return;
      }
      client.Send(Request(DELETE, ItemPath(AboutPath, id), NoBody));
      if reply.Ok? {
        aboutData := Filter(aboutData, (a: AboutItem) => a.id != id);
      }
    }

    /** Delete a currency after confirmation; only an ok response drops it. */
    method HandleCurrencyDelete(id: nat, confirmed: bool, reply: Reply<()>)
      modifies this, client
      ensures !confirmed ==> client.sent == old(client.sent)
      ensures confirmed ==> client.sent == old(client.sent) + [Request(DELETE, ItemPath(CurrencyPath, id), NoBody)]
      ensures currencyData == (if confirmed && reply.Ok? then Filter(old(currencyData), (c: Currency) => c.id != id) else old(currencyData))
      ensures aboutData == old(aboutData) && currencyFormData == old(currencyFormData)
    {
      if !confirmed {
        return;
      }
      client.Send(Request(DELETE, ItemPath(CurrencyPath, id), NoBody));
      if reply.Ok? {
        currencyData := Filter(currencyData, (c: Currency) => c.id != id);
      }
    }

    method OpenAboutCreateDialog()
      modifies this
      ensures editingAboutItem == None && aboutFormData == ZeroAbout() && isAboutDialogOpen
      ensures aboutData == old(aboutData)
    {
      editingAboutItem := None;
      aboutFormData := ZeroAbout();
      isAboutDialogOpen := true;
    }

    method OpenCurrencyCreateDialog()
      modifies this
      ensures editingCurrencyItem == None && currencyFormData == EmptyCurrency() && isCurrencyDialogOpen
      ensures currencyData == old(currencyData)
    {
      editingCurrencyItem := None;
      currencyFormData := EmptyCurrency();
      isCurrencyDialogOpen := true;
    }
  }
}

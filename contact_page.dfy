/** The contact-messages screen: messages sent through the site's contact form, with a
    theme filter and a case-insensitive search, and delete. */
module ContactPage {
  import opened Common
  import opened Http

  datatype ContactMessage = ContactMessage(id: nat, firstName: string, email: string, theme: string,
                                           message: string, createdAt: string)

  /** The search: the term occurs, ignoring letter case, in the name, e-mail, theme or message. */
  predicate SearchHit(term: string, m: ContactMessage) {
    ContainsIgnoreCase(m.firstName, term) || ContainsIgnoreCase(m.email, term)
    || ContainsIgnoreCase(m.theme, term) || ContainsIgnoreCase(m.message, term)
  }

  /** The full test for a shown message: its theme matches unless the filter is "all", and
      it matches the search unless the term is empty. */
  predicate Shown(theme: string, term: string, m: ContactMessage) {
    (theme == "all" || m.theme == theme) && (term == "" || SearchHit(term, m))
  }

  function ShownTest(theme: string, term: string): ContactMessage -> bool {
    (m: ContactMessage) => Shown(theme, term, m)
  }

  function ThemeIs(theme: string): ContactMessage -> bool {
    (m: ContactMessage) => m.theme == theme
  }

  function SearchTest(term: string): ContactMessage -> bool {
    (m: ContactMessage) => SearchHit(term, m)
  }

  /** The filter step by step: start from every message, narrow by theme unless it is "all",
      then by the search unless the term is empty. The result is the one-pass filter. */
  method FilterMessages(data: seq<ContactMessage>, theme: string, term: string) returns (filtered: seq<ContactMessage>)
    ensures filtered == Filter(data, ShownTest(theme, term))
  {
    filtered := data;
    if theme != "all" {
      filtered := Filter(filtered, ThemeIs(theme));
    }
    if term != "" {
      FilterFilter(filtered, ThemeIs(theme), SearchTest(term));
      filtered := Filter(filtered, SearchTest(term));
    }
    ThemeThenSearch(data, theme, term);
  }

  lemma ThemeThenSearch(data: seq<ContactMessage>, theme: string, term: string)
    ensures theme == "all" && term == "" ==> data == Filter(data, ShownTest(theme, term))
    ensures theme != "all" && term == "" ==> Filter(data, ThemeIs(theme)) == Filter(data, ShownTest(theme, term))
    ensures theme == "all" && term != "" ==> Filter(data, SearchTest(term)) == Filter(data, ShownTest(theme, term))
    ensures theme != "all" && term != "" ==>
              Filter(Filter(data, ThemeIs(theme)), SearchTest(term)) == Filter(data, ShownTest(theme, term))
  {
    if theme == "all" && term == "" {
      FilterKeepsAll(data, ShownTest(theme, term));
    } else if term == "" {
      FilterSameOn(data, ThemeIs(theme), ShownTest(theme, term));
    } else if theme == "all" {
      FilterSameOn(data, SearchTest(term), ShownTest(theme, term));
    } else {
      FilterFilter(data, ThemeIs(theme), SearchTest(term));
      FilterSameOn(data, (x: ContactMessage) => ThemeIs(theme)(x) && SearchTest(term)(x), ShownTest(theme, term));
    }
  }

  function ThemeOf(m: ContactMessage): string {
    m.theme
  }

  /** The theme choices: every theme that occurs, once each, in first-occurrence order. */
  function UniqueThemes(data: seq<ContactMessage>): (r: seq<string>)
    ensures NoDuplicates(r)
    ensures forall t :: t in r <==> exists i :: 0 <= i < |data| && data[i].theme == t
  {
    var themes := Map(data, ThemeOf);
    assert forall t :: t in themes <==> exists i :: 0 <= i < |data| && data[i].theme == t by {
      forall t
        ensures t in themes <==> exists i :: 0 <= i < |data| && data[i].theme == t
      {
        if t in themes {
          var i :| 0 <= i < |themes| && themes[i] == t;
          assert data[i].theme == t;
        }
      }
    }
    Distinct(themes)
  }

  /** The badge colour of a theme, chosen on its lower-cased form; gray for any other theme. */
  function GetThemeColor(theme: string): (cls: string)
    ensures ToLower(theme) == "general inquiry" ==> cls == "bg-blue-100 text-blue-800 hover:bg-blue-200"
    ensures ToLower(theme) == "technical support" ==> cls == "bg-red-100 text-red-800 hover:bg-red-200"
    ensures ToLower(theme) == "partnership" ==> cls == "bg-green-100 text-green-800 hover:bg-green-200"
    ensures ToLower(theme) == "feedback" ==> cls == "bg-purple-100 text-purple-800 hover:bg-purple-200"
    ensures ToLower(theme) !in ["general inquiry", "technical support", "partnership", "feedback"]
            ==> cls == "bg-gray-100 text-gray-800 hover:bg-gray-200"
  {
    var t := ToLower(theme);
    if t == "general inquiry" then "bg-blue-100 text-blue-800 hover:bg-blue-200"
    else if t == "technical support" then "bg-red-100 text-red-800 hover:bg-red-200"
    else if t == "partnership" then "bg-green-100 text-green-800 hover:bg-green-200"
    else if t == "feedback" then "bg-purple-100 text-purple-800 hover:bg-purple-200"
    else "bg-gray-100 text-gray-800 hover:bg-gray-200"
  }

  /** A theme and its lower-cased spelling get the same badge. */
  lemma ThemeColorIgnoresCase(theme: string)
    ensures GetThemeColor(ToLower(theme)) == GetThemeColor(theme)
  {
    ToLowerIdempotent(theme);
  }

  const ContactPath := "/about/contact/"

  function NotId(id: nat): ContactMessage -> bool {
    (m: ContactMessage) => m.id != id
  }

  class ContactManagement {
    var contactData: seq<ContactMessage>
    var filteredData: seq<ContactMessage>
    var isLoading: bool
    var selectedMessage: Option<ContactMessage>
    var isDialogOpen: bool
    var searchTerm: string
    var filterTheme: string
    const client: Client

    /** What the filter effect keeps true: the shown list is the messages that pass the
        current theme filter and search. */
    predicate Consistent()
      reads this
    {
      filteredData == Filter(contactData, ShownTest(filterTheme, searchTerm))
    }

    constructor (client: Client)
      ensures this.client == client && contactData == [] && filteredData == [] && isLoading
      ensures selectedMessage == None && !isDialogOpen && searchTerm == "" && filterTheme == "all"
      ensures Consistent()
    {
      this.client := client;
      contactData := [];
      filteredData := [];
      isLoading := true;
      selectedMessage := None;
      isDialogOpen := false;
      searchTerm := "";
      filterTheme := "all";
    }

    /** The filter effect, run after the messages, the theme filter or the search change. */
    method ApplyFilters()
      modifies this
      ensures Consistent()
      ensures contactData == old(contactData) && searchTerm == old(searchTerm) && filterTheme == old(filterTheme)
      ensures selectedMessage == old(selectedMessage) && isDialogOpen == old(isDialogOpen)
    {
      filteredData := FilterMessages(contactData, filterTheme, searchTerm);
    }

    method FetchContactData(reply: Reply<seq<ContactMessage>>)
      modifies this, client
      ensures contactData == (if reply.Ok? then reply.body else old(contactData)) && !isLoading
      ensures old(Consistent()) ==> Consistent()
      ensures reply.Ok? ==> Consistent()
      ensures searchTerm == old(searchTerm) && filterTheme == old(filterTheme)
      ensures client.sent == old(client.sent) + [Request(GET, ContactPath, NoBody)]
    {
      isLoading := true;
      client.Send(Request(GET, ContactPath, NoBody));
      if reply.Ok? {
        contactData := reply.body;
        filteredData := reply.body;
        ApplyFilters();
      }
      isLoading := false;
    }

    method SetSearchTerm(term: string)
      modifies this
      ensures searchTerm == term && Consistent()
      ensures contactData == old(contactData) && filterTheme == old(filterTheme)
    {
      searchTerm := term;
      ApplyFilters();
    }

    method SetFilterTheme(theme: string)
      modifies this
      ensures filterTheme == theme && Consistent()
      ensures contactData == old(contactData) && searchTerm == old(searchTerm)
    {
      filterTheme := theme;
      ApplyFilters();
    }

    method HandleViewMessage(m: ContactMessage)
      modifies this
      ensures selectedMessage == Some(m) && isDialogOpen
      ensures contactData == old(contactData) && filteredData == old(filteredData)
    {
      selectedMessage := Some(m);
      isDialogOpen := true;
    }

    /** Delete after confirmation; an ok response drops the message from the list and the
        shown list follows. A declined or failed delete changes neither list. */
    method HandleDelete(id: nat, confirmed: bool, reply: Reply<()>)
      modifies this, client
      ensures !confirmed ==> client.sent == old(client.sent)
      ensures confirmed ==> client.sent == old(client.sent) + [Request(DELETE, ItemPath(ContactPath, id), NoBody)]
      ensures confirmed && reply.Ok? ==> contactData == Filter(old(contactData), NotId(id)) && Consistent()
      ensures !(confirmed && reply.Ok?) ==> contactData == old(contactData) && filteredData == old(filteredData)
      ensures searchTerm == old(searchTerm) && filterTheme == old(filterTheme)
    {
      if !confirmed {
        return;
      }
      client.Send(Request(DELETE, ItemPath(ContactPath, id), NoBody));
      if reply.Ok? {
        var updated := Filter(contactData, NotId(id));
        contactData := updated;
        filteredData := updated;
        ApplyFilters();
      }
    }
  }
}

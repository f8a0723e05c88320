/** The users screen: registered users with a case-insensitive search and delete. */
module UsersPage {
  import opened Common
  import opened Http

  datatype User = User(id: nat, fullName: string, email: string, image: string, isActive: string)

  /** The search: the term occurs, ignoring letter case, in the full name or the e-mail. */
  predicate SearchHit(term: string, u: User) {
    ContainsIgnoreCase(u.fullName, term) || ContainsIgnoreCase(u.email, term)
  }

  function SearchTest(term: string): User -> bool {
    (u: User) => SearchHit(term, u)
  }

  /** The shown users: every user for an empty term, else those that match, in list order. */
  function Shown(users: seq<User>, term: string): (r: seq<User>)
    ensures term == "" ==> r == users
    ensures term != "" ==>
              (forall k :: 0 <= k < |r| ==> r[k] in users && SearchHit(term, r[k]))
              && (forall i :: 0 <= i < |users| && SearchHit(term, users[i]) ==> users[i] in r)
  {
    if term == "" then users else Filter(users, SearchTest(term))
  }

  /** The search keeps the list's order: on two concatenated lists it is the search on each. */
  lemma ShownAppend(a: seq<User>, b: seq<User>, term: string)
    ensures Shown(a + b, term) == Shown(a, term) + Shown(b, term)
  {
    if term != "" {
      FilterAppend(a, b, SearchTest(term));
    }
  }

  /** Every user matches the empty term by substring, so an empty search hides no one even
      read as a filter. */
  lemma EmptyTermMatchesAll(users: seq<User>)
    ensures Filter(users, SearchTest("")) == users
  {
    forall i | 0 <= i < |users|
      ensures SearchHit("", users[i])
    {
      ContainsEmpty(ToLower(users[i].fullName));
    }
    FilterKeepsAll(users, SearchTest(""));
  }

  const UsersPath := "/user"
  const UserPrefix := "/user/"

  function NotId(id: nat): User -> bool {
    (u: User) => u.id != id
  }

  class UserManagement {
    var userData: seq<User>
    var filteredData: seq<User>
    var isLoading: bool
    var selectedUser: Option<User>
    var isDialogOpen: bool
    var searchTerm: string
    const client: Client

    /** What the search effect keeps true. */
    predicate Consistent()
      reads this
    {
      filteredData == Shown(userData, searchTerm)
    }

    constructor (client: Client)
      ensures this.client == client && userData == [] && filteredData == [] && isLoading
      ensures selectedUser == None && !isDialogOpen && searchTerm == "" && Consistent()
    {
      this.client := client;
      userData := [];
      filteredData := [];
      isLoading := true;
      selectedUser := None;
      isDialogOpen := false;
      searchTerm := "";
    }

    /** The search effect, run after the users or the term change: start from every user and
        narrow by the search unless the term is empty. */
    method ApplySearch()
      modifies this
      ensures Consistent()
      ensures userData == old(userData) && searchTerm == old(searchTerm)
      ensures selectedUser == old(selectedUser) && isDialogOpen == old(isDialogOpen)
    {
      var filtered := userData;
      if searchTerm != "" {
        filtered := Filter(filtered, SearchTest(searchTerm));
      }
      filteredData := filtered;
    }

    method FetchUserData(reply: Reply<seq<User>>)
      modifies this, client
      ensures userData == (if reply.Ok? then reply.body else old(userData)) && !isLoading
      ensures old(Consistent()) ==> Consistent()
      ensures reply.Ok? ==> Consistent()
      ensures searchTerm == old(searchTerm)
      ensures client.sent == old(client.sent) + [Request(GET, UsersPath, NoBody)]
    {
      isLoading := true;
      client.Send(Request(GET, UsersPath, NoBody));
      if reply.Ok? {
        userData := reply.body;
        filteredData := reply.body;
        ApplySearch();
      }
      isLoading := false;
    }

    method SetSearchTerm(term: string)
      modifies this
      ensures searchTerm == term && Consistent() && userData == old(userData)
    {
      searchTerm := term;
      ApplySearch();
    }

    method HandleViewUser(u: User)
      modifies this
      ensures selectedUser == Some(u) && isDialogOpen
      ensures userData == old(userData) && filteredData == old(filteredData)
    {
      selectedUser := Some(u);
      isDialogOpen := true;
    }

    /** Delete after confirmation; an ok response drops the user from the list and the shown
        list follows. A declined or failed delete changes neither list. */
    method HandleDelete(id: nat, confirmed: bool, reply: Reply<()>)
      modifies this, client
      ensures !confirmed ==> client.sent == old(client.sent)
      ensures confirmed ==> client.sent == old(client.sent) + [Request(DELETE, ItemPath(UserPrefix, id), NoBody)]
      ensures confirmed && reply.Ok? ==> userData == Filter(old(userData), NotId(id)) && Consistent()
      ensures !(confirmed && reply.Ok?) ==> userData == old(userData) && filteredData == old(filteredData)
      ensures searchTerm == old(searchTerm)
    {
      if !confirmed {
        return;
      }
      client.Send(Request(DELETE, ItemPath(UserPrefix, id), NoBody));
      if reply.Ok? {
        var updated := Filter(userData, NotId(id));
        userData := updated;
        filteredData := updated;
        ApplySearch();
      }
    }
  }
}

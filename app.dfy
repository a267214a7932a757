/** The application shell: the path table, the header and the signed-in user. */
module App {
  import opened Wrappers
  import opened Types
  import opened Session
  import opened ProtectedRoute

  /** The paths behind the guard and the page each one shows. */
  function GuardedPage(path: string): (r: Option<Page>)
    ensures r.Some? <==> path in ["/", "/results", "/booking", "/confirmation", "/my-bookings"]
    ensures r != Some(SignupPage) && r != Some(SigninPage)
  {
    if path == "/" then Some(SearchPage)
    else if path == "/results" then Some(ResultsPage)
    else if path == "/booking" then Some(BookingPage)
    else if path == "/confirmation" then Some(ConfirmationPage)
    else if path == "/my-bookings" then Some(MyBookingsPage)
    else None
  }

  /** What the router renders at `path` while `token` is stored. */
  function Resolve(path: string, token: Option<string>): (r: Element)
    ensures r.Redirect? ==> r == Redirect("/signin", true)
    ensures r.Render? ==> path == "/signup" || path == "/signin" || Truthy(token)
    ensures r.Render? && r.page != SignupPage && r.page != SigninPage ==> GuardedPage(path) == Some(r.page)
  {
    if path == "/signup" then Render(SignupPage)
    else if path == "/signin" then Render(SigninPage)
    else match GuardedPage(path)
      case Some(page) => Guard(token, page)
      case None => Redirect("/signin", true)
  }

  /** '/signup' and '/signin' render whatever is stored. */
  lemma OpenPaths(token: Option<string>)
    ensures Resolve("/signup", token) == Render(SignupPage)
    ensures Resolve("/signin", token) == Render(SigninPage)
  {
  }

  /** Each of the five journey paths renders its page exactly when a non-empty token is stored. */
  lemma GuardedPaths(token: Option<string>)
    ensures Resolve("/", token) == Guard(token, SearchPage)
    ensures Resolve("/results", token) == Guard(token, ResultsPage)
    ensures Resolve("/booking", token) == Guard(token, BookingPage)
    ensures Resolve("/confirmation", token) == Guard(token, ConfirmationPage)
    ensures Resolve("/my-bookings", token) == Guard(token, MyBookingsPage)
    ensures forall p :: GuardedPage(p).Some? ==> (Resolve(p, token).Render? <==> Truthy(token))
  {
  }

  /** Any other path redirects to '/signin' with replace. */
  lemma UnknownPathsRedirect(path: string, token: Option<string>)
    requires path != "/signup" && path != "/signin" && GuardedPage(path).None?
    ensures Resolve(path, token) == Redirect("/signin", true)
  {
  }

  /** Without a credential every path but '/signup' ends on the sign-in page. */
  lemma SignedOutEndsAtSignin(path: string, token: Option<string>)
    requires !Truthy(token) && path != "/signup"
    ensures Resolve(path, token) == Render(SigninPage) || Resolve(path, token) == Redirect("/signin", true)
  {
  }

  /** The header's content. */
  datatype Header = Header(titleLinksHome: bool, links: seq<string>, email: Option<string>, logoutButton: bool)

  /** The header for the user state; the stored token plays no part. */
  function HeaderFor(user: Option<User>): (h: Header)
    ensures user.Some? <==> h.logoutButton
    ensures user.Some? ==> h == Header(true, ["/my-bookings", "/"], Some(user.value.email), true)
    ensures user.None? ==> h == Header(false, ["/signin", "/signup"], None, false)
  {
    match user
    case Some(u) => Header(true, ["/my-bookings", "/"], Some(u.email), true)
    case None => Header(false, ["/signin", "/signup"], None, false)
  }

  /** The header and the guard can disagree: signed-out links while a stored token opens the search page. */
  lemma HeaderAndGuardDisagree(token: string)
    requires token != ""
    ensures HeaderFor(None).links == ["/signin", "/signup"]
    ensures Resolve("/", Some(token)) == Render(SearchPage)
  {
  }

  /** What `JSON.parse` makes of the stored user text. */
  datatype ParseResult = Parsed(user: Option<User>) | Malformed

  class Shell {
    var user: Option<User>
    const storage: LocalStorage

    constructor (storage: LocalStorage)
      ensures user == None && this.storage == storage
    {
      user := None;
      this.storage := storage;
    }

    /** The header the shell draws for the user it holds. */
    function Header(): (h: Header)
      reads this
      ensures h.logoutButton <==> user.Some?
    {
      HeaderFor(user)
    }

    /**
     * The mount effect, with `parsed` the outcome of parsing the stored user:
     * with no stored user nothing changes; a malformed one removes both keys.
     */
    method Mount(parsed: ParseResult)
      modifies this, storage
      ensures !Truthy(old(storage.StoredUser())) ==> user == old(user) && storage.items == old(storage.items)
      ensures Truthy(old(storage.StoredUser())) && parsed.Parsed? ==>
                user == parsed.user && storage.items == old(storage.items) && Header() == HeaderFor(parsed.user)
      ensures Truthy(old(storage.StoredUser())) && parsed.Malformed? ==>
                user == old(user) && storage.items == old(storage.items) - {UserKey, TokenKey}
    {
      var stored := storage.GetItem(UserKey);
      if stored.Some? && stored.value != "" {
        match parsed {
          case Parsed(u) =>
            user := u;
          case Malformed =>
            storage.RemoveItem(UserKey);
            storage.RemoveItem(TokenKey);
        }
      }
    }

    /** `handleLogout`: both keys removed, the user forgotten. */
    method HandleLogout()
      modifies this, storage
      ensures user == None
      ensures storage.items == old(storage.items) - {TokenKey, UserKey}
      ensures storage.Token() == None && storage.StoredUser() == None
      ensures Header() == HeaderFor(None) && Header().links == ["/signin", "/signup"] && !Header().logoutButton
    {
      storage.RemoveItem(TokenKey);
      storage.RemoveItem(UserKey);
      user := None;
    }
  }
}

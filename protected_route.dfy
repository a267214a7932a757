/** The route guard: a page behind it renders only while a credential is stored. */
module ProtectedRoute {
  import opened Wrappers
  import opened Types
  import opened Session

  /** The pages the router can render. */
  datatype Page = SignupPage | SigninPage | SearchPage | ResultsPage | BookingPage | ConfirmationPage | MyBookingsPage

  /** What a route renders: a page, or a `<Navigate>` redirect. */
  datatype Element = Render(page: Page) | Redirect(to: string, replace: bool)

  /**
   * The guard's decision for the stored `token`: a missing or empty token
   * redirects to '/signin' with replace; any other token renders the page, its
   * contents unchecked.
   */
  function Guard(token: Option<string>, child: Page): (e: Element)
    ensures e.Render? <==> Truthy(token)
    ensures e.Render? ==> e.page == child
    ensures e.Redirect? ==> e == Redirect("/signin", true)
  {
    if !Truthy(token) then Redirect("/signin", true) else Render(child)
  }

  /** The guard as a component: it reads the stored token and changes no storage. */
  method Check(storage: LocalStorage, child: Page) returns (e: Element)
    ensures e == Guard(storage.Token(), child)
  {
    var token := storage.GetItem(TokenKey);
    if token.None? || token.value == "" {
      return Redirect("/signin", true);
    }
    return Render(child);
  }

  /** Only presence matters: two non-empty tokens, whatever their text, decide alike. */
  lemma GuardIgnoresTokenText(t1: string, t2: string, child: Page)
    requires t1 != "" && t2 != ""
    ensures Guard(Some(t1), child) == Guard(Some(t2), child) == Render(child)
  {
  }
}

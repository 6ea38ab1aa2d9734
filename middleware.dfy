/**
 * The request middleware: paths under six public prefixes pass straight
 * through; every other path needs a session and is otherwise sent to
 * the login page.
 */
module Middleware {

  const PublicPrefixes: seq<string> :=
    ["/login", "/api/auth", "/api/stripe/webhook", "/payment", "/liff", "/api/liff"]

  /** `isPublicPath`: a plain string-prefix test, not a path-segment one. */
  predicate IsPublicPath(pathname: string) {
    || "/login" <= pathname
    || "/api/auth" <= pathname
    || "/api/stripe/webhook" <= pathname
    || "/payment" <= pathname
    || "/liff" <= pathname
    || "/api/liff" <= pathname
  }

  /** The public-path test agrees with the prefix list. */
  lemma PublicMeansListedPrefix(pathname: string)
    ensures IsPublicPath(pathname) <==> exists i :: 0 <= i < |PublicPrefixes| && PublicPrefixes[i] <= pathname
  {
    if IsPublicPath(pathname) {
      if "/login" <= pathname { assert PublicPrefixes[0] <= pathname; }
      else if "/api/auth" <= pathname { assert PublicPrefixes[1] <= pathname; }
      else if "/api/stripe/webhook" <= pathname { assert PublicPrefixes[2] <= pathname; }
      else if "/payment" <= pathname { assert PublicPrefixes[3] <= pathname; }
      else if "/liff" <= pathname { assert PublicPrefixes[4] <= pathname; }
      else { assert PublicPrefixes[5] <= pathname; }
    }
  }

  /** What the session lookup gives: no session, a session, or an exception. */
  datatype AuthLookup = NoSession | SignedIn | Fails

  datatype Decision = Next | RedirectTo(path: string)

  /**
   * `middleware`, as written: the branch that sends a signed-in visitor
   * of "/login" to "/dashboard", and the one that lets "/login" through
   * when the lookup fails, both follow the public-path test that already
   * let every "/login..." path through.
   */
  function Decide(pathname: string, lookup: AuthLookup): (d: Decision)
    ensures IsPublicPath(pathname) ==> d == Next
    ensures !IsPublicPath(pathname) ==> (d == Next <==> lookup == SignedIn)
    ensures d != Next ==> d == RedirectTo("/login")
  {
    if IsPublicPath(pathname) then Next
    else match lookup
      case NoSession => RedirectTo("/login")
      case SignedIn => if pathname == "/login" then RedirectTo("/dashboard") else Next
      case Fails => if pathname != "/login" then RedirectTo("/login") else Next
  }

  /** Public paths are decided without the session lookup. */
  lemma PublicIgnoresLookup(pathname: string, a: AuthLookup, b: AuthLookup)
    requires IsPublicPath(pathname)
    ensures Decide(pathname, a) == Decide(pathname, b)
  {
  }

  /** The prefix test is not segment-aware: "/liffx" and "/payments-x" are public. */
  lemma PrefixNotSegment()
    ensures IsPublicPath("/liffx") && IsPublicPath("/payments-x") && IsPublicPath("/loginpage")
    ensures !IsPublicPath("/dashboard") && !IsPublicPath("/api/cases")
  {
    assert "/liff" <= "/liffx";
    assert "/payment" <= "/payments-x";
    assert "/login" <= "/loginpage";
    assert "/dashboard"[1] == 'd' && "/api/cases"[5] == 'c';
  }

  /**
   * As written, a signed-in visitor of "/login" is let through to the
   * login page instead of being sent to "/dashboard".
   */
  lemma LoginNotRedirectedAsWritten()
    ensures Decide("/login", SignedIn) == Next
  {
    assert "/login" <= "/login";
  }

  /**
   * The evident intent: "/login" with a session goes to "/dashboard";
   * every other request is decided as before.
   */
  function DecideAsIntended(pathname: string, lookup: AuthLookup): (d: Decision)
    ensures pathname == "/login" && lookup == SignedIn ==> d == RedirectTo("/dashboard")
    ensures pathname == "/login" && lookup != SignedIn ==> d == Next
    ensures pathname != "/login" ==> d == Decide(pathname, lookup)
  {
    if pathname == "/login" then
      if lookup == SignedIn then RedirectTo("/dashboard") else Next
    else Decide(pathname, lookup)
  }
}

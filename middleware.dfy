/**
 * The request middleware: signed-in users are sent away from the login
 * and sign-up pages, signed-out users away from the account area, and the
 * middleware only runs on the paths its matcher lists.
 */
module Middleware {
  import opened Text

  datatype Decision = Next | RedirectTo(path: string)

  /** `config.matcher`: `/login`, `/signup` and `/account/:path*` (`/account` itself included). */
  predicate Matched(path: string) {
    path == "/login" || path == "/signup" || path == "/account" || StartsWith(path, "/account/")
  }

  /** `middleware(request)`, given whether `getUser()` found a user. */
  function Decide(signedIn: bool, path: string): (d: Decision)
    ensures d == RedirectTo("/account") <==> signedIn && (path == "/login" || path == "/signup")
    ensures d == RedirectTo("/login") <==> !signedIn && StartsWith(path, "/account")
    ensures d == Next <==> !(signedIn && (path == "/login" || path == "/signup")) && !(!signedIn && StartsWith(path, "/account"))
  {
    if signedIn && (path == "/login" || path == "/signup") then RedirectTo("/account")
    else if !signedIn && StartsWith(path, "/account") then RedirectTo("/login")
    else Next
  }

  /** What a request meets: the middleware's decision on matched paths, pass-through elsewhere. */
  function Route(signedIn: bool, path: string): (d: Decision)
    ensures !Matched(path) ==> d == Next
  {
    if Matched(path) then Decide(signedIn, path) else Next
  }

  /** The two redirects never apply to the same request. */
  lemma RedirectsExclusive(signedIn: bool, path: string)
    ensures !((signedIn && (path == "/login" || path == "/signup")) && (!signedIn && StartsWith(path, "/account")))
  {
  }

  /** Every matched account path turns away a signed-out user. */
  lemma AccountAreaGuarded(path: string)
    requires Matched(path) && path != "/login" && path != "/signup"
    ensures Route(false, path) == RedirectTo("/login")
  {
    if path == "/account" {
      assert path[..8] == "/account";
    } else {
      assert path[..9] == "/account/";
      assert path[..8] == "/account/"[..8];
    }
  }

  /** A redirect's target is served without a further redirect for the same user. */
  lemma NoRedirectLoop(signedIn: bool, path: string)
    requires Route(signedIn, path).RedirectTo?
    ensures Matched(Route(signedIn, path).path)
    ensures Route(signedIn, Route(signedIn, path).path) == Next
  {
    if signedIn {
      assert Route(signedIn, path).path == "/account";
    } else {
      assert !StartsWith("/login", "/account");
    }
  }

  /** A page outside the matcher whose path merely begins with `/account` is not guarded. */
  lemma AccountLookalikeUnguarded()
    ensures Decide(false, "/accounting") == RedirectTo("/login")
    ensures Route(false, "/accounting") == Next
  {
    assert "/accounting"[..8] == "/account";
    assert "/accounting"[..9][8] != "/account/"[8];
  }
}

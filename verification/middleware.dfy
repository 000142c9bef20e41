/** The edge middleware (src/middleware.ts): decides, from the JWT, its role
    and the request path, whether a page request is redirected to the
    sign-in page, redirected to the dashboard, or let through. */
module Middleware {
  import opened Common

  /** The decoded next-auth JWT; only its role matters here. */
  datatype Token = Token(role: Option<string>)

  /** The three things the middleware can do with a request. */
  datatype Decision = RedirectToSignIn | RedirectToDashboard | Continue

  /** `pathname.startsWith(prefix)`: a raw string prefix, not a path segment. */
  predicate StartsWith(path: string, prefix: string) {
    prefix <= path
  }

  /** Areas a visitor without a token is sent to sign in for. */
  predicate NeedsSignIn(path: string) {
    StartsWith(path, "/profile") || StartsWith(path, "/dashboard") || StartsWith(path, "/admin")
  }

  /** Pages a signed-in user is sent away from. */
  predicate IsAuthPage(path: string) {
    StartsWith(path, "/auth/sign-in") || StartsWith(path, "/auth/sign-up")
    || StartsWith(path, "/verify") || path == "/"
  }

  /** The decision for one request. A signed-in user is never sent to sign
      in, and a visitor without a token is never sent to the dashboard. */
  function Decide(token: Option<Token>, path: string): (d: Decision)
    ensures token.Some? ==> d != RedirectToSignIn
    ensures token.None? ==> d != RedirectToDashboard
  {
    if token.None? then
      if NeedsSignIn(path) then RedirectToSignIn else Continue
    else if IsAuthPage(path) then RedirectToDashboard
    else if StartsWith(path, "/admin") && token.value.role != Some("admin") then RedirectToDashboard
    else if StartsWith(path, "/rider") && token.value.role != Some("rider") then RedirectToDashboard
    else Continue
  }

  /** Without a token, exactly the profile, dashboard and admin areas redirect
      to sign in; every other path is let through. */
  lemma SignedOutRedirectsExactlyProtectedAreas(path: string)
    ensures Decide(None, path) == RedirectToSignIn <==> NeedsSignIn(path)
    ensures Decide(None, path) == Continue <==> !NeedsSignIn(path)
  {
  }

  /** Without a token the rider area, the auth pages and the home page pass. */
  lemma SignedOutPublicPathsPass(rest: string)
    ensures Decide(None, "/rider" + rest) == Continue
    ensures Decide(None, "/auth/" + rest) == Continue
    ensures Decide(None, "/") == Continue
  {
    var r := "/rider" + rest;
    assert r[1] == 'r';
    assert !StartsWith(r, "/profile") && !StartsWith(r, "/dashboard") && !StartsWith(r, "/admin") by {
      assert "/profile"[1] == 'p' && "/dashboard"[1] == 'd' && "/admin"[1] == 'a';
    }
    var a := "/auth/" + rest;
    assert a[1] == 'a' && a[2] == 'u';
    assert !StartsWith(a, "/profile") && !StartsWith(a, "/dashboard") && !StartsWith(a, "/admin") by {
      assert "/profile"[1] == 'p' && "/dashboard"[1] == 'd' && "/admin"[2] == 'd';
    }
  }

  /** With a token, the sign-in, sign-up, verify and home pages redirect to
      the dashboard, whatever the role. */
  lemma SignedInLeavesAuthPages(token: Token, path: string)
    requires IsAuthPage(path)
    ensures Decide(Some(token), path) == RedirectToDashboard
  {
  }

  /** An admin-area path that is not itself an auth page. */
  lemma AdminPathIsNotAuthPage(path: string)
    requires StartsWith(path, "/admin")
    ensures !IsAuthPage(path) && !StartsWith(path, "/rider")
  {
    assert path[1] == 'a' && path[2] == 'd';
    assert "/auth/sign-in"[2] == 'u' && "/auth/sign-up"[2] == 'u';
    assert "/verify"[1] == 'v' && "/rider"[1] == 'r';
    assert |path| >= 6;
  }

  /** A rider-area path is neither an auth page nor in the admin area. */
  lemma RiderPathIsNotAuthPage(path: string)
    requires StartsWith(path, "/rider")
    ensures !IsAuthPage(path) && !StartsWith(path, "/admin")
  {
    assert path[1] == 'r';
    assert "/auth/sign-in"[1] == 'a' && "/auth/sign-up"[1] == 'a';
    assert "/verify"[1] == 'v' && "/admin"[1] == 'a';
    assert |path| >= 6;
  }

  /** With a token, the admin area redirects to the dashboard exactly when the
      role is not "admin"; a token without a role counts as not admin. */
  lemma AdminAreaNeedsAdminRole(token: Token, path: string)
    requires StartsWith(path, "/admin")
    ensures Decide(Some(token), path) == RedirectToDashboard <==> token.role != Some("admin")
    ensures Decide(Some(token), path) == Continue <==> token.role == Some("admin")
  {
    AdminPathIsNotAuthPage(path);
  }

  /** With a token, the rider area redirects to the dashboard exactly when the
      role is not "rider", so admins are bounced from it too. */
  lemma RiderAreaNeedsRiderRole(token: Token, path: string)
    requires StartsWith(path, "/rider")
    ensures Decide(Some(token), path) == RedirectToDashboard <==> token.role != Some("rider")
  {
    RiderPathIsNotAuthPage(path);
  }

  /** With a token, any other path is let through. */
  lemma SignedInOtherPathsPass(token: Token, path: string)
    requires !IsAuthPage(path) && !StartsWith(path, "/admin") && !StartsWith(path, "/rider")
    ensures Decide(Some(token), path) == Continue
  {
  }

  /** The decision function matches by raw prefix: anything appended to
      "/admin" is treated like "/admin" itself, so "/administrator" is
      guarded as the admin area whenever the decision is asked for it. (The
      matcher never asks: see AdministratorIsServed.) */
  lemma {:induction false} AdminPrefixIsNotASegment(token: Option<Token>, rest: string)
    ensures Decide(token, "/admin" + rest) == Decide(token, "/admin")
    ensures Decide(token, "/administrator") == Decide(token, "/admin")
  {
    var p := "/admin" + rest;
    assert StartsWith(p, "/admin");
    assert StartsWith("/admin", "/admin");
    assert StartsWith("/administrator", "/admin");
    AdminPathIsNotAuthPage(p);
    AdminPathIsNotAuthPage("/admin");
    AdminPathIsNotAuthPage("/administrator");
  }

  /** Likewise the decision guards "/profiles" like "/profile". */
  lemma {:induction false} ProfilePrefixIsNotASegment(token: Option<Token>, rest: string)
    ensures Decide(token, "/profile" + rest) == Decide(token, "/profile")
  {
    var p := "/profile" + rest;
    assert StartsWith(p, "/profile") && StartsWith("/profile", "/profile");
    assert p[1] == 'p';
    assert !IsAuthPage(p) && !StartsWith(p, "/admin") && !StartsWith(p, "/rider") by {
      assert "/auth/sign-in"[1] == 'a' && "/auth/sign-up"[1] == 'a' && "/verify"[1] == 'v';
      assert "/admin"[1] == 'a' && "/rider"[1] == 'r';
      assert |p| > 1;
    }
    assert !IsAuthPage("/profile") && !StartsWith("/profile", "/admin") && !StartsWith("/profile", "/rider") by {
      assert "/profile"[1] == 'p';
      assert "/auth/sign-in"[1] == 'a' && "/auth/sign-up"[1] == 'a' && "/verify"[1] == 'v';
      assert "/admin"[1] == 'a' && "/rider"[1] == 'r';
    }
  }

  /** A path-to-regexp pattern `base/:path*`: the base itself, or the base
      followed by a slash and anything. */
  predicate UnderSegment(path: string, base: string) {
    path == base || base + "/" <= path
  }

  /** The paths `config.matcher` runs the middleware on. */
  predicate Matched(path: string) {
    path == "/" || UnderSegment(path, "/auth") || UnderSegment(path, "/verify")
    || UnderSegment(path, "/profile") || UnderSegment(path, "/dashboard")
    || UnderSegment(path, "/admin") || UnderSegment(path, "/rider")
  }

  /** A request as the application sees it: paths outside the matcher never
      reach the middleware and are served as they are. */
  function Handle(token: Option<Token>, path: string): (d: Decision)
    ensures !Matched(path) ==> d == Continue
    ensures token.Some? ==> d != RedirectToSignIn
    ensures token.None? ==> d != RedirectToDashboard
  {
    if Matched(path) then Decide(token, path) else Continue
  }

  /** The matcher hides the raw-prefix test: "/administrator" starts with
      "/admin" but is never matched, so it is served to anyone. */
  lemma AdministratorIsServed(token: Option<Token>)
    ensures Handle(token, "/administrator") == Continue
    ensures Handle(None, "/admin") == RedirectToSignIn
  {
    var p := "/administrator";
    assert !Matched(p) by {
      assert p[1] == 'a' && p[2] == 'd' && p[6] == 'i' && |p| == 14;
      assert ("/admin" + "/")[6] == '/';
      assert !(("/admin" + "/") <= p) by {
        assert p[6] != ("/admin" + "/")[6];
      }
      assert !UnderSegment(p, "/auth") by {
        assert ("/auth" + "/")[2] == 'u';
      }
      assert !UnderSegment(p, "/verify") && !UnderSegment(p, "/profile") && !UnderSegment(p, "/dashboard")
        && !UnderSegment(p, "/rider") by {
        assert ("/verify" + "/")[1] == 'v' && ("/profile" + "/")[1] == 'p';
        assert ("/dashboard" + "/")[1] == 'd' && ("/rider" + "/")[1] == 'r';
      }
    }
    assert Matched("/admin");
    assert NeedsSignIn("/admin") by {
      assert StartsWith("/admin", "/admin");
    }
  }

  /** Among the paths the middleware runs on, starting with "/admin" means
      being the admin area itself or below it: the prefix test only ever
      sees whole path segments. */
  lemma MatchedAdminPathIsAdminArea(path: string)
    requires Matched(path) && StartsWith(path, "/admin")
    ensures UnderSegment(path, "/admin")
  {
    assert path[1] == 'a' && path[2] == 'd' && |path| >= 6;
    assert path != "/";
    assert !UnderSegment(path, "/auth") by {
      assert ("/auth" + "/")[2] == 'u' && "/auth"[2] == 'u';
    }
    assert !UnderSegment(path, "/verify") && !UnderSegment(path, "/profile") && !UnderSegment(path, "/dashboard")
      && !UnderSegment(path, "/rider") by {
      assert ("/verify" + "/")[1] == 'v' && ("/profile" + "/")[1] == 'p';
      assert ("/dashboard" + "/")[1] == 'd' && ("/rider" + "/")[1] == 'r';
      assert "/verify"[1] == 'v' && "/profile"[1] == 'p' && "/dashboard"[1] == 'd' && "/rider"[1] == 'r';
    }
  }
}

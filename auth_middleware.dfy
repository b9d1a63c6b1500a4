/** middleware/auth.global.ts: the route guard that runs before every navigation and
    decides whether to let it through or to redirect it to a sign-in page. */
module AuthMiddleware {
  import opened Common
  import opened Strings
  import opened UseAuth

  /** The characters `encodeURIComponent` leaves as they are. */
  predicate Unreserved(c: char) {
    ('A' <= c <= 'Z') || ('a' <= c <= 'z') || ('0' <= c <= '9')
    || c == '-' || c == '_' || c == '.' || c == '!' || c == '~' || c == '*' || c == '\'' || c == '(' || c == ')'
  }

  const HexDigits := "0123456789ABCDEF"

  /** `%XY` for one byte. */
  function PercentByte(b: nat): (r: string)
    requires b < 256
    ensures |r| == 3 && r[0] == '%' && Unreserved(r[1]) && Unreserved(r[2])
  {
    ['%', HexDigits[b / 16], HexDigits[b % 16]]
  }

  /** The UTF-8 bytes of a code point. */
  function Utf8(c: char): (r: seq<nat>)
    ensures 1 <= |r| <= 4 && forall i :: 0 <= i < |r| ==> r[i] < 256
  {
    var n := c as int;
    if n < 0x80 then [n]
    else if n < 0x800 then [0xC0 + n / 64, 0x80 + n % 64]
    else if n < 0x10000 then [0xE0 + n / 4096, 0x80 + (n / 64) % 64, 0x80 + n % 64]
    else [0xF0 + n / 262144, 0x80 + (n / 4096) % 64, 0x80 + (n / 64) % 64, 0x80 + n % 64]
  }

  function PercentBytes(bs: seq<nat>): (r: string)
    requires forall i :: 0 <= i < |bs| ==> bs[i] < 256
    ensures |r| == 3 * |bs|
    ensures forall i :: 0 <= i < |r| ==> Unreserved(r[i]) || r[i] == '%'
    decreases |bs|
  {
    if bs == [] then "" else PercentByte(bs[0]) + PercentBytes(bs[1..])
  }

  /** One character, kept or percent-encoded. */
  function EncodeChar(c: char): (r: string)
    ensures Unreserved(c) ==> r == [c]
    ensures !Unreserved(c) ==> r == PercentBytes(Utf8(c)) && r[0] == '%'
  {
    if Unreserved(c) then [c] else PercentBytes(Utf8(c))
  }

  /** encodeURIComponent. (Lone surrogates, which make it throw, are not characters
      here.) */
  function EncodeUriComponent(s: string): (r: string)
    ensures forall i :: 0 <= i < |r| ==> Unreserved(r[i]) || r[i] == '%'
    decreases |s|
  {
    if s == [] then "" else EncodeChar(s[0]) + EncodeUriComponent(s[1..])
  }

  /** A string of unreserved characters is left as it is. */
  lemma {:induction false} EncodeKeepsUnreserved(s: string)
    requires forall i :: 0 <= i < |s| ==> Unreserved(s[i])
    ensures EncodeUriComponent(s) == s
    decreases |s|
  {
    if s != [] {
      EncodeKeepsUnreserved(s[1..]);
      assert s == [s[0]] + s[1..];
    }
  }

  /** The encoded path cannot end the redirect parameter or start another one. */
  lemma EncodedIsOneParameter(s: string)
    ensures var e := EncodeUriComponent(s); forall i :: 0 <= i < |e| ==> e[i] != '&' && e[i] != '#' && e[i] != '=' && e[i] != '?'
  {
    var e := EncodeUriComponent(s);
    forall i | 0 <= i < |e| ensures e[i] != '&' && e[i] != '#' && e[i] != '=' && e[i] != '?' {
      NotADelimiter(e[i]);
    }
  }

  lemma NotADelimiter(c: char)
    requires Unreserved(c) || c == '%'
    ensures c != '&' && c != '#' && c != '=' && c != '?'
  {
  }

  lemma EncodeSlash()
    ensures EncodeChar('/') == "%2F"
  {
    assert Utf8('/') == [47];
  }

  /** The target route: its path, its full path (with query and hash), and whether
      its page declares `requiresAuth`. */
  datatype Route = Route(path: string, fullPath: string, requiresAuth: bool)

  /** The routes the guard never redirects, to avoid redirect loops. */
  predicate IsPublic(path: string) {
    path == "/auth-loading" || StartsWith(path, "/auth") || path == "/"
  }

  /** The condition of the administrator checks. */
  predicate NotAdmin(a: AuthState) {
    !a.isAuthenticated || a.user.None? || a.user.value.role != Some("ADMIN")
  }

  function AdminCheckRedirect(to: Route): string {
    "/auth-loading?redirect=" + EncodeUriComponent(to.fullPath)
  }

  function LoginRedirect(to: Route): string {
    "/auth?form=login&redirect=" + EncodeUriComponent(to.fullPath)
  }

  /** The middleware: `None` lets the navigation through, `Some(t)` navigates to `t`. */
  function Guard(to: Route, a: AuthState): (r: Option<string>)
    ensures IsPublic(to.path) ==> r.None?
    ensures r.Some? ==> StartsWith(r.value, "/auth")
  {
    if IsPublic(to.path) then None
    else if StartsWith(to.path, "/admin") && NotAdmin(a) then Some(AdminCheckRedirect(to))
    else if StartsWith(to.path, "/form") && NotAdmin(a) then Some(AdminCheckRedirect(to))
    else if to.requiresAuth && !a.isAuthenticated then Some(LoginRedirect(to))
    else None
  }

  /** '/', '/auth-loading' and every path starting with '/auth' (so '/authors' as well)
      pass, whoever navigates. */
  lemma PublicPaths(a: AuthState, fullPath: string, requiresAuth: bool)
    ensures Guard(Route("/", fullPath, requiresAuth), a).None?
    ensures Guard(Route("/auth-loading", fullPath, requiresAuth), a).None?
    ensures Guard(Route("/authors", fullPath, requiresAuth), a).None?
  {
    assert StartsWith("/authors", "/auth");
  }

  /** Administration and form pages are for administrators only: anyone else is sent
      to the verification page, with the requested full path as `redirect`. */
  lemma AdminAreas(to: Route, a: AuthState)
    requires !IsPublic(to.path) && (StartsWith(to.path, "/admin") || StartsWith(to.path, "/form"))
    ensures Guard(to, a) == Some(AdminCheckRedirect(to)) <==> !IsAdmin(a)
    ensures IsAdmin(a) ==> Guard(to, a).None? || Guard(to, a) == Some(LoginRedirect(to))
  {
  }

  /** The middleware's administrator test is the `isAdmin` flag of useAuth. */
  lemma NotAdminIsNotIsAdmin(a: AuthState)
    ensures NotAdmin(a) <==> !IsAdmin(a)
  {
  }

  /** Elsewhere, a page that requires authentication sends an anonymous visitor to the
      login form; everything else passes. */
  lemma OtherPages(to: Route, a: AuthState)
    requires !IsPublic(to.path) && !StartsWith(to.path, "/admin") && !StartsWith(to.path, "/form")
    ensures Guard(to, a) == (if to.requiresAuth && !a.isAuthenticated then Some(LoginRedirect(to)) else None)
  {
  }

  /** An authenticated administrator is never redirected. */
  lemma AdminPassesEverywhere(to: Route, a: AuthState)
    requires IsAdmin(a)
    ensures Guard(to, a).None?
  {
  }

  /** A redirect never leads to a redirect: the targets' paths start with '/auth'. */
  lemma NoRedirectLoop(to: Route, a: AuthState, targetPath: string, b: AuthState, requiresAuth: bool)
    requires Guard(to, a).Some? && targetPath <= Guard(to, a).value && |targetPath| >= 5
    ensures Guard(Route(targetPath, Guard(to, a).value, requiresAuth), b).None?
  {
    var t := Guard(to, a).value;
    assert t[..5] == "/auth";
    assert targetPath[..5] == t[..5];
  }
}

/** The request middleware of middleware.ts: the session refresh every
    matched request goes through, and the admin gate in front of the
    `/config` pages. The session refresh and the role lookup are calls the
    model does not see into; their outcomes are parameters. */
module Middleware {
  import opened Basics

  /** What the admin check ends in: `createClient()` throws before any
      query is made, the `users` role lookup through `.single()` throws,
      reports an error, finds no row, or finds a row with a role. */
  datatype AdminCheck = ClientThrew | Threw | LookupError | NoRow | RoleRow(role: string)

  /** The calls the middleware makes, in order. */
  datatype Call = UpdateSession | LookupRole

  /** The response: the one `updateSession` built, or a redirect to '/'. */
  datatype Response = SessionResponse | RedirectHome

  datatype Run = Run(calls: seq<Call>, response: Response)

  const ConfigPrefix := "/config"

  /** `middleware(request)` for a request to `path`; `check` is consulted
      only when the path is gated. */
  function Handle(path: string, check: AdminCheck): (r: Run)
    ensures |r.calls| >= 1 && r.calls[0] == UpdateSession
    // paths outside the gate: no lookup, the session response unchanged
    ensures !StartsWith(path, ConfigPrefix) ==> r == Run([UpdateSession], SessionResponse)
    // gated paths: one lookup unless the client could not be created, and
    // only an admin row lets the request through
    ensures StartsWith(path, ConfigPrefix) && check != ClientThrew ==> r.calls == [UpdateSession, LookupRole]
    ensures StartsWith(path, ConfigPrefix) && check == ClientThrew ==> r.calls == [UpdateSession]
    ensures StartsWith(path, ConfigPrefix) ==>
              (r.response == SessionResponse <==> check == RoleRow("admin"))
  {
    if !StartsWith(path, ConfigPrefix) then Run([UpdateSession], SessionResponse)
    else
      var response := match check
        case ClientThrew => RedirectHome
        case Threw => RedirectHome
        case LookupError => RedirectHome
        case NoRow => RedirectHome
        case RoleRow(role) => if role == "admin" then SessionResponse else RedirectHome;
      Run([UpdateSession] + (if check == ClientThrew then [] else [LookupRole]), response)
  }

  /** The gate is a text prefix test: any path that begins with the seven
      characters `/config`, such as `/configuration`, is gated. */
  lemma PrefixGatesLongerNames(rest: string, check: AdminCheck)
    requires check != RoleRow("admin")
    ensures Handle(ConfigPrefix + rest, check).response == RedirectHome
  {
    assert (ConfigPrefix + rest)[..|ConfigPrefix|] == ConfigPrefix;
  }

  /** `(?!api|_next/static|_next/image|favicon.ico)` at the start of the
      path after its leading '/'. The '.' of `favicon.ico` is a regular
      expression wildcard: any character but a line terminator. */
  predicate Excluded(tail: string)
  {
    || StartsWith(tail, "api")
    || StartsWith(tail, "_next/static")
    || StartsWith(tail, "_next/image")
    || (|tail| >= 11 && tail[..7] == "favicon" && !LineTerminator(tail[7]) && tail[8..11] == "ico")
  }

  /** The `matcher` of `config`: `/((?!api|_next/static|_next/image|favicon.ico).*)`
      against the whole path name. */
  function Matches(path: string): (b: bool)
    ensures b ==> |path| >= 1 && path[0] == '/'
  {
    |path| >= 1 && path[0] == '/' && !Excluded(path[1..]) && NoLineBreak(path[1..])
  }

  /** No path served begins with `/api`, `/_next/static` or `/_next/image`. */
  lemma MatchesExcludesPrefixes(path: string)
    requires Matches(path)
    ensures !StartsWith(path, "/api") && !StartsWith(path, "/_next/static")
            && !StartsWith(path, "/_next/image")
  {
    ExcludedPrefix(path, "api");
    ExcludedPrefix(path, "_next/static");
    ExcludedPrefix(path, "_next/image");
  }

  /** A path beginning with '/' followed by `p` has a tail beginning with `p`. */
  lemma ExcludedPrefix(path: string, p: string)
    requires |path| >= 1 && path[0] == '/'
    ensures StartsWith(path, "/" + p) ==> StartsWith(path[1..], p)
  {
    if StartsWith(path, "/" + p) {
      assert path[1..][..|p|] == path[..|p| + 1][1..] == ("/" + p)[1..] == p;
    }
  }

  /** The characters a JavaScript regular expression's `.` does not
      match: line feed, carriage return, and the line and paragraph
      separators. (A path name from the URL parser holds none of them raw;
      they are removed or percent-encoded.) */
  predicate LineTerminator(c: char)
  {
    c == '\n' || c == '\r' || c == '\U{2028}' || c == '\U{2029}'
  }

  /** `.*` does not cross a line terminator. */
  predicate NoLineBreak(s: string)
  {
    forall i | 0 <= i < |s| :: !LineTerminator(s[i])
  }

  /** Whether the middleware runs for `path`, and what it answers. */
  function Serve(path: string, check: AdminCheck): (r: Option<Run>)
    ensures r.None? <==> !Matches(path)
    ensures r.Some? ==> r.value == Handle(path, check)
  {
    if Matches(path) then Some(Handle(path, check)) else None
  }

  /** Every `/config` path without a line break reaches the gate, which
      makes the role lookup once a client exists: no exclusion starts
      with 'c'. */
  lemma ConfigPathsAreServed(rest: string, check: AdminCheck)
    requires NoLineBreak(rest)
    ensures Serve(ConfigPrefix + rest, check).Some?
    ensures Serve(ConfigPrefix + rest, check).value.calls
            == if check == ClientThrew then [UpdateSession] else [UpdateSession, LookupRole]
  {
    var path := ConfigPrefix + rest;
    assert path[..|ConfigPrefix|] == ConfigPrefix;
    assert path[1] == 'c';
    assert NoLineBreak(path[1..]) by {
      forall i | 0 <= i < |path[1..]| ensures !LineTerminator(path[1..][i]) {
        if i >= 6 {
          assert path[1..][i] == rest[i - 6];
        }
      }
    }
  }

  /** The exclusion is a prefix test on the first segment, not a whole
      segment: `/apiary` is not served either. */
  lemma ApiLookalikeNotServed(check: AdminCheck)
    ensures Serve("/apiary", check).None?
  {
    assert "/apiary"[1..][..3] == "api";
  }

  /** The wildcard in `favicon.ico`: `/favicon-ico` is not served. */
  lemma FaviconWildcard(check: AdminCheck)
    ensures Serve("/favicon-ico", check).None?
  {
    var tail := "/favicon-ico"[1..];
    assert tail[..7] == "favicon" && tail[8..11] == "ico";
  }
}

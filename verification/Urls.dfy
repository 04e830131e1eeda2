/** URL records and the resolution of a reference that starts with a slash, after section 4.4 of the WHATWG
    URL Standard (URL parsing). The parser of absolute URLs and of authorities, and the percent-encode
    sets, are parameters. */
module Urls {
  import opened Domain

  /** A tuple origin; `authority` is host and port. */
  datatype Origin = Origin(scheme: string, authority: string)

  /** A parsed URL: http or https; a blob URL whose `address` is an http or https URL; or any other, which has
      an origin of its own (ws, wss, ftp) or an opaque one. `user` is the userinfo, `reference` pathname, search
      and hash. */
  datatype Url =
    | Web(origin: Origin, user: string, path: seq<string>, query: Option<string>, fragment: Option<string>)
    | Blob(origin: Origin, address: string, query: Option<string>, fragment: Option<string>)
    | Foreign(own: Option<Origin>, href: string, reference: string)

  datatype Authority = Authority(origin: Origin, user: string)

  /** `authority` reads an authority under the scheme of the base. */
  datatype Parser = Parser(
    parse: string -> Option<Url>,
    authority: (string, string) -> Option<Authority>,
    pathSafe: char -> bool,
    querySafe: char -> bool,
    fragmentSafe: char -> bool,
    escape: char -> string)

  const WEB_SCHEMES: set<string> := {"http", "https"}

  /** Delimiters are never safe where they delimit, and no safe character is blank. */
  ghost predicate SafeSets(p: Parser) {
    && (forall c :: p.pathSafe(c) ==> ' ' < c && !EndsAuthority(c))
    && (forall c :: p.querySafe(c) ==> ' ' < c && c != '#')
    && (forall c :: p.fragmentSafe(c) ==> ' ' < c)
  }

  /** Whatever is parsed is a well-formed record. */
  ghost predicate ValidParser(p: Parser) {
    SafeSets(p) && forall text :: p.parse(text).Some? ==> ParsedRecord(p, p.parse(text).value)
  }

  /** The address of a blob URL starts with its scheme, so with query and fragment behind it it is still the
      absolute form of an http or https URL. */
  predicate ParsedRecord(p: Parser, u: Url) {
    match u
    case Web(origin, _, _, _, _) => origin.scheme in WEB_SCHEMES && WellParsed(p, u)
    case Blob(origin, address, _, _) =>
      && origin.scheme in WEB_SCHEMES && address != "" && !IsSlash(address[0])
      && p.parse(Reference(u)).Some? && p.parse(Reference(u)).value.Web?
    case Foreign(own, _, _) => own.Some? ==> own.value.scheme !in WEB_SCHEMES
  }

  /** None is an opaque origin. */
  function OriginOf(u: Url): Option<Origin> {
    match u
    case Foreign(own, _, _) => own
    case _ => Some(u.origin)
  }

  predicate IsSlash(c: char) {
    c == '/' || c == '\\'
  }

  // ---- the getters ----

  function Joined(path: seq<string>): string {
    if path == [] then "" else "/" + path[0] + Joined(path[1..])
  }

  function Pathname(u: Url): string
    requires !u.Foreign?
  {
    if u.Web? then Joined(u.path) else u.address
  }

  /** An empty query has an empty `search`, although the URL has a question mark. */
  function Search(u: Url): string
    requires !u.Foreign?
  {
    if u.query.Some? && u.query.value != "" then "?" + u.query.value else ""
  }

  function Hash(u: Url): string
    requires !u.Foreign?
  {
    if u.fragment.Some? && u.fragment.value != "" then "#" + u.fragment.value else ""
  }

  /** The reference the recorder writes: path, query and fragment. */
  function Reference(u: Url): string {
    if u.Foreign? then u.reference else Pathname(u) + Search(u) + Hash(u)
  }

  // ---- resolving a reference against a base ----

  predicate EndsPath(c: char) { c == '?' || c == '#' }
  predicate EndsQuery(c: char) { c == '#' }
  predicate EndsAuthority(c: char) { IsSlash(c) || EndsPath(c) }

  /** The length of the part before the first stop. */
  function Span(s: string, stop: char -> bool): (n: nat)
    ensures n <= |s| && (n < |s| ==> stop(s[n])) && forall i :: 0 <= i < n ==> !stop(s[i])
  {
    if s == "" || stop(s[0]) then 0 else 1 + Span(s[1..], stop)
  }

  function Encode(p: Parser, s: string, safe: char -> bool): string {
    if s == "" then "" else (if safe(s[0]) then [s[0]] else p.escape(s[0])) + Encode(p, s[1..], safe)
  }

  function Segments(s: string): (r: seq<string>)
    ensures r != []
    decreases |s|
  {
    var n := Span(s, IsSlash);
    if n == |s| then [s] else [s[..n]] + Segments(s[n + 1..])
  }

  predicate IsDot(s: string) {
    s in {".", "%2e", "%2E"}
  }

  predicate IsDotDot(s: string) {
    s in {"..", ".%2e", ".%2E", "%2e.", "%2E.", "%2e%2e", "%2e%2E", "%2E%2e", "%2E%2E"}
  }

  /** Dot segments disappear; one in last position leaves an empty segment. */
  function Normalize(p: Parser, segments: seq<string>, path: seq<string>): seq<string>
    decreases |segments|
  {
    if segments == [] then path
    else
      var last := |segments| == 1;
      var next :=
        if IsDotDot(segments[0]) then (if path == [] then [] else path[..|path| - 1]) + if last then [""] else []
        else if IsDot(segments[0]) then path + if last then [""] else []
        else path + [Encode(p, segments[0], p.pathSafe)];
      Normalize(p, segments[1..], next)
  }

  /** The query and fragment states, on what follows the path. */
  function WithTail(p: Parser, origin: Origin, user: string, path: seq<string>, tail: string): Url {
    var hasQuery := tail != "" && tail[0] == '?';
    var m := if hasQuery then Span(tail[1..], EndsQuery) else 0;
    var rest := if hasQuery then tail[1..][m..] else tail;
    Web(origin, user, path,
        if hasQuery then Some(Encode(p, tail[1..][..m], p.querySafe)) else None,
        if rest != "" then Some(Encode(p, rest[1..], p.fragmentSafe)) else None)
  }

  /** From the path state on. */
  function FromPath(p: Parser, origin: Origin, user: string, text: string): (u: Url)
    ensures u.Web? && u.origin == origin && u.user == user
  {
    var n := Span(text, EndsPath);
    var path := if n > 0 && IsSlash(text[0]) then text[1..n] else text[..n];
    WithTail(p, origin, user, Normalize(p, Segments(path), []), text[n..])
  }

  function SkipSlashes(s: string): (n: nat)
    ensures n <= |s| && (n < |s| ==> !IsSlash(s[n])) && forall i :: 0 <= i < n ==> IsSlash(s[i])
  {
    if s == "" || !IsSlash(s[0]) then 0 else 1 + SkipSlashes(s[1..])
  }

  /** Two slashes start an authority; further slashes before it are skipped. */
  function WithAuthority(p: Parser, scheme: string, rest: string): Option<Url> {
    var n := Span(rest, EndsAuthority);
    match p.authority(scheme, rest[..n])
    case None => None
    case Some(a) => Some(FromPath(p, a.origin, a.user, rest[n..]))
  }

  /** `new URL(reference, base)` for the references the recorder writes. */
  function Resolve(p: Parser, reference: string, base: Url): Option<Url>
    requires base.Web?
  {
    if reference == "" || !IsSlash(reference[0]) then p.parse(reference)
    else if |reference| >= 2 && IsSlash(reference[1]) then
      WithAuthority(p, base.origin.scheme, reference[SkipSlashes(reference)..])
    else Some(FromPath(p, base.origin, base.user, reference))
  }

  // ---- parsed records ----

  predicate AllSafe(s: string, safe: char -> bool) {
    forall i :: 0 <= i < |s| ==> safe(s[i])
  }

  /** What the parser guarantees of an http or https record. */
  predicate WellParsed(p: Parser, u: Url) {
    && u.Web? && u.path != []
    && (forall i :: 0 <= i < |u.path| ==> AllSafe(u.path[i], p.pathSafe) && !IsDot(u.path[i]) && !IsDotDot(u.path[i]))
    && (u.query.Some? ==> AllSafe(u.query.value, p.querySafe))
    && (u.fragment.Some? ==> AllSafe(u.fragment.value, p.fragmentSafe))
  }

  /** The pathname starts with two slashes. */
  predicate DoubleSlash(u: Url) {
    u.Web? && |u.path| >= 2 && u.path[0] == ""
  }

  // ---- facts ----

  lemma {:induction false} SpanIs(s: string, stop: char -> bool, n: nat)
    requires n <= |s| && (n < |s| ==> stop(s[n])) && forall i :: 0 <= i < n ==> !stop(s[i])
    ensures Span(s, stop) == n
  {
    if n > 0 {
      SpanIs(s[1..], stop, n - 1);
    }
  }

  lemma {:induction false} EncodeSafe(p: Parser, s: string, safe: char -> bool)
    requires AllSafe(s, safe)
    ensures Encode(p, s, safe) == s
  {
    if s != "" {
      assert forall i :: 0 <= i < |s[1..]| ==> s[1..][i] == s[i + 1];
      EncodeSafe(p, s[1..], safe);
    }
  }

  predicate NoSlash(s: string) {
    forall k :: 0 <= k < |s| ==> !IsSlash(s[k])
  }

  lemma FirstSegment(head: string, rest: string)
    requires NoSlash(head) && (rest != "" ==> IsSlash(rest[0]))
    ensures Segments(head + rest) == if rest == "" then [head] else [head] + Segments(rest[1..])
  {
    SpanIs(head + rest, IsSlash, |head|);
    if rest == "" {
      assert head + rest == head;
    } else {
      assert (head + rest)[..|head|] == head && (head + rest)[|head| + 1..] == rest[1..];
    }
  }

  /** Splitting a joined path without its first slash gives the segments back. */
  lemma {:induction false} SegmentsOfJoined(path: seq<string>)
    requires path != [] && forall i :: 0 <= i < |path| ==> NoSlash(path[i])
    ensures Joined(path) != "" && Segments(Joined(path)[1..]) == path
  {
    var rest := Joined(path[1..]);
    assert Joined(path) == "/" + path[0] + rest;
    assert Joined(path)[1..] == path[0] + rest;
    FirstSegment(path[0], rest);
    if |path| > 1 {
      SegmentsOfJoined(path[1..]);
      assert rest[0] == '/';
      assert [path[0]] + path[1..] == path;
    }
  }

  lemma {:induction false} NormalizeParsed(p: Parser, segments: seq<string>, path: seq<string>)
    requires forall i :: 0 <= i < |segments| ==>
               AllSafe(segments[i], p.pathSafe) && !IsDot(segments[i]) && !IsDotDot(segments[i])
    ensures Normalize(p, segments, path) == path + segments
    decreases |segments|
  {
    if segments == [] {
      assert path + segments == path;
    } else {
      EncodeSafe(p, segments[0], p.pathSafe);
      NormalizeParsed(p, segments[1..], path + [segments[0]]);
      assert path + [segments[0]] + segments[1..] == path + segments;
    }
  }

  lemma {:induction false} JoinedIsSafe(p: Parser, path: seq<string>)
    requires SafeSets(p) && forall i :: 0 <= i < |path| ==> AllSafe(path[i], p.pathSafe)
    ensures forall k :: 0 <= k < |Joined(path)| ==> !EndsPath(Joined(path)[k])
  {
    if path != [] {
      assert forall i :: 0 <= i < |path[1..]| ==> path[1..][i] == path[i + 1];
      JoinedIsSafe(p, path[1..]);
      var rest := Joined(path[1..]);
      assert Joined(path) == "/" + path[0] + rest;
      forall k | 0 <= k < |Joined(path)| ensures !EndsPath(Joined(path)[k]) {
        if 0 < k <= |path[0]| {
          assert Joined(path)[k] == path[0][k - 1] && p.pathSafe(path[0][k - 1]);
        } else if k > |path[0]| {
          assert Joined(path)[k] == rest[k - 1 - |path[0]|];
        }
      }
    }
  }

  function Kept(s: Option<string>): Option<string> {
    if s == Some("") then None else s
  }

  /** Parsing a written-out path, query and fragment gives them back, except that an empty query or
      fragment is gone. */
  lemma FromPathExact(p: Parser, origin: Origin, user: string, u: Url)
    requires SafeSets(p) && WellParsed(p, u)
    ensures FromPath(p, origin, user, Reference(u)) == Web(origin, user, u.path, Kept(u.query), Kept(u.fragment))
  {
    hide FromPath, WithTail, Normalize, Segments, Joined, Encode;
    JoinedIsSafe(p, u.path);
    PathExact(p, u);
    TailExact(p, origin, user, u);
    TailStart(u);
    PathThenTail(p, origin, user, Pathname(u), Search(u) + Hash(u));
    assert Reference(u) == Pathname(u) + (Search(u) + Hash(u));
  }

  lemma TailStart(u: Url)
    requires !u.Foreign?
    ensures Search(u) + Hash(u) != "" ==> EndsPath((Search(u) + Hash(u))[0])
  {
  }

  lemma PathThenTail(p: Parser, origin: Origin, user: string, pathname: string, tail: string)
    requires pathname != "" && IsSlash(pathname[0]) && (tail != "" ==> EndsPath(tail[0]))
    requires forall i :: 0 <= i < |pathname| ==> !EndsPath(pathname[i])
    ensures FromPath(p, origin, user, pathname + tail)
         == WithTail(p, origin, user, Normalize(p, Segments(pathname[1..]), []), tail)
  {
    var text := pathname + tail;
    SpanIs(text, EndsPath, |pathname|);
    assert text[|pathname|..] == tail && text[1..|pathname|] == pathname[1..];
  }

  lemma PathExact(p: Parser, u: Url)
    requires SafeSets(p) && WellParsed(p, u)
    ensures Pathname(u) != "" && Pathname(u)[0] == '/'
    ensures Normalize(p, Segments(Pathname(u)[1..]), []) == u.path
  {
    forall i | 0 <= i < |u.path| ensures NoSlash(u.path[i]) {
      forall k | 0 <= k < |u.path[i]| ensures !IsSlash(u.path[i][k]) {
        assert p.pathSafe(u.path[i][k]);
      }
    }
    SegmentsOfJoined(u.path);
    NormalizeParsed(p, u.path, []);
  }

  /** The query ends where the fragment starts. */
  lemma QueryExact(p: Parser, query: string, hash: string)
    requires SafeSets(p) && AllSafe(query, p.querySafe) && (hash != "" ==> hash[0] == '#')
    ensures Span(query + hash, EndsQuery) == |query| && Encode(p, query, p.querySafe) == query
    ensures (query + hash)[..|query|] == query && (query + hash)[|query|..] == hash
  {
    forall i | 0 <= i < |query| ensures !EndsQuery(query[i]) {
      assert p.querySafe(query[i]);
    }
    SpanIs(query + hash, EndsQuery, |query|);
    EncodeSafe(p, query, p.querySafe);
  }

  lemma TailExact(p: Parser, origin: Origin, user: string, u: Url)
    requires SafeSets(p) && WellParsed(p, u)
    ensures WithTail(p, origin, user, u.path, Search(u) + Hash(u))
         == Web(origin, user, u.path, Kept(u.query), Kept(u.fragment))
  {
    hide Span, Encode;
    var hash := Hash(u);
    if Kept(u.query).Some? {
      assert (Search(u) + hash)[1..] == u.query.value + hash;
      QueryExact(p, u.query.value, hash);
    } else {
      assert Search(u) + hash == hash;
    }
    if Kept(u.fragment).Some? {
      assert hash[1..] == u.fragment.value;
      EncodeSafe(p, u.fragment.value, p.fragmentSafe);
    }
  }

  lemma ResolveSingleSlash(p: Parser, u: Url, base: Url)
    requires SafeSets(p) && WellParsed(p, u) && base.Web? && !DoubleSlash(u)
    ensures Resolve(p, Reference(u), base) == Some(Web(base.origin, base.user, u.path, Kept(u.query), Kept(u.fragment)))
  {
    FromPathExact(p, base.origin, base.user, u);
    var text := Reference(u);
    assert Joined(u.path) == "/" + u.path[0] + Joined(u.path[1..]);
    if |text| >= 2 {
      if u.path[0] != "" {
        assert text[1] == u.path[0][0] && p.pathSafe(u.path[0][0]);
      } else {
        assert Joined(u.path) == "/";
        assert text[1] == (Search(u) + Hash(u))[0];
      }
    }
  }

  // ---- a path that starts with two slashes ----

  function Slashes(s: string): nat {
    if s == "" then 0 else (if IsSlash(s[0]) then 1 else 0) + Slashes(s[1..])
  }

  lemma {:induction false} SlashesSuffix(s: string, k: nat)
    requires k <= |s|
    ensures Slashes(s[k..]) <= Slashes(s)
  {
    if k > 0 {
      SlashesSuffix(s[1..], k - 1);
      assert s[1..][k - 1..] == s[k..];
    }
  }

  lemma {:induction false} SegmentCount(s: string)
    ensures |Segments(s)| == Slashes(s) + 1
    decreases |s|
  {
    var n := Span(s, IsSlash);
    NoSlashPrefix(s, n);
    if n < |s| {
      SegmentCount(s[n + 1..]);
      assert s[n..][1..] == s[n + 1..];
    }
  }

  lemma {:induction false} NoSlashPrefix(s: string, n: nat)
    requires n <= |s| && forall i :: 0 <= i < n ==> !IsSlash(s[i])
    ensures Slashes(s) == Slashes(s[n..])
  {
    if n > 0 {
      NoSlashPrefix(s[1..], n - 1);
      assert s[1..][n - 1..] == s[n..];
    } else {
      assert s[0..] == s;
    }
  }

  lemma {:induction false} NormalizeShrinks(p: Parser, segments: seq<string>, path: seq<string>)
    ensures |Normalize(p, segments, path)| <= |path| + |segments|
    decreases |segments|
  {
    if segments != [] {
      var last := |segments| == 1;
      var next :=
        if IsDotDot(segments[0]) then (if path == [] then [] else path[..|path| - 1]) + if last then [""] else []
        else if IsDot(segments[0]) then path + if last then [""] else []
        else path + [Encode(p, segments[0], p.pathSafe)];
      NormalizeShrinks(p, segments[1..], next);
    }
  }

  lemma {:induction false} SlashesOfJoined(path: seq<string>)
    requires forall i :: 0 <= i < |path| ==> NoSlash(path[i])
    ensures Slashes(Joined(path)) == |path|
  {
    if path != [] {
      var rest := Joined(path[1..]);
      assert Joined(path) == "/" + path[0] + rest;
      assert Joined(path)[1..] == path[0] + rest;
      NoSlashPrefix(path[0] + rest, |path[0]|);
      assert (path[0] + rest)[|path[0]|..] == rest;
      SlashesOfJoined(path[1..]);
    }
  }

  /** What follows position `k` of a path loses nothing but slashes. */
  lemma PathOfSuffix(p: Parser, origin: Origin, user: string, pathname: string, tail: string, k: nat)
    requires k <= |pathname| && (tail != "" ==> EndsPath(tail[0]))
    requires forall i :: 0 <= i < |pathname| ==> !EndsPath(pathname[i])
    requires k < |pathname| ==> IsSlash(pathname[k])
    ensures |FromPath(p, origin, user, (pathname + tail)[k..]).path| <= if k == |pathname| then 1 else Slashes(pathname[k..])
  {
    var text := (pathname + tail)[k..];
    assert text == pathname[k..] + tail;
    SpanIs(text, EndsPath, |pathname| - k);
    if k == |pathname| {
      assert text[..0] == "";
      SegmentCount("");
      NormalizeShrinks(p, Segments(""), []);
    } else {
      var path := text[1..|pathname| - k];
      assert path == pathname[k..][1..];
      SegmentCount(path);
      NormalizeShrinks(p, Segments(path), []);
    }
  }

  /** Such a reference names another authority; its path is shorter, so it is never the same URL. */
  lemma ResolveDoubleSlash(p: Parser, u: Url, base: Url)
    requires SafeSets(p) && WellParsed(p, u) && base.Web? && DoubleSlash(u)
    ensures Resolve(p, Reference(u), base) != Some(u)
  {
    JoinedIsSafe(p, u.path);
    forall i | 0 <= i < |u.path| ensures NoSlash(u.path[i]) {
      forall k | 0 <= k < |u.path[i]| ensures !IsSlash(u.path[i][k]) {
        assert p.pathSafe(u.path[i][k]);
      }
    }
    SlashesOfJoined(u.path);
    TwoSlashes(u.path);
    TailStart(u);
    assert Reference(u) == Pathname(u) + (Search(u) + Hash(u));
    OtherAuthority(p, Pathname(u), Search(u) + Hash(u), base);
  }

  lemma OtherAuthority(p: Parser, pathname: string, tail: string, base: Url)
    requires base.Web? && |pathname| >= 2 && IsSlash(pathname[0]) && IsSlash(pathname[1])
    requires tail != "" ==> EndsPath(tail[0])
    requires forall i :: 0 <= i < |pathname| ==> !EndsPath(pathname[i])
    ensures var r := Resolve(p, pathname + tail, base); r.Some? ==> r.value.Web? && |r.value.path| < Slashes(pathname)
  {
    hide FromPath, Slashes, Span, SkipSlashes;
    var text := pathname + tail;
    assert text[0] == pathname[0] && text[1] == pathname[1];
    var rest := text[SkipSlashes(text)..];
    assert Resolve(p, text, base) == WithAuthority(p, base.origin.scheme, rest);
    var k := SkipSlashes(text) + Span(rest, EndsAuthority);
    SkipStaysInPath(pathname, tail, SkipSlashes(text), k);
    assert rest[Span(rest, EndsAuthority)..] == text[k..];
    var a := p.authority(base.origin.scheme, rest[..Span(rest, EndsAuthority)]);
    if a.Some? {
      ShorterPath(p, a.value.origin, a.value.user, pathname, tail, k);
    }
  }

  lemma TwoSlashes(path: seq<string>)
    requires |path| >= 2 && path[0] == ""
    ensures |Joined(path)| >= 2 && Joined(path)[0] == '/' && Joined(path)[1] == '/'
  {
    assert Joined(path) == "/" + path[0] + Joined(path[1..]);
    assert Joined(path[1..]) == "/" + path[1] + Joined(path[1..][1..]);
  }

  lemma ShorterPath(p: Parser, origin: Origin, user: string, pathname: string, tail: string, k: nat)
    requires 2 <= k <= |pathname| && (tail != "" ==> EndsPath(tail[0]))
    requires forall i :: 0 <= i < |pathname| ==> !EndsPath(pathname[i])
    requires IsSlash(pathname[0]) && IsSlash(pathname[1])
    requires k < |pathname| ==> IsSlash(pathname[k])
    ensures |FromPath(p, origin, user, (pathname + tail)[k..]).path| < Slashes(pathname)
  {
    hide FromPath;
    PathOfSuffix(p, origin, user, pathname, tail, k);
    assert pathname[1..][1..] == pathname[2..];
    SlashesSuffix(pathname[2..], k - 2);
    assert pathname[2..][k - 2..] == pathname[k..];
  }

  /** Slashes and authority end within the path, because what follows it starts with a delimiter. */
  lemma SkipStaysInPath(pathname: string, tail: string, j: nat, k: nat)
    requires |pathname| >= 2 && IsSlash(pathname[0]) && IsSlash(pathname[1])
    requires tail != "" ==> EndsPath(tail[0])
    requires j == SkipSlashes(pathname + tail) && k == j + Span((pathname + tail)[j..], EndsAuthority)
    requires forall i :: 0 <= i < |pathname| ==> !EndsPath(pathname[i])
    ensures 2 <= j <= k <= |pathname| && (k < |pathname| ==> IsSlash(pathname[k]))
  {
    var text := pathname + tail;
    assert text[0] == pathname[0] && text[1] == pathname[1];
    assert tail != "" ==> text[|pathname|] == tail[0] && !IsSlash(text[|pathname|]);
    assert j <= |pathname|;
    assert tail != "" ==> text[j..][|pathname| - j] == tail[0];
    assert k < |pathname| ==> text[j..][k - j] == pathname[k];
  }

  // ---- main result ----

  /** Writing a target as a reference against a base and resolving it again gives the target exactly when
      it is an http or https URL with the base's origin and userinfo, its path does not start with two
      slashes, and neither its query nor its fragment is present but empty. */
  lemma ReferenceResolves(p: Parser, text: string, target: Url, baseText: string, base: Url)
    requires ValidParser(p) && p.parse(text) == Some(target) && p.parse(baseText) == Some(base)
    requires base.Web? && OriginOf(target) == Some(base.origin)
    ensures Resolve(p, Reference(target), base) == Some(target) <==>
            target.Web? && target.user == base.user && !DoubleSlash(target) &&
            target.query != Some("") && target.fragment != Some("")
  {
    assert ParsedRecord(p, target) && ParsedRecord(p, base);
    if target.Blob? {
      assert Reference(target)[0] == target.address[0];
    } else if DoubleSlash(target) {
      ResolveDoubleSlash(p, target, base);
    } else {
      ResolveSingleSlash(p, target, base);
    }
  }
}

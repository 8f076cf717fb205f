/** Joining a host URL with a path, as Go's net/url does, for URLs of lower-case scheme, plain authority and path of
    unreserved characters (section 2.3 of RFC 3986). Dot segments are removed. */
module ScoringUrls {
  import opened Keys
  import opened Wrappers

  /** The path is empty or starts with a slash. */
  datatype Parts = Parts(scheme: string, authority: string, path: string)

  // ---------------------------------------------------------------------------------------------
  // Plain URLs
  // ---------------------------------------------------------------------------------------------

  function IndexOf(s: string, c: char): (i: nat)
    ensures i <= |s| && (forall j :: 0 <= j < i ==> s[j] != c) && (i < |s| ==> s[i] == c)
  {
    if s == [] || s[0] == c then 0 else 1 + IndexOf(s[1..], c)
  }

  lemma IndexOfIs(s: string, c: char, i: nat)
    requires i <= |s| && (forall j :: 0 <= j < i ==> s[j] != c) && (i < |s| ==> s[i] == c)
    ensures IndexOf(s, c) == i
  {
  }

  function SplitUrl(s: string): Option<Parts> {
    var i := IndexOf(s, ':');
    if i + 2 >= |s| || s[i + 1] != '/' || s[i + 2] != '/' then None
    else
      var rest := s[i + 3..];
      var j := IndexOf(rest, '/');
      Some(Parts(s[..i], rest[..j], rest[j..]))
  }

  function UrlText(u: Parts): string { u.scheme + ("://" + (u.authority + u.path)) }

  predicate Lower(c: char) { 'a' <= c <= 'z' }

  predicate Digit(c: char) { '0' <= c <= '9' }

  predicate Letter(c: char) { Lower(c) || 'A' <= c <= 'Z' }

  predicate PlainScheme(s: string) {
    s != "" && Lower(s[0]) && forall c :: c in s ==> Lower(c) || Digit(c) || c == '+' || c == '-' || c == '.'
  }

  /** A name or an IPv4 address, and maybe a port. */
  predicate PlainAuthority(s: string) {
    var k := IndexOf(s, ':');
    && k > 0 && (forall i :: 0 <= i < k ==> Letter(s[i]) || Digit(s[i]) || s[i] == '-' || s[i] == '.')
    && forall i :: k < i < |s| ==> Digit(s[i])
  }

  predicate PlainPath(p: string) {
    forall c :: c in p ==> Letter(c) || Digit(c) || c == '-' || c == '_' || c == '.' || c == '~' || c == '/'
  }

  predicate Plain(u: Parts) {
    PlainScheme(u.scheme) && PlainAuthority(u.authority) && PlainPath(u.path) && (u.path != "" ==> u.path[0] == '/')
  }

  predicate PlainUrl(s: string) { SplitUrl(s).Some? && Plain(SplitUrl(s).value) }

  function PartsOf(s: string): Parts
    requires PlainUrl(s)
  {
    SplitUrl(s).value
  }

  lemma AuthorityHasNoSlash(s: string)
    requires PlainAuthority(s)
    ensures forall i :: 0 <= i < |s| ==> s[i] != '/'
  {
    var k := IndexOf(s, ':');
    forall i | 0 <= i < |s|
      ensures s[i] != '/'
    {
      assert i < k || i == k || k < i;
    }
  }

  lemma SchemeHasNoColon(s: string)
    requires PlainScheme(s)
    ensures forall i :: 0 <= i < |s| ==> s[i] != ':'
  {
    forall i | 0 <= i < |s|
      ensures s[i] != ':'
    {
      assert s[i] in s;
    }
  }

  lemma SplitOfParts(scheme: string, authority: string, path: string)
    requires forall i :: 0 <= i < |scheme| ==> scheme[i] != ':'
    requires forall i :: 0 <= i < |authority| ==> authority[i] != '/'
    requires path != "" ==> path[0] == '/'
    ensures SplitUrl(scheme + ("://" + (authority + path))) == Some(Parts(scheme, authority, path))
  {
    var rest := authority + path;
    var s := scheme + ("://" + rest);
    IndexOfIs(s, ':', |scheme|);
    assert s[..|scheme|] == scheme && s[|scheme| + 3..] == rest;
    assert rest[..|authority|] == authority && rest[|authority|..] == path;
    IndexOfIs(rest, '/', |authority|);
  }

  /** A printed URL is read back. */
  lemma SplitOfText(u: Parts)
    requires Plain(u)
    ensures SplitUrl(UrlText(u)) == Some(u) && PlainUrl(UrlText(u))
  {
    AuthorityHasNoSlash(u.authority);
    SchemeHasNoColon(u.scheme);
    SplitOfParts(u.scheme, u.authority, u.path);
  }

  // ---------------------------------------------------------------------------------------------
  // Path segments
  // ---------------------------------------------------------------------------------------------

  function Segments(s: string): seq<string>
    decreases |s|
  {
    var i := IndexOf(s, '/');
    if i == |s| then [s] else [s[..i]] + Segments(s[i + 1..])
  }

  /** Going down one segment; ".." goes up, and stays at the root. */
  function Enter(stack: seq<string>, segment: string): seq<string> {
    if segment == "" || segment == "." then stack
    else if segment != ".." then stack + [segment]
    else if stack == [] then []
    else stack[..|stack| - 1]
  }

  function Walk(stack: seq<string>, segments: seq<string>): seq<string> {
    if segments == [] then stack
    else Enter(Walk(stack, segments[..|segments| - 1]), segments[|segments| - 1])
  }

  function Slashed(segments: seq<string>): string {
    if segments == [] then ""
    else if |segments| == 1 then segments[0]
    else segments[0] + "/" + Slashed(segments[1..])
  }

  predicate EndsInSlash(s: string) { s != "" && s[|s| - 1] == '/' }

  /** The shortest rooted path with the same meaning. */
  function Clean(s: string): string { "/" + Slashed(Walk([], Segments(s))) }

  /** The joined path: relative for an empty base, and with the trailing slash of `p`. */
  function RelativePath(base: string, p: string): string {
    var clean := if base == "" then Clean("/" + "/" + p)[1..] else Clean(base + "/" + p);
    if EndsInSlash(p) && !EndsInSlash(clean) then clean + "/" else clean
  }

  /** A URL with an authority prints its path with a leading slash. */
  function Anchored(path: string): string { if path != "" && path[0] != '/' then "/" + path else path }

  function JoinPath(u: Parts, p: string): string { UrlText(u.(path := Anchored(RelativePath(u.path, p)))) }

  // ---------------------------------------------------------------------------------------------
  // What a joined path consists of
  // ---------------------------------------------------------------------------------------------

  predicate ProperName(s: string) { s != "" && s != "." && s != ".." && Slashless(s) }

  predicate Proper(segments: seq<string>) {
    forall s :: s in segments ==> ProperName(s)
  }

  lemma {:induction false} SegmentsOfConcat(a: string, b: string)
    ensures Segments(a + "/" + b) == Segments(a) + Segments(b)
    decreases |a|
  {
    var s := a + "/" + b;
    var i := IndexOf(a, '/');
    assert s[..i] == a[..i];
    IndexOfIs(s, '/', i);
    if i == |a| {
      assert s[i + 1..] == b && a[..i] == a;
    } else {
      assert s[i + 1..] == a[i + 1..] + "/" + b;
      SegmentsOfConcat(a[i + 1..], b);
    }
  }

  lemma {:induction false} SegmentsAreSlashless(s: string)
    ensures forall t :: t in Segments(s) ==> Slashless(t) && forall c :: c in t ==> c in s
    decreases |s|
  {
    var i := IndexOf(s, '/');
    if i < |s| {
      SegmentsAreSlashless(s[i + 1..]);
    }
  }

  lemma {:induction false} WalkConcat(stack: seq<string>, a: seq<string>, b: seq<string>)
    ensures Walk(stack, a + b) == Walk(Walk(stack, a), b)
    decreases |b|
  {
    if b == [] {
      assert a + b == a;
    } else {
      assert (a + b)[..|a + b| - 1] == a + b[..|b| - 1];
      WalkConcat(stack, a, b[..|b| - 1]);
    }
  }

  lemma EnterIsProper(stack: seq<string>, segment: string)
    requires Proper(stack) && Slashless(segment)
    ensures Proper(Enter(stack, segment))
    ensures forall t :: t in Enter(stack, segment) ==> t in stack || t == segment
  {
  }

  lemma {:induction false} WalkIsProper(stack: seq<string>, segments: seq<string>)
    requires Proper(stack) && forall t :: t in segments ==> Slashless(t)
    ensures Proper(Walk(stack, segments))
    ensures forall t :: t in Walk(stack, segments) ==> t in stack || t in segments
  {
    if segments != [] {
      var init, last := segments[..|segments| - 1], segments[|segments| - 1];
      assert last in segments && forall t :: t in init ==> t in segments;
      WalkIsProper(stack, init);
      EnterIsProper(Walk(stack, init), last);
    }
  }

  lemma {:induction false} WalkOfProper(stack: seq<string>, segments: seq<string>)
    requires Proper(segments)
    ensures Walk(stack, segments) == stack + segments
  {
    if segments == [] {
      assert stack + segments == stack;
    } else {
      var init, last := segments[..|segments| - 1], segments[|segments| - 1];
      assert last in segments && segments == init + [last];
      assert forall t :: t in init ==> t in segments;
      WalkOfProper(stack, init);
    }
  }

  lemma OneName(name: string)
    requires ProperName(name)
    ensures Segments(name) == [name] && name[0] != '/' && !EndsInSlash(name)
  {
    assert forall i :: 0 <= i < |name| ==> name[i] in name;
    IndexOfIs(name, '/', |name|);
  }

  lemma LastOfConcat(a: string, b: string)
    requires a != "" && b != ""
    ensures var text := a + "/" + b; text[0] == a[0] && text[|text| - 1] == b[|b| - 1]
  {
  }

  lemma {:induction false} SegmentsOfSlashed(segments: seq<string>)
    requires Proper(segments) && segments != []
    ensures Segments(Slashed(segments)) == segments
    ensures Slashed(segments) != "" && Slashed(segments)[0] != '/' && !EndsInSlash(Slashed(segments))
  {
    var first, rest := segments[0], segments[1..];
    assert first in segments && segments == [first] + rest;
    OneName(first);
    if rest != [] {
      assert forall t :: t in rest ==> t in segments;
      SegmentsOfSlashed(rest);
      SegmentsOfConcat(first, Slashed(rest));
      LastOfConcat(first, Slashed(rest));
    }
  }

  /** The segments of the host's own path. */
  function Base(u: Parts): seq<string> { Walk([], Segments(u.path)) }

  function JoinedSegments(u: Parts, p: string): seq<string> { Walk(Base(u), Segments(p)) }

  /** The path of the joined URL. */
  function JoinedPath(u: Parts, p: string): string {
    if JoinedSegments(u, p) != [] then "/" + Slashed(JoinedSegments(u, p)) + if EndsInSlash(p) then "/" else ""
    else if u.path == "" && !EndsInSlash(p) then ""
    else "/"
  }

  lemma JoinedIsProper(u: Parts, p: string)
    ensures Proper(JoinedSegments(u, p))
    ensures forall t, c :: t in JoinedSegments(u, p) && c in t ==> c in u.path || c in p
  {
    SegmentsAreSlashless(u.path);
    SegmentsAreSlashless(p);
    WalkIsProper([], Segments(u.path));
    WalkIsProper(Base(u), Segments(p));
  }

  lemma BlankSegments(p: string)
    ensures Segments("") == [""] && Segments("/") == ["", ""]
    ensures Walk([], [""]) == [] && Walk([], ["", ""]) == []
    ensures Walk([], Segments("/" + "/" + p)) == Walk([], Segments(p))
  {
    assert "" + "/" + "" == "/" && [""] + [""] == ["", ""];
    SegmentsOfConcat("", "");
    SegmentsOfConcat("/", p);
    assert Walk([], [""]) == [];
    assert ["", ""][..1] == [""];
    WalkConcat([], ["", ""], Segments(p));
  }

  lemma CleanIs(u: Parts, p: string)
    ensures Clean(if u.path == "" then "/" + "/" + p else u.path + "/" + p) == "/" + Slashed(JoinedSegments(u, p))
  {
    BlankSegments(p);
    SegmentsOfConcat(u.path, p);
    WalkConcat([], Segments(u.path), Segments(p));
  }

  lemma SlashAfter(text: string)
    requires text != "" && text[0] != '/' && !EndsInSlash(text)
    ensures !EndsInSlash("/" + text) && Anchored(text) == "/" + text && Anchored("/" + text) == "/" + text
    ensures Anchored(text + "/") == "/" + text + "/" && Anchored("/" + text + "/") == "/" + text + "/"
  {
    assert ("/" + text)[|text|] == text[|text| - 1];
    assert "/" + (text + "/") == "/" + text + "/";
  }

  lemma AnchoredPathIs(u: Parts, p: string)
    ensures Anchored(RelativePath(u.path, p)) == JoinedPath(u, p)
  {
    var segments := JoinedSegments(u, p);
    var text := Slashed(segments);
    JoinedIsProper(u, p);
    CleanIs(u, p);
    assert ("/" + text)[1..] == text;
    if segments == [] {
      assert "/" + text == "/";
    } else {
      SegmentsOfSlashed(segments);
      SlashAfter(text);
      if !EndsInSlash(p) {
        assert "/" + text + "" == "/" + text;
      }
    }
  }

  lemma JoinPathIs(u: Parts, p: string)
    requires u.path != "" ==> u.path[0] == '/'
    ensures JoinPath(u, p) == UrlText(u.(path := JoinedPath(u, p)))
  {
    AnchoredPathIs(u, p);
  }

  /** A path that ends in a slash keeps it, and no other path that leads somewhere gets one. */
  lemma TrailingSlash(u: Parts, p: string)
    requires u.path != "" ==> u.path[0] == '/'
    ensures p != "" && p[|p| - 1] == '/' ==> JoinPath(u, p)[|JoinPath(u, p)| - 1] == '/'
    ensures (p == "" || p[|p| - 1] != '/') && JoinedSegments(u, p) != [] ==>
              JoinPath(u, p)[|JoinPath(u, p)| - 1] != '/'
  {
    JoinPathIs(u, p);
    JoinedIsProper(u, p);
    var path, text := JoinedPath(u, p), UrlText(u.(path := JoinedPath(u, p)));
    if path != "" {
      assert text[|text| - 1] == path[|path| - 1];
    }
    if JoinedSegments(u, p) != [] {
      SegmentsOfSlashed(JoinedSegments(u, p));
    }
  }

  lemma {:induction false} SlashedIsPlain(segments: seq<string>)
    requires forall t :: t in segments ==> PlainPath(t)
    ensures PlainPath(Slashed(segments))
  {
    if |segments| == 1 {
      assert segments[0] in segments;
    } else if segments != [] {
      assert segments[0] in segments;
      SlashedIsPlain(segments[1..]);
    }
  }

  /** Joining stays within plain URLs. */
  lemma JoinIsPlain(u: Parts, p: string)
    requires Plain(u) && PlainPath(p)
    ensures Plain(u.(path := JoinedPath(u, p))) && PlainUrl(JoinPath(u, p))
    ensures PartsOf(JoinPath(u, p)) == u.(path := JoinedPath(u, p))
  {
    JoinedIsProper(u, p);
    SlashedIsPlain(JoinedSegments(u, p));
    JoinPathIs(u, p);
    SplitOfText(u.(path := JoinedPath(u, p)));
  }

  /** The joined path tells its segments. */
  lemma PathTellsSegments(u: Parts, p: string)
    ensures Walk([], Segments(JoinedPath(u, p))) == JoinedSegments(u, p)
  {
    var segments := JoinedSegments(u, p);
    JoinedIsProper(u, p);
    BlankSegments("");
    if segments != [] {
      var text := Slashed(segments);
      SegmentsOfSlashed(segments);
      SegmentsOfConcat("", text);
      SegmentsOfConcat("/" + text, "");
      assert "" + "/" + text == "/" + text && ("/" + text) + "/" + "" == "/" + text + "/";
      assert "/" + text + "" == "/" + text;
      WalkConcat([], [""], segments);
      WalkConcat([], [""] + segments, [""]);
      WalkOfProper([], segments);
    }
  }

  // ---------------------------------------------------------------------------------------------
  // When two hosts join to the same URL
  // ---------------------------------------------------------------------------------------------

  /** How far a walk climbs above its start. */
  function Climb(segments: seq<string>): nat {
    if segments == [] then 0
    else
      var init := segments[..|segments| - 1];
      Climb(init) + if segments[|segments| - 1] == ".." && Walk([], init) == [] then 1 else 0
  }

  function Trim(stack: seq<string>, n: nat): seq<string> { if n >= |stack| then [] else stack[..|stack| - n] }

  lemma EnterSplits(kept: seq<string>, rest: seq<string>, segment: string)
    ensures Enter(kept + rest, segment)
            == if segment == ".." && rest == [] then Trim(kept, 1) else kept + Enter(rest, segment)
  {
    if segment == "" || segment == "." {
    } else if segment != ".." {
      assert kept + rest + [segment] == kept + (rest + [segment]);
    } else if rest == [] {
      assert kept + rest == kept;
    } else {
      assert (kept + rest)[..|kept + rest| - 1] == kept + rest[..|rest| - 1];
    }
  }

  lemma {:induction false} WalkSplits(stack: seq<string>, segments: seq<string>)
    ensures Walk(stack, segments) == Trim(stack, Climb(segments)) + Walk([], segments)
  {
    if segments == [] {
      assert Trim(stack, 0) + [] == stack;
    } else {
      var init, last := segments[..|segments| - 1], segments[|segments| - 1];
      WalkSplits(stack, init);
      EnterSplits(Trim(stack, Climb(init)), Walk([], init), last);
      if last == ".." && Walk([], init) == [] {
        assert Trim(Trim(stack, Climb(init)), 1) == Trim(stack, Climb(segments));
        assert Walk([], segments) == [];
      }
    }
  }

  /** What is left of the host's own path. */
  function Kept(u: Parts, p: string): seq<string> { Trim(Base(u), Climb(Segments(p))) }

  /** Two hosts stand for the same place under a path: same scheme and authority, and same own path as far as the path
      does not climb out of it. An empty own path and "/" differ only where nothing follows. */
  predicate SamePlace(u: Parts, v: Parts, p: string) {
    && u.scheme == v.scheme && u.authority == v.authority && Kept(u, p) == Kept(v, p)
    && (Kept(u, p) + Walk([], Segments(p)) == [] && !EndsInSlash(p) ==> (u.path == "" <==> v.path == ""))
  }

  lemma SameSegmentsIff(u: Parts, v: Parts, p: string)
    ensures JoinedSegments(u, p) == JoinedSegments(v, p) <==> Kept(u, p) == Kept(v, p)
    ensures JoinedSegments(u, p) == Kept(u, p) + Walk([], Segments(p))
  {
    WalkSplits(Base(u), Segments(p));
    WalkSplits(Base(v), Segments(p));
    var rest := Walk([], Segments(p));
    assert (Kept(u, p) + rest)[..|Kept(u, p)|] == Kept(u, p) && (Kept(v, p) + rest)[..|Kept(v, p)|] == Kept(v, p);
  }

  lemma SamePathIff(u: Parts, v: Parts, p: string)
    ensures JoinedPath(u, p) == JoinedPath(v, p)
            <==> && Kept(u, p) == Kept(v, p)
                 && (Kept(u, p) + Walk([], Segments(p)) == [] && !EndsInSlash(p) ==> (u.path == "" <==> v.path == ""))
  {
    SameSegmentsIff(u, v, p);
    SameSegmentsIff(v, u, p);
    PathTellsSegments(u, p);
    PathTellsSegments(v, p);
  }

  lemma SameJoinIff(u: Parts, v: Parts, p: string)
    requires Plain(u) && Plain(v) && PlainPath(p)
    ensures JoinPath(u, p) == JoinPath(v, p) <==> SamePlace(u, v, p)
  {
    JoinIsPlain(u, p);
    JoinIsPlain(v, p);
    JoinPathIs(u, p);
    JoinPathIs(v, p);
    SamePathIff(u, v, p);
  }

  lemma OneSegmentWalks(segment: string)
    requires Proper([segment])
    ensures Segments("/" + segment) == ["", segment] && Walk([], Segments("/" + segment)) == [segment]
  {
    assert segment in [segment];
    BlankSegments("");
    IndexOfIs(segment, '/', |segment|);
    SegmentsOfConcat("", segment);
    assert "" + "/" + segment == "/" + segment && [""] + [segment] == ["", segment];
    assert ["", segment][..1] == [""];
  }

  lemma OneSegmentJoins(u: Parts, segment: string)
    requires u.path == "" && Proper([segment])
    ensures JoinPath(u, "/" + segment) == UrlText(u.(path := "/" + segment))
  {
    assert segment in [segment];
    BlankSegments("");
    OneSegmentWalks(segment);
    JoinPathIs(u, "/" + segment);
    assert ("/" + segment)[|segment|] == segment[|segment| - 1] && segment[|segment| - 1] in segment;
  }

  predicate Word(s: string) { s != "" && forall c :: c in s ==> Lower(c) }

  function Http(authority: string): string { "http://" + authority }

  function At(authority: string, segment: string): string { Http(authority) + ("/" + segment) }

  lemma WordIsPlain(w: string)
    requires Word(w)
    ensures PlainAuthority(w) && Proper([w]) && PlainPath(w) && PlainPath("/" + w)
  {
    assert forall j :: 0 <= j < |w| ==> w[j] in w;
    IndexOfIs(w, ':', |w|);
    assert w != "." && w != ".." by {
      assert w[0] in w;
    }
  }

  lemma HttpIsPlain(authority: string)
    requires Word(authority)
    ensures PlainUrl(Http(authority)) && PartsOf(Http(authority)) == Parts("http", authority, "")
  {
    WordIsPlain(authority);
    SplitOfText(Parts("http", authority, ""));
    assert UrlText(Parts("http", authority, "")) == Http(authority);
  }

  lemma HttpJoins(authority: string, segment: string)
    requires Word(authority) && Word(segment)
    ensures PlainUrl(Http(authority)) && PlainPath("/" + segment)
    ensures JoinPath(PartsOf(Http(authority)), "/" + segment) == At(authority, segment)
  {
    HttpIsPlain(authority);
    WordIsPlain(segment);
    OneSegmentJoins(Parts("http", authority, ""), segment);
  }

  lemma RelativeIsPlain(p: string)
    requires PlainPath(p)
    ensures PlainPath(RelativePath("", p))
  {
    var u := Parts("", "", "");
    JoinedIsProper(u, p);
    CleanIs(u, p);
    SlashedIsPlain(JoinedSegments(u, p));
  }

  /** Without any host a path makes no absolute URL. */
  lemma NoHostNoUrl(p: string)
    requires PlainPath(p)
    ensures !PlainUrl(RelativePath("", p))
  {
    RelativeIsPlain(p);
    var text := RelativePath("", p);
    assert forall j :: 0 <= j < |text| ==> text[j] in text;
    IndexOfIs(text, ':', |text|);
  }
}

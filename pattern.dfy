/**
 * Path templates and the patterns they compile to
 * (valar/src/routing/route.rs, `Data::to_regex_string` and
 * `Route::parameters`).
 *
 * A template such as `/users/:id` is trimmed of `/`, split on `/`, and each
 * segment becomes a piece of a regular expression: a literal segment is
 * copied as it is, a `:name` segment becomes the constraint registered for
 * `name` or the default class `[a-zA-Z0-9-_]+`.
 *
 * The regular-expression engine is not modelled. A compiled `Regex` keeps
 * the source string the engine was given together with what that source
 * means segment by segment. Matching is decided here for patterns made only
 * of plain literal segments and default-class segments (each segment
 * matched in turn, with an optional trailing `/`); a pattern that holds a
 * custom constraint or a literal with metacharacters is matched by the
 * engine, which is a parameter.
 */
module RoutePattern {
  import opened Wrappers
  import opened Strings
  import HttpRequest

  const DefaultParameterClass: string := "[a-zA-Z0-9-_]+"

  /** What the model knows of the `regex` crate: which sources it accepts and what they match. */
  datatype Engine = Engine(accepts: string -> bool, matches: (string, string) -> bool)

  /** One segment of a template, as a piece of the pattern. */
  datatype SegPattern =
    | Literal(text: string)
    | AnySegment
    | Constraint(fragment: string)

  datatype Pattern = Root | Segments(segs: seq<SegPattern>)

  /** A compiled regex: the source handed to the engine and what it means. */
  datatype Regex = Regex(source: string, pattern: Pattern)

  datatype RegexError = RegexError(source: string)

  /** A character the `regex` crate gives a meaning outside a class. */
  predicate IsMeta(c: char) {
    c in "\\.+*?()|[]{}^$"
  }

  predicate Plain(s: string) {
    forall i :: 0 <= i < |s| ==> !IsMeta(s[i])
  }

  /** The characters of `[a-zA-Z0-9-_]`. */
  predicate InDefaultClass(c: char) {
    ('a' <= c <= 'z') || ('A' <= c <= 'Z') || ('0' <= c <= '9') || c == '-' || c == '_'
  }

  /** The segments of a template or of a path: `trim_matches('/')`, then `split('/')`. */
  function PathSegments(path: string): (r: seq<string>)
    ensures |r| >= 1
    ensures forall i :: 0 <= i < |r| ==> '/' !in r[i]
  {
    SplitPiecesFree(TrimMatches(path, '/'), '/');
    Split(TrimMatches(path, '/'), '/')
  }

  /** The pattern piece for one template segment. */
  function SegmentPattern(segment: string, parameters: map<string, string>): SegPattern {
    if StartsWith(segment, ':') then
      var name := TrimMatches(segment, ':');
      if name in parameters then Constraint(parameters[name]) else AnySegment
    else Literal(segment)
  }

  /** The regex text of one pattern piece. */
  function SegmentSource(p: SegPattern): string {
    match p
    case Literal(text) => text
    case AnySegment => DefaultParameterClass
    case Constraint(fragment) => fragment
  }

  function SegmentPatterns(path: string, parameters: map<string, string>): (r: seq<SegPattern>)
    ensures |r| == |PathSegments(path)|
  {
    var segs := PathSegments(path);
    seq(|segs|, i requires 0 <= i < |segs| => SegmentPattern(segs[i], parameters))
  }

  function Sources(ps: seq<SegPattern>): (r: seq<string>)
    ensures |r| == |ps|
  {
    seq(|ps|, i requires 0 <= i < |ps| => SegmentSource(ps[i]))
  }

  /** The segment pieces joined by `/`. */
  function RegexPath(path: string, parameters: map<string, string>): string {
    Join(Sources(SegmentPatterns(path, parameters)), "/")
  }

  /**
   * `Data::to_regex_string`: the path pattern between `^/` and `/?$`, or
   * `^/$` alone when the path pattern is empty.
   */
  function ToRegexString(path: string, parameters: map<string, string>): (r: string)
    ensures RegexPath(path, parameters) == "" <==> r == "^/$"
    ensures RegexPath(path, parameters) != "" ==>
      |r| >= 6 && r[..2] == "^/" && r[2..|r| - 3] == RegexPath(path, parameters) && r[|r| - 3..] == "/?$"
  {
    var p := RegexPath(path, parameters);
    if p == "" then "^/$" else "^/" + p + "/?$"
  }

  /** Every compiled template is anchored at both ends: it starts with `^/` and ends with `$`. */
  lemma RegexStringAnchored(path: string, parameters: map<string, string>)
    ensures var r := ToRegexString(path, parameters);
      |r| >= 3 && r[..2] == "^/" && r[|r| - 1] == '$'
  {
    Anchored(RegexPath(path, parameters));
  }

  /** Both shapes `to_regex_string` writes around a path pattern are anchored. */
  lemma Anchored(p: string)
    ensures var r := if p == "" then "^/$" else "^/" + p + "/?$";
      |r| >= 3 && r[..2] == "^/" && r[|r| - 1] == '$'
  {
    if p != "" {
      assert ("^/" + p + "/?$")[..2] == "^/";
    }
  }

  /** The meaning of the regex `to_regex_string` produces. */
  function CompilePattern(path: string, parameters: map<string, string>): Pattern {
    if RegexPath(path, parameters) == "" then Root else Segments(SegmentPatterns(path, parameters))
  }

  /** The source a pattern is written as. */
  function PatternSource(p: Pattern): string {
    match p
    case Root => "^/$"
    case Segments(ps) => "^/" + Join(Sources(ps), "/") + "/?$"
  }

  /** The regex of a template: the source string and its meaning. */
  function TemplateRegex(path: string, parameters: map<string, string>): Regex {
    Regex(ToRegexString(path, parameters), CompilePattern(path, parameters))
  }

  /** The source `to_regex_string` writes is exactly the source of the pattern the template means. */
  lemma TemplateSourceAgrees(path: string, parameters: map<string, string>)
    ensures TemplateRegex(path, parameters).source == PatternSource(TemplateRegex(path, parameters).pattern)
  {
  }

  /** A piece matched segment by segment without the engine. */
  predicate SegmentWise(p: SegPattern) {
    p.AnySegment? || (p.Literal? && Plain(p.text))
  }

  predicate Deterministic(p: Pattern) {
    p.Root? || forall i :: 0 <= i < |p.segs| ==> SegmentWise(p.segs[i])
  }

  predicate SegmentMatches(p: SegPattern, s: string) {
    match p
    case AnySegment => |s| > 0 && forall i :: 0 <= i < |s| ==> InDefaultClass(s[i])
    case Literal(text) => s == text
    case Constraint(_) => false
  }

  predicate SegmentsMatch(ps: seq<SegPattern>, segs: seq<string>) {
    |ps| == |segs| && forall i :: 0 <= i < |ps| ==> SegmentMatches(ps[i], segs[i])
  }

  /** `^/p1/p2/.../pn/?$` on a path: a leading `/`, the segments, an optional trailing `/`. */
  predicate PathMatches(ps: seq<SegPattern>, path: string) {
    |path| >= 1 && path[0] == '/' &&
    (SegmentsMatch(ps, Split(path[1..], '/')) ||
     (|path| >= 2 && path[|path| - 1] == '/' && SegmentsMatch(ps, Split(path[1..|path| - 1], '/'))))
  }

  /** `Regex::is_match` on a path. */
  predicate IsMatch(e: Engine, r: Regex, path: string) {
    match r.pattern
    case Root => path == "/"
    case Segments(ps) => if Deterministic(r.pattern) then PathMatches(ps, path) else e.matches(r.source, path)
  }

  /**
   * `Regex::new(&to_regex_string())`. A pattern of plain literals and default
   * classes is always a valid regex; anything else is up to the engine.
   */
  function NewRegex(e: Engine, path: string, parameters: map<string, string>): (r: Result<Regex, RegexError>)
    ensures r.Ok? ==> r.value == TemplateRegex(path, parameters)
    ensures r.Err? <==>
      !Deterministic(CompilePattern(path, parameters)) && !e.accepts(ToRegexString(path, parameters))
    ensures r.Err? ==> r.error == RegexError(ToRegexString(path, parameters))
  {
    var regex := TemplateRegex(path, parameters);
    if Deterministic(regex.pattern) || e.accepts(regex.source) then Ok(regex) else Err(RegexError(regex.source))
  }

  lemma SplitEmpty(c: char)
    ensures Split("", c) == [""]
  {
  }

  /** A template with nothing left once `/` is trimmed compiles to `^/$`, which matches only `/`. */
  lemma RootTemplate(e: Engine, path: string, parameters: map<string, string>, p: string)
    requires TrimMatches(path, '/') == ""
    ensures ToRegexString(path, parameters) == "^/$"
    ensures TemplateRegex(path, parameters).pattern == Root
    ensures IsMatch(e, TemplateRegex(path, parameters), p) <==> p == "/"
  {
    SplitEmpty('/');
    assert PathSegments(path) == [""];
    assert SegmentPattern("", parameters) == Literal("");
    assert Sources(SegmentPatterns(path, parameters)) == [""];
  }

  /** The pieces of a template with no `:` segment are its own segments. */
  lemma LiteralSources(path: string, parameters: map<string, string>)
    requires forall i :: 0 <= i < |PathSegments(path)| ==> !StartsWith(PathSegments(path)[i], ':')
    ensures Sources(SegmentPatterns(path, parameters)) == PathSegments(path)
    ensures forall i :: 0 <= i < |PathSegments(path)| ==> SegmentPatterns(path, parameters)[i] == Literal(PathSegments(path)[i])
  {
  }

  /**
   * A template of literal segments compiles to itself, trimmed of `/`,
   * between `^/` and `/?$`: literal segments are copied unescaped.
   */
  lemma LiteralTemplate(path: string, parameters: map<string, string>)
    requires TrimMatches(path, '/') != ""
    requires forall i :: 0 <= i < |PathSegments(path)| ==> !StartsWith(PathSegments(path)[i], ':')
    ensures ToRegexString(path, parameters) == "^/" + TrimMatches(path, '/') + "/?$"
  {
    LiteralSources(path, parameters);
    SplitJoin(TrimMatches(path, '/'), '/');
  }

  /** A path whose segments each satisfy their piece is matched, with or without a trailing `/`. */
  lemma SegmentsMatchPath(ps: seq<SegPattern>, body: string)
    requires SegmentsMatch(ps, Split(body, '/'))
    ensures PathMatches(ps, "/" + body)
    ensures PathMatches(ps, "/" + body + "/")
  {
    assert ("/" + body)[1..] == body;
    var q := "/" + body + "/";
    assert q[1..|q| - 1] == body;
  }

  /** The trailing `/` is optional: whatever a segment-wise pattern matches, it matches with one more `/`. */
  lemma TrailingSlashOptional(e: Engine, r: Regex, path: string)
    requires r.pattern.Segments? && Deterministic(r.pattern)
    requires IsMatch(e, r, path)
    requires path[|path| - 1] != '/'
    ensures IsMatch(e, r, path + "/")
  {
    var q := path + "/";
    assert q[1..|q| - 1] == path[1..];
  }

  /**
   * A template of plain literal segments matches its own path, and only
   * paths that consist of the same segments.
   */
  lemma LiteralTemplateMatchesItself(e: Engine, path: string, parameters: map<string, string>)
    requires TrimMatches(path, '/') != ""
    requires forall i :: 0 <= i < |PathSegments(path)| ==> !StartsWith(PathSegments(path)[i], ':')
    requires forall i :: 0 <= i < |PathSegments(path)| ==> Plain(PathSegments(path)[i])
    ensures IsMatch(e, TemplateRegex(path, parameters), "/" + TrimMatches(path, '/'))
    ensures IsMatch(e, TemplateRegex(path, parameters), "/" + TrimMatches(path, '/') + "/")
  {
    LiteralTemplate(path, parameters);
    var ps := SegmentPatterns(path, parameters);
    assert RegexPath(path, parameters) != "" by {
      LiteralSources(path, parameters);
      SplitJoin(TrimMatches(path, '/'), '/');
    }
    LiteralSegmentsMatch(path, parameters);
    SegmentsMatchPath(ps, TrimMatches(path, '/'));
  }

  /** Each literal segment of a template matches the path segment it was made from. */
  lemma LiteralSegmentsMatch(path: string, parameters: map<string, string>)
    requires forall i :: 0 <= i < |PathSegments(path)| ==> !StartsWith(PathSegments(path)[i], ':')
    ensures SegmentsMatch(SegmentPatterns(path, parameters), Split(TrimMatches(path, '/'), '/'))
  {
    var ps := SegmentPatterns(path, parameters);
    var segs := PathSegments(path);
    LiteralSources(path, parameters);
    forall i | 0 <= i < |ps|
      ensures SegmentMatches(ps[i], segs[i])
    {
      assert ps[i] == Literal(segs[i]);
    }
  }

  /** The pieces of a two-segment template `/a/:b`. */
  lemma TwoSegmentTemplate(a: string, b: string)
    requires a != "" && b != "" && '/' !in a && '/' !in b && b[|b| - 1] != '/'
    ensures PathSegments("/" + a + "/" + b) == [a, b]
  {
    TwoSegmentTrimmed(a, b);
    TwoSegmentSplit(a, b);
  }

  /** Trimming `/a/b` leaves `a/b`. */
  lemma TwoSegmentTrimmed(a: string, b: string)
    requires a != "" && b != "" && '/' !in a && b[|b| - 1] != '/'
    ensures TrimMatches("/" + a + "/" + b, '/') == a + "/" + b
  {
    var t := a + "/" + b;
    Regrouped3("/", a, "/", b);
    assert t[0] == a[0] != '/' by { assert a[0] in a; }
    assert t[|t| - 1] == b[|b| - 1];
    LeadingSlashTrimmed(t);
  }

  /** `a/b` splits into `a` and `b`. */
  lemma TwoSegmentSplit(a: string, b: string)
    requires '/' !in a && '/' !in b
    ensures Split(a + "/" + b, '/') == [a, b]
  {
    SplitAround(a, '/', b);
    SplitFree(b, '/');
  }

  /** One leading slash before a segment list that neither starts nor ends with one is all that trimming removes. */
  lemma LeadingSlashTrimmed(t: string)
    requires !StartsWith(t, '/') && (|t| == 0 || t[|t| - 1] != '/')
    ensures TrimMatches("/" + t, '/') == t
  {
    assert ("/" + t)[1..] == t;
    assert TrimStartMatches("/" + t, '/') == TrimStartMatches(t, '/');
    TrimMatchesNoop(t, '/');
  }

  /**
   * `/a/:b` compiles to `^/a/<piece>/?$`, where the piece is the constraint
   * registered for `b` or the default class.
   */
  lemma ParameterTemplate(a: string, b: string, parameters: map<string, string>)
    requires a != "" && b != "" && '/' !in a && '/' !in b && b[|b| - 1] != '/'
    requires a[0] != ':' && b[0] != ':' && b[|b| - 1] != ':'
    ensures b !in parameters ==>
      ToRegexString("/" + a + "/:" + b, parameters) == "^/" + a + "/" + DefaultParameterClass + "/?$"
    ensures b in parameters ==>
      ToRegexString("/" + a + "/:" + b, parameters) == "^/" + a + "/" + parameters[b] + "/?$"
  {
    var path := "/" + a + "/:" + b;
    ColonSegment("/" + a, b);
    TwoSegmentTemplate(a, ":" + b);
    NamedSegment(b, parameters);
    TwoSegmentRegex(path, a, ":" + b, parameters);
  }

  lemma TwoSegmentRegex(path: string, a: string, b: string, parameters: map<string, string>)
    requires PathSegments(path) == [a, b] && !StartsWith(a, ':')
    ensures ToRegexString(path, parameters) == "^/" + a + "/" + SegmentSource(SegmentPattern(b, parameters)) + "/?$"
  {
    var ps := SegmentPatterns(path, parameters);
    assert ps[0] == Literal(a) && ps[1] == SegmentPattern(b, parameters);
    TwoPieces(ps);
    var x := SegmentSource(SegmentPattern(b, parameters));
    var p := RegexPath(path, parameters);
    assert p == a + "/" + x;
    assert p != "" by {
      assert |p| == |a| + 1 + |x|;
    }
    assert ToRegexString(path, parameters) == "^/" + p + "/?$";
    Regrouped3("^/", a, "/", x);
  }

  lemma TwoPieces(ps: seq<SegPattern>)
    requires |ps| == 2
    ensures Join(Sources(ps), "/") == SegmentSource(ps[0]) + "/" + SegmentSource(ps[1])
  {
    var srcs := Sources(ps);
    assert srcs[1..] == [SegmentSource(ps[1])];
  }

  /** A `:name` segment is the constraint registered for `name`, or the default class. */
  lemma NamedSegment(b: string, parameters: map<string, string>)
    requires b != "" && b[0] != ':' && b[|b| - 1] != ':'
    ensures SegmentSource(SegmentPattern(":" + b, parameters))
      == if b in parameters then parameters[b] else DefaultParameterClass
  {
    assert (":" + b)[1..] == b;
    assert TrimStartMatches(":" + b, ':') == b;
    assert TrimEndMatches(b, ':') == b;
  }

  /** The pieces of a one-segment template `/a`. */
  lemma OneSegmentTemplate(a: string)
    requires a != "" && '/' !in a
    ensures PathSegments("/" + a) == [a]
  {
    var s := "/" + a;
    assert s[1..] == a;
    assert a[0] != '/' by { assert a[0] in a; }
    assert a[|a| - 1] != '/' by { assert a[|a| - 1] in a; }
    assert TrimStartMatches(s, '/') == a;
    SplitFree(a, '/');
  }

  /** The pieces of `/a/b/`: the trailing `/` is trimmed away. */
  lemma TwoSegmentSlashTemplate(a: string, b: string)
    requires a != "" && b != "" && '/' !in a && '/' !in b
    ensures PathSegments("/" + a + "/" + b + "/") == [a, b]
  {
    var s := "/" + a + "/" + b + "/";
    assert s[1..] == a + "/" + b + "/";
    assert a[0] != '/' by { assert a[0] in a; }
    assert b[|b| - 1] != '/' by { assert b[|b| - 1] in b; }
    assert TrimStartMatches(s, '/') == a + "/" + b + "/";
    assert (a + "/" + b + "/")[..|a + "/" + b + "/"| - 1] == a + "/" + b;
    assert TrimEndMatches(a + "/" + b + "/", '/') == a + "/" + b;
    SplitAround(a, '/', b);
    SplitFree(b, '/');
  }

  /** A one-segment literal template compiles to that literal. */
  lemma OneLiteralPattern(path: string, a: string, parameters: map<string, string>)
    requires PathSegments(path) == [a] && a != "" && !StartsWith(a, ':')
    ensures CompilePattern(path, parameters) == Segments([Literal(a)])
  {
    var ps := SegmentPatterns(path, parameters);
    assert ps == [Literal(a)];
    assert Sources(ps) == [a];
  }

  /** A two-segment template whose first segment is a literal. */
  lemma TwoSegmentPattern(path: string, a: string, b: string, parameters: map<string, string>)
    requires PathSegments(path) == [a, b] && !StartsWith(a, ':')
    ensures CompilePattern(path, parameters) == Segments([Literal(a), SegmentPattern(b, parameters)])
  {
    var ps := SegmentPatterns(path, parameters);
    assert ps == [Literal(a), SegmentPattern(b, parameters)];
    TwoPieces(ps);
  }

  /** `/` is matched by the patterns that accept one empty segment. */
  lemma MatchRootPath(ps: seq<SegPattern>)
    ensures PathMatches(ps, "/") <==> SegmentsMatch(ps, [""])
  {
    assert "/"[1..] == "";
  }

  /** `/a` is one segment. */
  lemma MatchOnePath(ps: seq<SegPattern>, a: string)
    requires a != "" && '/' !in a
    ensures PathMatches(ps, "/" + a) <==> SegmentsMatch(ps, [a])
  {
    var p := "/" + a;
    assert p[1..] == a;
    assert p[|p| - 1] == a[|a| - 1];
    assert a[|a| - 1] in a;
    SplitFree(a, '/');
  }

  /** `/a/`: one segment followed by an empty one, or one segment and the optional `/`. */
  lemma MatchOnePathSlash(ps: seq<SegPattern>, a: string)
    requires '/' !in a
    ensures PathMatches(ps, "/" + a + "/") <==> SegmentsMatch(ps, [a, ""]) || SegmentsMatch(ps, [a])
  {
    var p := "/" + a + "/";
    assert p[1..] == a + ['/'] + "";
    assert p[1..|p| - 1] == a;
    SplitAround(a, '/', "");
    SplitFree(a, '/');
  }

  /** `/a/b` is two segments. */
  lemma MatchTwoPath(ps: seq<SegPattern>, a: string, b: string)
    requires b != "" && '/' !in a && '/' !in b
    ensures PathMatches(ps, "/" + a + "/" + b) <==> SegmentsMatch(ps, [a, b])
  {
    var p := "/" + a + "/" + b;
    assert p[1..] == a + ['/'] + b;
    assert p[|p| - 1] == b[|b| - 1];
    assert b[|b| - 1] in b;
    SplitAround(a, '/', b);
    SplitFree(b, '/');
  }

  /** `/a/b/`: two segments and an empty one, or two segments and the optional `/`. */
  lemma MatchTwoPathSlash(ps: seq<SegPattern>, a: string, b: string)
    requires '/' !in a && '/' !in b
    ensures PathMatches(ps, "/" + a + "/" + b + "/") <==> SegmentsMatch(ps, [a, b, ""]) || SegmentsMatch(ps, [a, b])
  {
    var p := "/" + a + "/" + b + "/";
    assert p[1..] == a + ['/'] + (b + ['/'] + "");
    assert p[1..|p| - 1] == a + ['/'] + b;
    SplitAround(a, '/', b + ['/'] + "");
    SplitAround(b, '/', "");
    SplitAround(a, '/', b);
    SplitFree(b, '/');
  }

  /** The default class matches exactly the nonempty segments of letters, digits, `-` and `_`. */
  lemma DefaultClassSegment(s: string)
    ensures SegmentMatches(AnySegment, s) <==> s != "" && forall i :: 0 <= i < |s| ==> InDefaultClass(s[i])
  {
  }

  /** The `(parameter, value)` pairs of aligned segments whose template side starts with `:`. */
  function ParameterPairs(template: seq<string>, segments: seq<string>): (r: seq<(string, string)>)
    ensures |r| <= |template| && |r| <= |segments|
    decreases |template|
  {
    if |template| == 0 || |segments| == 0 then []
    else
      var rest := ParameterPairs(template[1..], segments[1..]);
      if StartsWith(template[0], ':') then [(TrimStartMatches(template[0], ':'), segments[0])] + rest else rest
  }

  /** Template segment `i` starts with `:` and has a path segment beside it. */
  predicate AlignedColon(template: seq<string>, segments: seq<string>, i: int) {
    0 <= i < |template| && i < |segments| && StartsWith(template[i], ':')
  }

  /** Every index one further on. */
  function Shifted(ix: seq<nat>): (r: seq<nat>)
    ensures |r| == |ix| && forall k :: 0 <= k < |ix| ==> r[k] == ix[k] + 1
  {
    seq(|ix|, k requires 0 <= k < |ix| => ix[k] + 1)
  }

  /** The indices of the aligned `:` segments, in increasing order. */
  function AlignedColons(template: seq<string>, segments: seq<string>): seq<nat>
    decreases |template|
  {
    if |template| == 0 || |segments| == 0 then []
    else
      (if StartsWith(template[0], ':') then [0] else []) + Shifted(AlignedColons(template[1..], segments[1..]))
  }

  /** Each listed index is an aligned `:` segment. */
  lemma {:induction false} AlignedColonAt(template: seq<string>, segments: seq<string>, k: int)
    requires 0 <= k < |AlignedColons(template, segments)|
    ensures AlignedColon(template, segments, AlignedColons(template, segments)[k])
    decreases |template|
  {
    var rest := AlignedColons(template[1..], segments[1..]);
    var head: seq<nat> := if StartsWith(template[0], ':') then [0] else [];
    assert AlignedColons(template, segments) == head + Shifted(rest);
    if k >= |head| {
      AlignedColonAt(template[1..], segments[1..], k - |head|);
      var i := rest[k - |head|];
      assert template[1..][i] == template[i + 1];
    }
  }

  /** The indices grow strictly. */
  lemma {:induction false} AlignedColonsIncreasing(template: seq<string>, segments: seq<string>, k1: int, k2: int)
    requires 0 <= k1 < k2 < |AlignedColons(template, segments)|
    ensures AlignedColons(template, segments)[k1] < AlignedColons(template, segments)[k2]
    decreases |template|
  {
    var rest := AlignedColons(template[1..], segments[1..]);
    var head: seq<nat> := if StartsWith(template[0], ':') then [0] else [];
    var ix := head + Shifted(rest);
    assert ix == AlignedColons(template, segments);
    var d := |head|;
    assert ix[k2] == Shifted(rest)[k2 - d];
    if k1 >= d {
      assert ix[k1] == Shifted(rest)[k1 - d];
      AlignedColonsIncreasing(template[1..], segments[1..], k1 - d, k2 - d);
    }
  }

  /** Every aligned `:` segment is among the indices. */
  lemma {:induction false} AlignedColonsComplete(template: seq<string>, segments: seq<string>, i: int) returns (k: nat)
    requires AlignedColon(template, segments, i)
    ensures k < |AlignedColons(template, segments)| && AlignedColons(template, segments)[k] == i
    decreases |template|
  {
    var rest := AlignedColons(template[1..], segments[1..]);
    var head: seq<nat> := if StartsWith(template[0], ':') then [0] else [];
    assert AlignedColons(template, segments) == head + Shifted(rest);
    if i == 0 {
      k := 0;
    } else {
      assert template[1..][i - 1] == template[i];
      var h := AlignedColonsComplete(template[1..], segments[1..], i - 1);
      k := h + |head|;
    }
  }

  /** There are as many pairs as aligned `:` segments. */
  lemma {:induction false} ParameterPairsCount(template: seq<string>, segments: seq<string>)
    ensures |ParameterPairs(template, segments)| == |AlignedColons(template, segments)|
    decreases |template|
  {
    if |template| > 0 && |segments| > 0 {
      ParameterPairsCount(template[1..], segments[1..]);
    }
  }

  /**
   * The `j`-th pair is the `:`-stripped name of the `j`-th aligned `:`
   * segment and the path segment beside it.
   */
  lemma {:induction false} ParameterPairAt(template: seq<string>, segments: seq<string>, j: int)
    requires 0 <= j < |ParameterPairs(template, segments)|
    ensures j < |AlignedColons(template, segments)|
    ensures var i := AlignedColons(template, segments)[j];
      AlignedColon(template, segments, i)
      && ParameterPairs(template, segments)[j] == (TrimStartMatches(template[i], ':'), segments[i])
    decreases |template|
  {
    ParameterPairsCount(template, segments);
    AlignedColonAt(template, segments, j);
    var rest := ParameterPairs(template[1..], segments[1..]);
    var rix := AlignedColons(template[1..], segments[1..]);
    var head: seq<nat> := if StartsWith(template[0], ':') then [0] else [];
    assert AlignedColons(template, segments) == head + Shifted(rix);
    var d := |head|;
    if j >= d {
      assert ParameterPairs(template, segments)[j] == rest[j - d];
      ParameterPairAt(template[1..], segments[1..], j - d);
      var i := rix[j - d];
      assert template[1..][i] == template[i + 1] && segments[1..][i] == segments[i + 1];
    }
  }

  /**
   * `Route::parameters`: the pairs collected into a map; every key is the
   * name of an aligned `:` segment.
   */
  function Parameters(path: string, uriPath: string): (m: map<string, string>)
    ensures forall name :: name in m ==> exists i :: NamesAt(PathSegments(path), PathSegments(uriPath), i, name)
  {
    var m := HttpRequest.PairsToMap(ParameterPairs(PathSegments(path), PathSegments(uriPath)));
    forall name | name in m
      ensures exists i :: NamesAt(PathSegments(path), PathSegments(uriPath), i, name)
    {
      ParameterPairsNames(PathSegments(path), PathSegments(uriPath), name);
    }
    m
  }

  /** An aligned `:` segment: template segment `i` names a parameter and has a path segment beside it. */
  predicate NamesAt(template: seq<string>, segments: seq<string>, i: int, name: string) {
    0 <= i < |template| && i < |segments| && StartsWith(template[i], ':') && TrimStartMatches(template[i], ':') == name
  }

  /** The pairs are exactly the aligned `:` segments: pairing stops at the shorter list. */
  lemma ParameterPairsNames(template: seq<string>, segments: seq<string>, name: string)
    ensures (exists j :: 0 <= j < |ParameterPairs(template, segments)| && ParameterPairs(template, segments)[j].0 == name)
      <==> (exists i :: NamesAt(template, segments, i, name))
  {
    if exists i :: NamesAt(template, segments, i, name) {
      var i :| NamesAt(template, segments, i, name);
      var j := AlignedSegmentPaired(template, segments, i, name);
    }
    if exists j :: 0 <= j < |ParameterPairs(template, segments)| && ParameterPairs(template, segments)[j].0 == name {
      var j :| 0 <= j < |ParameterPairs(template, segments)| && ParameterPairs(template, segments)[j].0 == name;
      var i := PairedSegmentAligned(template, segments, j, name);
    }
  }

  /** Every aligned `:` segment gives a pair for its name. */
  lemma {:induction false} AlignedSegmentPaired(template: seq<string>, segments: seq<string>, i: int, name: string) returns (j: nat)
    requires NamesAt(template, segments, i, name)
    ensures j < |ParameterPairs(template, segments)| && ParameterPairs(template, segments)[j].0 == name
    decreases |template|
  {
    var pairs := ParameterPairs(template, segments);
    var rest := ParameterPairs(template[1..], segments[1..]);
    if i == 0 {
      j := 0;
    } else {
      assert NamesAt(template[1..], segments[1..], i - 1, name);
      var k := AlignedSegmentPaired(template[1..], segments[1..], i - 1, name);
      if StartsWith(template[0], ':') {
        j := k + 1;
        assert pairs[j] == rest[k];
      } else {
        j := k;
        assert pairs[j] == rest[k];
      }
    }
  }

  /** Every pair comes from an aligned `:` segment with its name. */
  lemma {:induction false} PairedSegmentAligned(template: seq<string>, segments: seq<string>, j: nat, name: string) returns (i: nat)
    requires j < |ParameterPairs(template, segments)| && ParameterPairs(template, segments)[j].0 == name
    ensures NamesAt(template, segments, i, name)
    decreases |template|
  {
    var pairs := ParameterPairs(template, segments);
    var rest := ParameterPairs(template[1..], segments[1..]);
    if StartsWith(template[0], ':') && j == 0 {
      i := 0;
    } else {
      var k := if StartsWith(template[0], ':') then j - 1 else j;
      assert rest[k] == pairs[j];
      var h := PairedSegmentAligned(template[1..], segments[1..], k, name);
      i := h + 1;
      assert template[1..][h] == template[i];
    }
  }

  /** A route parameter is present exactly when an aligned template segment names it. */
  lemma ParametersDomain(path: string, uriPath: string, name: string)
    ensures name in Parameters(path, uriPath) <==> exists i :: NamesAt(PathSegments(path), PathSegments(uriPath), i, name)
  {
    ParameterPairsNames(PathSegments(path), PathSegments(uriPath), name);
  }

  /**
   * A route parameter's value is the path segment beside the last aligned
   * template segment that names it: a later `:name` overwrites an earlier one.
   */
  lemma ParametersValue(path: string, uriPath: string, name: string) returns (i: nat)
    requires name in Parameters(path, uriPath)
    ensures NamesAt(PathSegments(path), PathSegments(uriPath), i, name)
    ensures Parameters(path, uriPath)[name] == PathSegments(uriPath)[i]
    ensures forall k :: i < k ==> !NamesAt(PathSegments(path), PathSegments(uriPath), k, name)
  {
    i := PairsValue(PathSegments(path), PathSegments(uriPath), name);
  }

  /** The same on the segment lists, before the map is named. */
  lemma PairsValue(t: seq<string>, u: seq<string>, name: string) returns (i: nat)
    requires name in HttpRequest.PairsToMap(ParameterPairs(t, u))
    ensures NamesAt(t, u, i, name)
    ensures HttpRequest.PairsToMap(ParameterPairs(t, u))[name] == u[i]
    ensures forall k :: i < k ==> !NamesAt(t, u, k, name)
  {
    var pairs := ParameterPairs(t, u);
    var j := LastNamed(pairs, name);
    HttpRequest.PairsToMapLastWins(pairs, j);
    ParameterPairAt(t, u, j);
    i := AlignedColons(t, u)[j];
    forall k | NamesAt(t, u, k, name)
      ensures k <= i
    {
      NoLaterAligned(t, u, name, j, k);
    }
  }

  /** The pair last named `name` comes from the last aligned segment naming it. */
  lemma NoLaterAligned(t: seq<string>, u: seq<string>, name: string, j: nat, k: int)
    requires j < |ParameterPairs(t, u)|
    requires forall h :: j < h < |ParameterPairs(t, u)| ==> ParameterPairs(t, u)[h].0 != name
    requires NamesAt(t, u, k, name)
    ensures j < |AlignedColons(t, u)| && k <= AlignedColons(t, u)[j]
  {
    ParameterPairsCount(t, u);
    var h := AlignedColonsComplete(t, u, k);
    ParameterPairAt(t, u, h);
    if h < j {
      AlignedColonsIncreasing(t, u, h, j);
    }
  }

  /** Conversely, the last aligned segment naming a parameter gives its value. */
  lemma ParametersValueAt(path: string, uriPath: string, i: int, name: string)
    requires NamesAt(PathSegments(path), PathSegments(uriPath), i, name)
    requires forall k :: i < k ==> !NamesAt(PathSegments(path), PathSegments(uriPath), k, name)
    ensures name in Parameters(path, uriPath)
    ensures Parameters(path, uriPath)[name] == PathSegments(uriPath)[i]
  {
    ParametersDomain(path, uriPath, name);
    var last := ParametersValue(path, uriPath, name);
    assert !(i < last) && !(last < i);
  }

  /** The last position of a pair with the given key. */
  lemma {:induction false} LastNamed(pairs: seq<(string, string)>, name: string) returns (j: nat)
    requires exists j :: 0 <= j < |pairs| && pairs[j].0 == name
    ensures j < |pairs| && pairs[j].0 == name
    ensures forall h :: j < h < |pairs| ==> pairs[h].0 != name
    decreases |pairs|
  {
    var n := |pairs| - 1;
    if pairs[n].0 == name {
      j := n;
    } else {
      var w :| 0 <= w < |pairs| && pairs[w].0 == name;
      assert pairs[..n][w] == pairs[w];
      j := LastNamed(pairs[..n], name);
      assert pairs[..n][j] == pairs[j];
      forall h | j < h < |pairs|
        ensures pairs[h].0 != name
      {
        if h < n {
          assert pairs[..n][h] == pairs[h];
        }
      }
    }
  }

  /** `/a/:n` against `/a2/v` gives exactly `{n: v}`. */
  lemma TwoSegmentParameters(a: string, n: string, a2: string, v: string)
    requires a != "" && n != "" && a2 != "" && v != ""
    requires '/' !in a && '/' !in n && '/' !in a2 && '/' !in v
    requires a[0] != ':' && n[0] != ':' && n[|n| - 1] != '/' && v[|v| - 1] != '/'
    ensures Parameters("/" + a + "/:" + n, "/" + a2 + "/" + v) == map[n := v]
  {
    var path := "/" + a + "/:" + n;
    var uriPath := "/" + a2 + "/" + v;
    ColonSegment("/" + a, n);
    TwoSegmentTemplate(a, ":" + n);
    TwoSegmentTemplate(a2, v);
    var t := PathSegments(path);
    var u := PathSegments(uriPath);
    assert TrimStartMatches(":" + n, ':') == n by {
      assert (":" + n)[1..] == n;
    }
    assert NamesAt(t, u, 1, n);
    SingleNamedSegment(path, uriPath, 1, n);
  }

  /** A template with exactly one aligned `:` segment gives exactly that one parameter. */
  lemma SingleNamedSegment(path: string, uriPath: string, i: int, n: string)
    requires NamesAt(PathSegments(path), PathSegments(uriPath), i, n)
    requires forall k :: 0 <= k < |PathSegments(path)| && k != i ==> !StartsWith(PathSegments(path)[k], ':')
    ensures Parameters(path, uriPath) == map[n := PathSegments(uriPath)[i]]
  {
    var t := PathSegments(path);
    var u := PathSegments(uriPath);
    ParametersValueAt(path, uriPath, i, n);
    forall name | name in Parameters(path, uriPath)
      ensures name == n
    {
      var k :| NamesAt(t, u, k, name);
    }
  }

  /** `w/:n` is `w/` followed by the segment `:n`. */
  lemma ColonSegment(w: string, n: string)
    ensures w + "/:" + n == w + "/" + (":" + n)
  {
    assert "/:" == "/" + ":";
    Regrouped(w, "/", ":");
    Regrouped(w + "/", ":", n);
  }

  /** Pairing a literal and a `:` segment with two path segments names the second one. */
  lemma TwoPairs(a: string, n: string, a2: string, v: string)
    requires a != "" && a[0] != ':' && n != "" && n[0] != ':'
    ensures ParameterPairs([a, ":" + n], [a2, v]) == [(n, v)]
  {
    assert TrimStartMatches(":" + n, ':') == n by {
      assert (":" + n)[1..] == n;
    }
    var t := [a, ":" + n];
    var u := [a2, v];
    assert t[1..] == [":" + n] && u[1..] == [v];
    assert ParameterPairs([":" + n], [v]) == [(n, v)];
  }

  /** `/foo/:bar` against `/foo/asd123` gives exactly `{bar: asd123}`. */
  lemma ParametersExample()
    ensures Parameters("/foo/:bar", "/foo/asd123") == map["bar" := "asd123"]
  {
    assert "/foo/:bar" == "/" + "foo" + "/:" + "bar";
    assert "/foo/asd123" == "/" + "foo" + "/" + "asd123";
    TwoSegmentParameters("foo", "bar", "foo", "asd123");
  }
}

/**
 * The API policy: declarative path rules, their compilation to route indexes, and
 * the proof that looking a path up in the indexes is the rule-by-rule meaning.
 */
module Policy {
  import opened Common
  import opened Text

  /** The name of the catch-all that a prefix rule adds. */
  const CATCH_ALL: string := "*__breeze_policy_path"

  datatype MatchKind = Prefix | Exact

  datatype PathRule = PathRule(path: string, kind: MatchKind)

  datatype Config = Config(caseLimit: Option<nat>, includes: seq<PathRule>, excludes: seq<PathRule>)

  const DEFAULT := Config(None, [], [])

  datatype PolicyError = LimitTooLarge | InvalidPath | InvalidPrefix | InvalidTemplate

  /** What the URI parser makes of a rule path. */
  datatype UriParse = Rejected | Parsed(path: string, hasQuery: bool)

  /**
   * The libraries behind the compiler: the URI parser, and what the route index
   * refuses beyond malformed templates, such as repeated templates or parameter names.
   */
  datatype Library = Library(uri: string -> UriParse, rejects: seq<string> -> bool) {
    /** An index without templates always compiles. */
    predicate Refuses(templates: seq<string>) { templates != [] && rejects(templates) }
  }

  // ---------------------------------------------------------------------------
  // Route templates
  // ---------------------------------------------------------------------------

  predicate IsParameter(segment: string) { segment != "" && segment[0] == ':' }

  predicate IsCatchAll(segment: string) { segment != "" && segment[0] == '*' }

  predicate IsLiteral(segment: string) { !IsParameter(segment) && !IsCatchAll(segment) }

  function Segments(path: string): (r: seq<string>)
    ensures r != []
  {
    Split(path, '/')
  }

  /** Literals match themselves, `:x` one nonempty segment, a terminal `*x` any remainder. */
  predicate SegmentsMatch(template: seq<string>, path: seq<string>) {
    if template == [] then path == []
    else if |template| == 1 && IsCatchAll(template[0]) then path != []
    else
      && path != []
      && (if IsParameter(template[0]) then path[0] != "" else path[0] == template[0])
      && SegmentsMatch(template[1..], path[1..])
  }

  predicate TemplateMatches(template: string, path: string) {
    SegmentsMatch(Segments(template), Segments(path))
  }

  /** Templates accepted by the route index: absolute, with a catch-all only at the end. */
  predicate ValidTemplate(template: string) {
    && template != "" && template[0] == '/'
    && forall i | 0 <= i < |Segments(template)| - 1 :: !IsCatchAll(Segments(template)[i])
  }

  /** The first declared template that matches, as `RouteIndex::resolve` selects it. */
  function FirstMatch(index: seq<string>, path: string): (id: Option<nat>)
    ensures id.Some? ==> id.value < |index| && TemplateMatches(index[id.value], path)
    ensures id.Some? ==> forall i | 0 <= i < id.value :: !TemplateMatches(index[i], path)
    ensures id.None? ==> forall i | 0 <= i < |index| :: !TemplateMatches(index[i], path)
  {
    if index == [] then None
    else if TemplateMatches(index[0], path) then Some(0)
    else
      var later := FirstMatch(index[1..], path);
      if later.Some? then Some(later.value + 1) else None
  }

  // ---------------------------------------------------------------------------
  // Compilation
  // ---------------------------------------------------------------------------

  datatype Compiled = Compiled(
    caseLimit: Option<nat>,
    includesAll: bool,
    exact: seq<string>,
    exactPaths: seq<string>,
    prefixes: seq<string>,
    excludes: seq<string>)

  predicate ValidPath(path: string, lib: Library) {
    && lib.uri(path).Parsed?
    && path != "" && path[0] == '/'
    && lib.uri(path).path == path && !lib.uri(path).hasQuery
    && '#' !in path
  }

  predicate LiteralPath(path: string) {
    path != "" && path[0] == '/' && forall segment | segment in Segments(path) :: IsLiteral(segment)
  }

  /** `trim_end_matches('/')` */
  function TrimEnd(path: string): (base: string)
    ensures |base| <= |path| && base == path[..|base|]
  {
    if path != "" && path[|path| - 1] == '/' then TrimEnd(path[..|path| - 1]) else path
  }

  function PrefixTemplates(path: string): (r: seq<string>) {
    var base := TrimEnd(path);
    [if base == "" then "/" else base, base + "/" + CATCH_ALL]
  }

  predicate RuleOk(rule: PathRule, lib: Library) {
    ValidPath(rule.path, lib) && (if rule.kind.Prefix? then LiteralPath(rule.path) else ValidTemplate(rule.path))
  }

  predicate Acceptable(config: Config, lib: Library) {
    && (config.caseLimit.Some? ==> config.caseLimit.value <= I64_MAX)
    && (forall i | 0 <= i < |config.includes| :: RuleOk(config.includes[i], lib))
    && (forall i | 0 <= i < |config.excludes| :: RuleOk(config.excludes[i], lib))
    && !lib.Refuses(Exacts(config.includes))
    && !lib.Refuses(Prefixes(config.includes))
    && !lib.Refuses(Templates(config.excludes))
  }

  function Exacts(rules: seq<PathRule>): (r: seq<string>) {
    if rules == [] then []
    else
      var last := rules[|rules| - 1];
      Exacts(rules[..|rules| - 1]) + (if last.kind.Exact? then [last.path] else [])
  }

  function Prefixes(rules: seq<PathRule>): (r: seq<string>) {
    if rules == [] then []
    else
      var last := rules[|rules| - 1];
      Prefixes(rules[..|rules| - 1]) + (if last.kind.Prefix? then PrefixTemplates(last.path) else [])
  }

  function Templates(rules: seq<PathRule>): (r: seq<string>) {
    if rules == [] then []
    else
      var last := rules[|rules| - 1];
      Templates(rules[..|rules| - 1]) + (if last.kind.Prefix? then PrefixTemplates(last.path) else [last.path])
  }

  function CompiledOf(config: Config): (c: Compiled) {
    Compiled(config.caseLimit, config.includes == [], Exacts(config.includes), Exacts(config.includes),
             Prefixes(config.includes), Templates(config.excludes))
  }

  /** `add_prefix` */
  method AddPrefix(rules: seq<string>, path: string) returns (r: Result<seq<string>, PolicyError>)
    ensures if LiteralPath(path) then r == Ok(rules + PrefixTemplates(path)) else r == Err(InvalidPrefix)
  {
    if path == "" || path[0] != '/' {
      return Err(InvalidPrefix);
    }
    var segments := Segments(path);
    for i := 0 to |segments|
      invariant forall k | 0 <= k < i :: IsLiteral(segments[k])
    {
      if !IsLiteral(segments[i]) {
        return Err(InvalidPrefix);
      }
    }
    var base := TrimEnd(path);
    var grown := rules + [if base == "" then "/" else base];
    grown := grown + [base + "/" + CATCH_ALL];
    assert grown == rules + PrefixTemplates(path);
    return Ok(grown);
  }

  /** `RouteIndex::compile`: an index of all templates, or an error. */
  method BuildIndex(templates: seq<string>, lib: Library) returns (ok: bool)
    ensures ok <==> !lib.Refuses(templates) && forall i | 0 <= i < |templates| :: ValidTemplate(templates[i])
  {
    for i := 0 to |templates|
      invariant forall k | 0 <= k < i :: ValidTemplate(templates[k])
    {
      if !ValidTemplate(templates[i]) {
        return false;
      }
    }
    return !lib.Refuses(templates);
  }

  /** Every rule has a valid path and every prefix rule is literal. */
  predicate RulesReadable(rules: seq<PathRule>, lib: Library) {
    forall k | 0 <= k < |rules| ::
      ValidPath(rules[k].path, lib) && (rules[k].kind.Prefix? ==> LiteralPath(rules[k].path))
  }

  /** The include loop of `compile`. */
  method CompileIncludes(rules: seq<PathRule>, lib: Library)
    returns (r: Result<(seq<string>, seq<string>, seq<string>), PolicyError>)
    ensures r.Ok? <==> RulesReadable(rules, lib)
    ensures r.Ok? ==> r.value == (Exacts(rules), Exacts(rules), Prefixes(rules))
  {
    hide ValidPath, LiteralPath, PrefixTemplates;
    var exact, exactPaths, prefixes: seq<string> := [], [], [];
    for i := 0 to |rules|
      invariant exact == exactPaths == Exacts(rules[..i]) && prefixes == Prefixes(rules[..i])
      invariant RulesReadable(rules[..i], lib)
    {
      var rule := rules[i];
      assert rules[..i + 1] == rules[..i] + [rule];
      assert rules[..i + 1][..i] == rules[..i];
      if !ValidPath(rule.path, lib) {
        return Err(InvalidPath);
      }
      match rule.kind {
        case Exact =>
          exactPaths := exactPaths + [rule.path];
          exact := exact + [rule.path];
        case Prefix =>
          var grown := AddPrefix(prefixes, rule.path);
          if grown.Err? {
            return Err(grown.error);
          }
          prefixes := grown.value;
      }
    }
    assert rules[..|rules|] == rules;
    return Ok((exact, exactPaths, prefixes));
  }

  /** The exclude loop of `compile`. */
  method CompileExcludes(rules: seq<PathRule>, lib: Library) returns (r: Result<seq<string>, PolicyError>)
    ensures r.Ok? <==> RulesReadable(rules, lib)
    ensures r.Ok? ==> r.value == Templates(rules)
  {
    hide ValidPath, LiteralPath, PrefixTemplates;
    var excludes: seq<string> := [];
    for i := 0 to |rules|
      invariant excludes == Templates(rules[..i])
      invariant RulesReadable(rules[..i], lib)
    {
      var rule := rules[i];
      assert rules[..i + 1] == rules[..i] + [rule];
      assert rules[..i + 1][..i] == rules[..i];
      if !ValidPath(rule.path, lib) {
        return Err(InvalidPath);
      }
      match rule.kind {
        case Exact => excludes := excludes + [rule.path];
        case Prefix =>
          var grown := AddPrefix(excludes, rule.path);
          if grown.Err? {
            return Err(grown.error);
          }
          excludes := grown.value;
      }
    }
    assert rules[..|rules|] == rules;
    return Ok(excludes);
  }

  /** `CompiledPolicy::compile` */
  method Compile(config: Config, lib: Library) returns (r: Result<Compiled, PolicyError>)
    ensures r.Ok? <==> Acceptable(config, lib)
    ensures r.Ok? ==> r.value == CompiledOf(config)
  {
    if config.caseLimit.Some? && config.caseLimit.value > I64_MAX {
      return Err(LimitTooLarge);
    }
    var included := CompileIncludes(config.includes, lib);
    if included.Err? {
      return Err(included.error);
    }
    var excluded := CompileExcludes(config.excludes, lib);
    if excluded.Err? {
      return Err(excluded.error);
    }
    var (exact, exactPaths, prefixes) := included.value;
    TemplatesAreValid(config.includes);
    TemplatesAreValid(config.excludes);
    var exactOk := BuildIndex(exact, lib);
    var prefixesOk := BuildIndex(prefixes, lib);
    var excludesOk := BuildIndex(excluded.value, lib);
    if !exactOk || !prefixesOk || !excludesOk {
      return Err(InvalidTemplate);
    }
    return Ok(Compiled(config.caseLimit, config.includes == [], exact, exactPaths, prefixes, excluded.value));
  }

  lemma LiteralBase(path: string)
    requires LiteralPath(path)
    ensures TrimEnd(path) == "" || (TrimEnd(path)[0] == '/' && LiteralPath(TrimEnd(path)))
    decreases |path|
  {
    if path[|path| - 1] == '/' {
      var shorter := path[..|path| - 1];
      assert path == shorter + ['/'] + "";
      SplitAppend(shorter, "", '/');
      if shorter != "" {
        assert forall segment | segment in Segments(shorter) :: segment in Segments(path);
        LiteralBase(shorter);
      }
    }
  }

  lemma {:induction false} WildSegments(base: string, name: string)
    requires '/' !in name
    ensures Segments(base + "/" + name) == Segments(base) + [name]
  {
    assert "/" == ['/'];
    SplitAppend(base, name, '/');
    SplitClean(name, '/');
  }

  lemma RootSegments()
    ensures Segments("/") == ["", ""]
  {
    SplitAppend("", "", '/');
    assert "" + ['/'] + "" == "/";
  }

  lemma LiteralIsValid(path: string)
    requires LiteralPath(path)
    ensures ValidTemplate(path)
  {
    forall i | 0 <= i < |Segments(path)| - 1 ensures !IsCatchAll(Segments(path)[i]) {
      assert Segments(path)[i] in Segments(path);
    }
  }

  lemma {:induction false} WildIsValid(base: string, name: string)
    requires base == "" || LiteralPath(base)
    requires '/' !in name
    ensures ValidTemplate(base + "/" + name)
  {
    var wild := base + "/" + name;
    WildSegments(base, name);
    assert wild[0] == '/';
    forall i | 0 <= i < |Segments(wild)| - 1 ensures !IsCatchAll(Segments(wild)[i]) {
      assert Segments(wild)[i] == Segments(base)[i];
      if base == "" {
        assert Segments(base) == [""];
      } else {
        assert Segments(base)[i] in Segments(base);
      }
    }
  }

  lemma PrefixTemplatesAreValid(path: string)
    requires LiteralPath(path)
    ensures forall t | t in PrefixTemplates(path) :: ValidTemplate(t)
  {
    var base := TrimEnd(path);
    LiteralBase(path);
    WildIsValid(base, CATCH_ALL);
    if base == "" {
      RootSegments();
      assert ValidTemplate("/");
    } else {
      LiteralIsValid(base);
    }
  }

  /** Every exact rule is a well-formed template. */
  predicate ExactsOk(rules: seq<PathRule>) {
    forall k | 0 <= k < |rules| && rules[k].kind.Exact? :: ValidTemplate(rules[k].path)
  }

  predicate AllValid(templates: seq<string>) { forall t | t in templates :: ValidTemplate(t) }

  lemma AllValidAppend(a: seq<string>, b: seq<string>)
    ensures AllValid(a + b) <==> AllValid(a) && AllValid(b)
  {
    hide ValidTemplate;
    assert forall t :: t in a + b <==> t in a || t in b;
  }

  lemma ExactsOkAppend(rules: seq<PathRule>)
    requires rules != []
    ensures var n := |rules| - 1;
            ExactsOk(rules) <==> ExactsOk(rules[..n]) && (rules[n].kind.Exact? ==> ValidTemplate(rules[n].path))
  {
    hide ValidTemplate;
    var n := |rules| - 1;
    assert forall k | 0 <= k < n :: rules[..n][k] == rules[k];
  }

  /** The index compiler finds a malformed template exactly when an exact rule is malformed. */
  lemma {:induction false} TemplatesAreValid(rules: seq<PathRule>)
    requires forall k | 0 <= k < |rules| && rules[k].kind.Prefix? :: LiteralPath(rules[k].path)
    ensures AllValid(Exacts(rules)) <==> ExactsOk(rules)
    ensures AllValid(Prefixes(rules))
    ensures AllValid(Templates(rules)) <==> ExactsOk(rules)
    decreases |rules|
  {
    hide ValidTemplate, PrefixTemplates, LiteralPath, ExactsOk;
    if rules == [] {
      assert ExactsOk(rules) by { NoRulesOk(); }
    } else {
      var n := |rules| - 1;
      var path := rules[n].path;
      TemplatesAreValid(rules[..n]);
      ExactsOkAppend(rules);
      if rules[n].kind.Prefix? {
        PrefixTemplatesAreValid(path);
        AllValidAppend(Prefixes(rules[..n]), PrefixTemplates(path));
        AllValidAppend(Templates(rules[..n]), PrefixTemplates(path));
      } else {
        AllValidAppend(Exacts(rules[..n]), [path]);
        AllValidAppend(Templates(rules[..n]), [path]);
      }
    }
  }

  lemma NoRulesOk()
    ensures ExactsOk([])
  {
  }

  // ---------------------------------------------------------------------------
  // Lookup, and its meaning rule by rule
  // ---------------------------------------------------------------------------

  /** `CompiledPolicy::api` */
  function Api(c: Compiled, path: string): (api: Option<string>)
    requires |c.exact| == |c.exactPaths|
  {
    if c.caseLimit == Some(0) || FirstMatch(c.excludes, path).Some? then None
    else
      var route := FirstMatch(c.exact, path);
      if route.Some? then Some(c.exactPaths[route.value])
      else if c.includesAll || FirstMatch(c.prefixes, path).Some? then Some(path)
      else None
  }

  /** A prefix covers itself and everything below it, by whole segments; `/` covers every absolute path. */
  predicate Covers(prefix: string, path: string) {
    var base := TrimEnd(prefix);
    base + "/" <= path || (base != "" && path == base)
  }

  predicate RuleMatches(rule: PathRule, path: string) {
    if rule.kind.Prefix? then Covers(rule.path, path) else TemplateMatches(rule.path, path)
  }

  /** The first declared exact include that matches. */
  ghost predicate IsFirstExact(rules: seq<PathRule>, i: nat, path: string) {
    && i < |rules| && rules[i].kind.Exact? && RuleMatches(rules[i], path)
    && forall k | 0 <= k < i && rules[k].kind.Exact? :: !RuleMatches(rules[k], path)
  }

  ghost predicate SomeRule(rules: seq<PathRule>, kind: MatchKind, path: string) {
    exists i :: 0 <= i < |rules| && rules[i].kind == kind && RuleMatches(rules[i], path)
  }

  /** The documented meaning of a policy for one path. */
  ghost predicate Means(config: Config, path: string, api: Option<string>) {
    if || config.caseLimit == Some(0)
       || SomeRule(config.excludes, Prefix, path)
       || SomeRule(config.excludes, Exact, path)
    then
      api == None
    else if SomeRule(config.includes, Exact, path) then
      exists i: nat :: IsFirstExact(config.includes, i, path) && api == Some(config.includes[i].path)
    else if config.includes == [] || SomeRule(config.includes, Prefix, path) then
      api == Some(path)
    else api == None
  }

  // ---------------------------------------------------------------------------
  // Prefix rules as two templates
  // ---------------------------------------------------------------------------

  lemma {:induction false} LiteralsMatchThemselves(t: seq<string>, p: seq<string>)
    requires forall segment | segment in t :: IsLiteral(segment)
    ensures SegmentsMatch(t, p) <==> t == p
    decreases |t|
  {
    if t != [] && p != [] {
      assert t[0] in t && t == [t[0]] + t[1..] && p == [p[0]] + p[1..];
      LiteralsMatchThemselves(t[1..], p[1..]);
    }
  }

  lemma {:induction false} CatchAllMatches(t: seq<string>, wild: string, p: seq<string>)
    requires IsCatchAll(wild) && forall segment | segment in t :: IsLiteral(segment)
    ensures SegmentsMatch(t + [wild], p) <==> |t| < |p| && p[..|t|] == t
    decreases |t|
  {
    var whole := t + [wild];
    if t == [] {
      assert whole == [wild];
    } else {
      assert t[0] in t && whole[0] == t[0] && whole[1..] == t[1..] + [wild];
      if p != [] {
        CatchAllMatches(t[1..], wild, p[1..]);
        if |t| < |p| {
          assert p[..|t|] == [p[0]] + p[1..][..|t| - 1];
          assert t == [t[0]] + t[1..];
        }
      }
    }
  }

  lemma {:induction false} LiteralTemplate(base: string, path: string)
    requires forall segment | segment in Segments(base) :: IsLiteral(segment)
    ensures TemplateMatches(base, path) <==> path == base
  {
    LiteralsMatchThemselves(Segments(base), Segments(path));
    if Segments(base) == Segments(path) {
      SplitIsInjective(base, path, '/');
    }
  }

  lemma {:induction false} WildTemplate(base: string, name: string, path: string)
    requires forall segment | segment in Segments(base) :: IsLiteral(segment)
    requires IsCatchAll(name) && '/' !in name
    ensures TemplateMatches(base + "/" + name, path) <==> base + "/" <= path
  {
    WildSegments(base, name);
    CatchAllMatches(Segments(base), name, Segments(path));
    assert "/" == ['/'];
    PiecePrefix(base, path, '/');
  }

  lemma PrefixIsTwoTemplates(prefix: string, path: string)
    requires LiteralPath(prefix)
    ensures Covers(prefix, path) <==> exists t :: t in PrefixTemplates(prefix) && TemplateMatches(t, path)
  {
    var base := TrimEnd(prefix);
    LiteralBase(prefix);
    var first, wild := if base == "" then "/" else base, base + "/" + CATCH_ALL;
    assert PrefixTemplates(prefix) == [first, wild];
    if base == "" {
      assert Segments(base) == [""];
      RootSegments();
      LiteralTemplate("/", path);
    } else {
      LiteralTemplate(base, path);
    }
    WildTemplate(base, CATCH_ALL, path);
    assert first in PrefixTemplates(prefix) && wild in PrefixTemplates(prefix);
  }

  // ---------------------------------------------------------------------------
  // The refinement theorem
  // ---------------------------------------------------------------------------

  ghost predicate AnyMatches(templates: seq<string>, path: string) {
    exists t :: t in templates && TemplateMatches(t, path)
  }

  lemma FirstMatchAny(index: seq<string>, path: string)
    ensures FirstMatch(index, path).Some? <==> AnyMatches(index, path)
  {
  }

  lemma AnyAppend(a: seq<string>, b: seq<string>, path: string)
    ensures AnyMatches(a + b, path) <==> AnyMatches(a, path) || AnyMatches(b, path)
  {
    if AnyMatches(a, path) {
      var t :| t in a && TemplateMatches(t, path);
      assert t in a + b;
    }
    if AnyMatches(b, path) {
      var t :| t in b && TemplateMatches(t, path);
      assert t in a + b;
    }
  }

  /** One more rule at the end. */
  lemma SomeAppend(rules: seq<PathRule>, kind: MatchKind, path: string)
    requires rules != []
    ensures var n := |rules| - 1;
            SomeRule(rules, kind, path) <==>
            SomeRule(rules[..n], kind, path) || (rules[n].kind == kind && RuleMatches(rules[n], path))
  {
    var n := |rules| - 1;
    assert forall k | 0 <= k < n :: rules[..n][k] == rules[k];
  }

  lemma {:induction false} PrefixesMean(rules: seq<PathRule>, path: string)
    requires forall k | 0 <= k < |rules| && rules[k].kind.Prefix? :: LiteralPath(rules[k].path)
    ensures AnyMatches(Prefixes(rules), path) <==> SomeRule(rules, Prefix, path)
    decreases |rules|
  {
    if rules != [] {
      var n := |rules| - 1;
      PrefixesMean(rules[..n], path);
      SomeAppend(rules, Prefix, path);
      var added := if rules[n].kind.Prefix? then PrefixTemplates(rules[n].path) else [];
      AnyAppend(Prefixes(rules[..n]), added, path);
      if rules[n].kind.Prefix? {
        PrefixIsTwoTemplates(rules[n].path, path);
      }
    }
  }

  lemma {:induction false} TemplatesMean(rules: seq<PathRule>, path: string)
    requires forall k | 0 <= k < |rules| && rules[k].kind.Prefix? :: LiteralPath(rules[k].path)
    ensures AnyMatches(Templates(rules), path) <==> SomeRule(rules, Prefix, path) || SomeRule(rules, Exact, path)
    decreases |rules|
  {
    if rules != [] {
      var n := |rules| - 1;
      TemplatesMean(rules[..n], path);
      SomeAppend(rules, Prefix, path);
      SomeAppend(rules, Exact, path);
      var added := if rules[n].kind.Prefix? then PrefixTemplates(rules[n].path) else [rules[n].path];
      AnyAppend(Templates(rules[..n]), added, path);
      if rules[n].kind.Prefix? {
        PrefixIsTwoTemplates(rules[n].path, path);
      } else {
        assert rules[n].path in added;
      }
    }
  }

  lemma FirstMatchAppend(index: seq<string>, t: string, path: string)
    ensures var first := FirstMatch(index, path);
            FirstMatch(index + [t], path) ==
              if first.Some? then first else if TemplateMatches(t, path) then Some(|index|) else None
  {
    var whole := index + [t];
    var first, all := FirstMatch(index, path), FirstMatch(whole, path);
    assert whole[|index|] == t && forall i | 0 <= i < |index| :: whole[i] == index[i];
  }

  /** The index over exact paths selects the first declared exact rule. */
  lemma {:induction false} ExactsMean(rules: seq<PathRule>, path: string)
    ensures var route := FirstMatch(Exacts(rules), path);
            && (route.Some? <==> SomeRule(rules, Exact, path))
            && (route.Some? ==>
                  exists i: nat :: IsFirstExact(rules, i, path) && rules[i].path == Exacts(rules)[route.value])
    decreases |rules|
  {
    if rules != [] {
      var n := |rules| - 1;
      var past := rules[..n];
      assert forall k | 0 <= k < n :: past[k] == rules[k];
      ExactsMean(past, path);
      SomeAppend(rules, Exact, path);
      FirstMatchAppend(Exacts(past), rules[n].path, path);
      var before := FirstMatch(Exacts(past), path);
      if before.Some? {
        var i: nat :| IsFirstExact(past, i, path) && past[i].path == Exacts(past)[before.value];
        assert IsFirstExact(rules, i, path);
        assert Exacts(rules)[before.value] == Exacts(past)[before.value];
        if !rules[n].kind.Exact? {
          assert Exacts(rules) == Exacts(past);
        }
      } else if rules[n].kind.Exact? && TemplateMatches(rules[n].path, path) {
        assert IsFirstExact(rules, n, path);
      } else if !rules[n].kind.Exact? {
        assert Exacts(rules) == Exacts(past);
      }
    }
  }

  /** Every accepted policy answers every path as its rules declare. */
  lemma CompiledRefinesRules(config: Config, lib: Library, path: string)
    requires Acceptable(config, lib)
    ensures Means(config, path, Api(CompiledOf(config), path))
  {
    var c := CompiledOf(config);
    FirstMatchAny(c.excludes, path);
    TemplatesMean(config.excludes, path);
    ExactsMean(config.includes, path);
    FirstMatchAny(c.prefixes, path);
    PrefixesMean(config.includes, path);
  }

  // ---------------------------------------------------------------------------
  // The vocabulary of rules, in terms of their text
  // ---------------------------------------------------------------------------

  /** Trimming cuts slashes only, and all of them. */
  lemma {:induction false} TrimEndIsExact(path: string)
    ensures var base := TrimEnd(path);
            && base <= path && (base != "" ==> base[|base| - 1] != '/')
            && forall i | |base| <= i < |path| :: path[i] == '/'
    decreases |path|
  {
    if path != "" && path[|path| - 1] == '/' {
      TrimEndIsExact(path[..|path| - 1]);
    }
  }

  /** A prefix without trailing slash covers itself and what lies below it. */
  lemma PlainPrefixCovers(prefix: string, path: string)
    requires prefix != "" && prefix[|prefix| - 1] != '/'
    ensures Covers(prefix, path) <==> path == prefix || prefix + "/" <= path
  {
  }

  /** A trailing slash on a prefix makes no difference. */
  lemma TrailingSlashIsIgnored(prefix: string, path: string)
    ensures Covers(prefix + "/", path) <==> Covers(prefix, path)
  {
    assert (prefix + "/")[..|prefix|] == prefix;
  }

  /** The prefix `/` covers every absolute path, and nothing else. */
  lemma RootCoversAll(path: string)
    ensures Covers("/", path) <==> path != "" && path[0] == '/'
  {
    assert "/"[..0] == "" && TrimEnd("/") == "";
  }

  /** Matching segment by segment. */
  predicate SegmentFits(template: string, segment: string) {
    if template != "" && template[0] == ':' then segment != "" else segment == template
  }

  /** Without a terminal catch-all the segments correspond one to one; with one, a remainder is left over. */
  lemma {:induction false} SegmentsMatchIsExact(t: seq<string>, p: seq<string>)
    requires t != []
    ensures var n := |t| - 1;
            SegmentsMatch(t, p) <==>
            && (if t[n] != "" && t[n][0] == '*' then n < |p| else |p| == |t| && SegmentFits(t[n], p[n]))
            && forall i | 0 <= i < n && i < |p| :: SegmentFits(t[i], p[i])
    decreases |t|
  {
    if |t| > 1 && p != [] {
      var t', p' := t[1..], p[1..];
      SegmentsMatchIsExact(t', p');
      var n := |t| - 1;
      assert t[n] == t'[n - 1] && (n < |p| ==> p[n] == p'[n - 1]);
      if SegmentsMatch(t', p') && SegmentFits(t[0], p[0]) {
        forall i | 0 <= i < n && i < |p| ensures SegmentFits(t[i], p[i]) {
          assert i > 0 ==> t[i] == t'[i - 1] && p[i] == p'[i - 1];
        }
      }
      if forall i | 0 <= i < n && i < |p| :: SegmentFits(t[i], p[i]) {
        assert SegmentFits(t[0], p[0]);
        forall i | 0 <= i < n - 1 && i < |p'| ensures SegmentFits(t'[i], p'[i]) {
          assert t'[i] == t[i + 1] && p'[i] == p[i + 1];
        }
      }
    } else if |t| == 1 && p != [] && !IsCatchAll(t[0]) {
      assert SegmentsMatch([], p[1..]) <==> |p| == 1;
    }
  }

  lemma {:induction false} ParameterMatches(t: seq<string>, parameter: string, p: seq<string>)
    requires IsParameter(parameter) && forall segment | segment in t :: IsLiteral(segment)
    ensures SegmentsMatch(t + [parameter], p) <==> |p| == |t| + 1 && p[..|t|] == t && p[|t|] != ""
    decreases |t|
  {
    var whole := t + [parameter];
    if t == [] {
      assert whole == [parameter];
      assert p != [] ==> (SegmentsMatch([], p[1..]) <==> |p| == 1);
    } else {
      assert t[0] in t && whole[0] == t[0] && whole[1..] == t[1..] + [parameter];
      if p != [] {
        ParameterMatches(t[1..], parameter, p[1..]);
        if |p| == |t| + 1 {
          assert p[..|t|] == [p[0]] + p[1..][..|t| - 1];
          assert t == [t[0]] + t[1..] && p[1..][|t| - 1] == p[|t|];
        }
      }
    }
  }

  /** `base/:name` matches exactly the paths `base/value` with one nonempty segment for a value. */
  lemma {:induction false} ParameterTemplate(base: string, name: string, path: string)
    requires forall segment | segment in Segments(base) :: IsLiteral(segment)
    requires '/' !in name
    ensures TemplateMatches(base + "/" + (":" + name), path) <==>
            exists value :: value != "" && '/' !in value && path == base + "/" + value
  {
    var parameter := ":" + name;
    WildSegments(base, parameter);
    ParameterMatches(Segments(base), parameter, Segments(path));
    if TemplateMatches(base + "/" + parameter, path) {
      var value := Segments(path)[|Segments(base)|];
      PiecesAreClean(path, '/');
      assert value in Segments(path);
      WildSegments(base, value);
      assert Segments(path) == Segments(base) + [value];
      SplitIsInjective(path, base + "/" + value, '/');
    }
    if value :| value != "" && '/' !in value && path == base + "/" + value {
      WildSegments(base, value);
    }
  }

  /** A path is literal when no segment begins with `:` or `*`, that is, neither follows a slash. */
  lemma LiteralPathIsExact(path: string)
    ensures LiteralPath(path) <==>
            && path != "" && path[0] == '/'
            && forall i | 0 <= i < |path| - 1 && path[i] == '/' :: path[i + 1] != ':' && path[i + 1] != '*'
  {
    if path != "" && path[0] == '/' {
      var segments := Segments(path);
      PieceBegins(path, '/', ':', false);
      PieceBegins(path, '/', '*', false);
      FirstPiece(path, '/');
      assert segments[0] == "";
      if LaterPiece(segments, ':', false) || LaterPiece(segments, '*', false) {
        var k :| 1 <= k < |segments| && (BeginsWith(segments[k], ':') || BeginsWith(segments[k], '*'));
        assert segments[k] in segments;
      }
      if i :| 0 <= i < |path| - 1 && path[i] == '/' && (path[i + 1] == ':' || path[i + 1] == '*') {
        assert BeginsAt(path, '/', path[i + 1], false, i);
      }
    }
  }

  /** A template is well formed when it is absolute and no catch-all segment is followed by another slash. */
  lemma ValidTemplateIsExact(template: string)
    ensures ValidTemplate(template) <==>
            && template != "" && template[0] == '/'
            && forall i | 0 <= i < |template| - 1 && template[i] == '/' && template[i + 1] == '*' ::
                 '/' !in template[i + 1..]
  {
    if template != "" && template[0] == '/' {
      var segments := Segments(template);
      PieceBegins(template, '/', '*', true);
      FirstPiece(template, '/');
      assert segments[0] == "";
      if i :| 0 <= i < |template| - 1 && template[i] == '/' && template[i + 1] == '*' && '/' in template[i + 1..] {
        assert BeginsAt(template, '/', '*', true, i);
      }
    }
  }

  /** What the compiler demands of one rule, in terms of its text. */
  predicate RuleReads(rule: PathRule, lib: Library) {
    var path := rule.path;
    && path != "" && path[0] == '/' && '#' !in path
    && lib.uri(path) == Parsed(path, false)
    && (rule.kind.Prefix? ==>
          forall i | 0 <= i < |path| - 1 && path[i] == '/' :: path[i + 1] != ':' && path[i + 1] != '*')
    && (rule.kind.Exact? ==>
          forall i | 0 <= i < |path| - 1 && path[i] == '/' && path[i + 1] == '*' :: '/' !in path[i + 1..])
  }

  /** Which configurations the compiler accepts. */
  lemma AcceptableIsExact(config: Config, lib: Library)
    ensures Acceptable(config, lib) <==>
            && (config.caseLimit.Some? ==> config.caseLimit.value <= 9_223_372_036_854_775_807)
            && (forall rule | rule in config.includes + config.excludes :: RuleReads(rule, lib))
            && !lib.Refuses(Exacts(config.includes)) && !lib.Refuses(Prefixes(config.includes))
            && !lib.Refuses(Templates(config.excludes))
  {
    hide RuleOk, RuleReads, Exacts, Prefixes, Templates;
    forall rule ensures RuleOk(rule, lib) <==> RuleReads(rule, lib) {
      RuleIsExact(rule, lib);
    }
    var all := config.includes + config.excludes;
    if forall rule | rule in all :: RuleReads(rule, lib) {
      assert forall i | 0 <= i < |config.includes| :: config.includes[i] in all;
      assert forall i | 0 <= i < |config.excludes| :: config.excludes[i] in all;
    }
  }

  lemma RuleIsExact(rule: PathRule, lib: Library)
    ensures RuleOk(rule, lib) <==> RuleReads(rule, lib)
  {
    hide LiteralPath, ValidTemplate;
    LiteralPathIsExact(rule.path);
    ValidTemplateIsExact(rule.path);
  }

  // ---------------------------------------------------------------------------
  // Counter identity
  // ---------------------------------------------------------------------------

  lemma {:induction false} SegmentsMatchThemselves(t: seq<string>)
    ensures SegmentsMatch(t, t)
    decreases |t|
  {
    if t != [] {
      SegmentsMatchThemselves(t[1..]);
    }
  }

  /** Every template matches its own text. */
  lemma TemplateMatchesItself(template: string)
    ensures TemplateMatches(template, template)
  {
    SegmentsMatchThemselves(Segments(template));
  }

  /** The exact pattern that names the counter of `path`, if one does. */
  function Pattern(c: Compiled, path: string): (r: Option<string>)
    requires |c.exact| == |c.exactPaths|
  {
    var route := FirstMatch(c.exact, path);
    if route.Some? then Some(c.exactPaths[route.value]) else None
  }

  /**
   * Two admitted paths share a counter exactly when both resolve to the same exact
   * pattern, or both are prefix-only and equal. In particular no prefix-only path
   * collides with the field of an exact pattern.
   */
  lemma CounterIdentity(config: Config, p: string, q: string)
    requires Api(CompiledOf(config), p).Some? && Api(CompiledOf(config), q).Some?
    ensures var c := CompiledOf(config);
            Api(c, p) == Api(c, q) <==>
            (Pattern(c, p).Some? && Pattern(c, p) == Pattern(c, q))
            || (Pattern(c, p) == None && Pattern(c, q) == None && p == q)
  {
    var c := CompiledOf(config);
    TemplateMatchesItself(p);
    TemplateMatchesItself(q);
    if Pattern(c, p).Some? && Pattern(c, q) == None {
      assert c.exact[FirstMatch(c.exact, p).value] == Pattern(c, p).value;
    }
    if Pattern(c, q).Some? && Pattern(c, p) == None {
      assert c.exact[FirstMatch(c.exact, q).value] == Pattern(c, q).value;
    }
  }
}

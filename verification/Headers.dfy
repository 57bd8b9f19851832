/**
 * Header fields of proxied messages: parsing of Connection nominations as in section
 * 7.6.1 of RFC 9110, and the in-place removal of hop-by-hop fields.
 */
module Headers {
  import opened Common
  import opened Text

  type Name = string
  type Value = string

  /** Names are lower case; each name keeps its lines in order. */
  type Fields = map<Name, seq<Value>>

  const CONNECTION: Name := "connection"
  const UPGRADE: Name := "upgrade"

  /** Removed from every message, nominated or not. */
  const FIXED: seq<Name> :=
    ["keep-alive", "proxy-authenticate", "proxy-authorization", "te", "trailer", "transfer-encoding"]

  function Lines(f: Fields, name: Name): (r: seq<Value>) {
    if name in f then f[name] else []
  }

  // ---------------------------------------------------------------------------
  // Tokens of a list value
  // ---------------------------------------------------------------------------

  predicate IsBlank(c: char) { c == ' ' || c == '\t' }

  function TrimLeft(s: string): (r: string) {
    if s != "" && IsBlank(s[0]) then TrimLeft(s[1..]) else s
  }

  function TrimRight(s: string): (r: string) {
    if s != "" && IsBlank(s[|s| - 1]) then TrimRight(s[..|s| - 1]) else s
  }

  function Trim(s: string): (r: string) { TrimRight(TrimLeft(s)) }

  /** `trim_ascii` */
  method TrimAscii(bytes: string) returns (r: string)
    ensures r == Trim(bytes)
  {
    r := bytes;
    while r != "" && IsBlank(r[0])
      invariant Trim(r) == Trim(bytes)
      decreases |r|
    {
      r := r[1..];
    }
    assert TrimLeft(r) == r;
    while r != "" && IsBlank(r[|r| - 1])
      invariant TrimRight(r) == Trim(bytes)
      decreases |r|
    {
      r := r[..|r| - 1];
    }
  }

  predicate AllBlank(s: string) { forall c | c in s :: IsBlank(c) }

  lemma {:induction false} TrimLeftCuts(s: string) returns (margin: string)
    ensures s == margin + TrimLeft(s) && AllBlank(margin)
    ensures TrimLeft(s) != "" ==> !IsBlank(TrimLeft(s)[0])
    decreases |s|
  {
    margin := "";
    if s != "" && IsBlank(s[0]) {
      var rest := TrimLeftCuts(s[1..]);
      margin := [s[0]] + rest;
      assert s == [s[0]] + s[1..];
    }
  }

  lemma {:induction false} TrimRightCuts(s: string) returns (margin: string)
    ensures s == TrimRight(s) + margin && AllBlank(margin)
    ensures TrimRight(s) != "" ==> !IsBlank(TrimRight(s)[|TrimRight(s)| - 1])
    decreases |s|
  {
    margin := "";
    if s != "" && IsBlank(s[|s| - 1]) {
      var rest := TrimRightCuts(s[..|s| - 1]);
      margin := rest + [s[|s| - 1]];
      assert s == s[..|s| - 1] + [s[|s| - 1]];
    }
  }

  /** Trimming cuts blank margins only, and all of them. */
  lemma {:induction false} TrimIsExact(s: string) returns (left: string, right: string)
    ensures s == left + Trim(s) + right && AllBlank(left) && AllBlank(right)
    ensures Trim(s) != "" ==> !IsBlank(Trim(s)[0]) && !IsBlank(Trim(s)[|Trim(s)| - 1])
  {
    left := TrimLeftCuts(s);
    right := TrimRightCuts(TrimLeft(s));
    assert Trim(s) != "" ==> Trim(s)[0] == TrimLeft(s)[0];
  }

  function Lower(c: char): (r: char) {
    if 'A' <= c <= 'Z' then ((c as int) + 32) as char else c
  }

  function LowerAll(s: string): (r: string)
    ensures |r| == |s| && forall i | 0 <= i < |s| :: r[i] == Lower(s[i])
  {
    seq(|s|, i requires 0 <= i < |s| => Lower(s[i]))
  }

  predicate IsTokenChar(c: char) {
    || 'a' <= c <= 'z' || 'A' <= c <= 'Z' || '0' <= c <= '9'
    || c in "!#$%&'*+-.^_`|~"
  }

  /** `HeaderName::from_bytes`: a nonempty token, normalised to lower case. */
  function ParseName(s: string): (name: Option<Name>) {
    if s != "" && forall i | 0 <= i < |s| :: IsTokenChar(s[i]) then Some(LowerAll(s)) else None
  }

  /** `contains_token`, up to ASCII case. */
  predicate ContainsToken(value: Value, expected: string) {
    exists piece :: piece in Split(value, ',') && LowerAll(Trim(piece)) == LowerAll(expected)
  }

  /** `is_upgrade` */
  predicate IsUpgrade(f: Fields) {
    UPGRADE in f && exists value :: value in Lines(f, CONNECTION) && ContainsToken(value, UPGRADE)
  }

  /** A list value names a field when one of its trimmed pieces parses to that name. */
  predicate ValueNominates(value: Value, name: Name) {
    exists piece :: piece in Split(value, ',') && ParseName(Trim(piece)) == Some(name)
  }

  predicate Nominated(f: Fields, name: Name) {
    exists value :: value in Lines(f, CONNECTION) && ValueNominates(value, name)
  }

  // ---------------------------------------------------------------------------
  // Removal of hop-by-hop fields
  // ---------------------------------------------------------------------------

  /** The fields that do not cross this hop. */
  predicate HopByHop(f: Fields, preserveUpgrade: bool, name: Name) {
    || (Nominated(f, name) && !(preserveUpgrade && name == UPGRADE))
    || name in FIXED
    || (!preserveUpgrade && (name == CONNECTION || name == UPGRADE))
  }

  /** Everything else, with its values untouched. */
  function Stripped(f: Fields, preserveUpgrade: bool): (r: Fields) {
    map name | name in f && !HopByHop(f, preserveUpgrade, name) :: f[name]
  }

  class HeaderMap {
    var fields: Fields

    constructor (fields: Fields)
      ensures this.fields == fields
    {
      this.fields := fields;
    }

    method Remove(name: Name)
      modifies this
      ensures fields == old(fields) - {name}
    {
      fields := fields - {name};
    }

    /** Replaces every line of `name` by one. */
    method Insert(name: Name, value: Value)
      modifies this
      ensures fields == old(fields)[name := [value]]
    {
      fields := fields[name := [value]];
    }

    /** The names nominated by all Connection lines. */
    method CollectNominated() returns (nominated: seq<Name>)
      ensures forall name :: name in nominated <==> Nominated(fields, name)
    {
      nominated := [];
      var lines := Lines(fields, CONNECTION);
      for i := 0 to |lines|
        invariant forall name :: name in nominated <==> exists k :: 0 <= k < i && ValueNominates(lines[k], name)
      {
        var found := CollectFrom(lines[i]);
        nominated := nominated + found;
      }
    }

    method CollectFrom(value: Value) returns (names: seq<Name>)
      ensures forall name :: name in names <==> ValueNominates(value, name)
    {
      names := [];
      var pieces := Split(value, ',');
      for i := 0 to |pieces|
        invariant forall name :: name in names <==> exists k :: 0 <= k < i && ParseName(Trim(pieces[k])) == Some(name)
      {
        var trimmed := TrimAscii(pieces[i]);
        var parsed := ParseName(trimmed);
        if parsed.Some? {
          names := names + [parsed.value];
        }
      }
    }

    method RemoveEach(names: seq<Name>, exempt: set<Name>)
      modifies this
      ensures fields == old(fields) - ((set name | name in names) - exempt)
    {
      ghost var original := fields;
      for i := 0 to |names|
        invariant fields == original - ((set name | name in names[..i]) - exempt)
      {
        assert names[..i + 1] == names[..i] + [names[i]];
        if names[i] !in exempt {
          Remove(names[i]);
        }
      }
      assert names[..|names|] == names;
    }

    /** `remove_hop_by_hop_headers` */
    method RemoveHopByHop(preserveUpgrade: bool)
      modifies this
      ensures fields == Stripped(old(fields), preserveUpgrade)
    {
      ghost var original := fields;
      var nominated := CollectNominated();
      RemoveEach(nominated, if preserveUpgrade then {UPGRADE} else {});
      RemoveEach(FIXED, {});
      if !preserveUpgrade {
        Remove(CONNECTION);
        Remove(UPGRADE);
      }
      RemovedIsStripped(original, nominated, preserveUpgrade, fields);
    }
  }

  lemma RemovedIsStripped(f: Fields, nominated: seq<Name>, preserveUpgrade: bool, r: Fields)
    requires forall name :: name in nominated <==> Nominated(f, name)
    requires r == f - ((set name | name in nominated) - if preserveUpgrade then {UPGRADE} else {})
                  - ((set name | name in FIXED) - {})
                  - if preserveUpgrade then {} else {CONNECTION, UPGRADE}
    ensures r == Stripped(f, preserveUpgrade)
  {
  }

  /** Stripping twice is stripping once, even when Connection nominates itself. */
  lemma StrippedIsIdempotent(f: Fields, preserveUpgrade: bool)
    ensures Stripped(Stripped(f, preserveUpgrade), preserveUpgrade) == Stripped(f, preserveUpgrade)
  {
    var g := Stripped(f, preserveUpgrade);
    forall name | HopByHop(g, preserveUpgrade, name) ensures HopByHop(f, preserveUpgrade, name) {
      if Nominated(g, name) {
        var value :| value in Lines(g, CONNECTION) && ValueNominates(value, name);
        assert value in Lines(f, CONNECTION);
      }
    }
  }

  /**
   * An upgrade request stays one after preparation exactly when its Connection
   * field does not nominate itself.
   */
  lemma UpgradeSurvives(f: Fields)
    requires IsUpgrade(f)
    ensures IsUpgrade(Stripped(f, true)) <==> !Nominated(f, CONNECTION)
  {
    var g := Stripped(f, true);
    if !Nominated(f, CONNECTION) {
      assert Lines(g, CONNECTION) == Lines(f, CONNECTION);
    } else {
      assert Lines(g, CONNECTION) == [];
    }
  }

  predicate LowerWord(s: string) { s != "" && forall i | 0 <= i < |s| :: 'a' <= s[i] <= 'z' }

  lemma LowerWordIsName(s: string)
    requires LowerWord(s)
    ensures LowerAll(s) == s && ParseName(s) == Some(s) && Trim(s) == s && ',' !in s
  {
    assert !IsBlank(s[0]) && !IsBlank(s[|s| - 1]);
  }

  /** A list value of two words names exactly these. */
  lemma {:induction false} TwoWords(a: string, b: string)
    requires LowerWord(a) && LowerWord(b)
    ensures var value := a + [','] + ([' '] + b);
            ContainsToken(value, a) && ValueNominates(value, b)
  {
    var spaced := [' '] + b;
    var value := a + [','] + spaced;
    LowerWordIsName(a);
    LowerWordIsName(b);
    SplitAppend(a, spaced, ',');
    SplitClean(a, ',');
    SplitClean(spaced, ',');
    assert spaced[1..] == b;
    assert a in Split(value, ',') && spaced in Split(value, ',');
  }

  /** `upgrade, connection`: a Connection line that nominates itself. */
  const SELF_NOMINATION: Value := UPGRADE + [','] + ([' '] + CONNECTION)

  /** A request that loses its upgrade on the way. */
  lemma SelfNominatedUpgradeIsLost()
    ensures var f: Fields := map[UPGRADE := ["websocket"], CONNECTION := [SELF_NOMINATION]];
            IsUpgrade(f) && Nominated(f, CONNECTION) && !IsUpgrade(Stripped(f, true))
  {
    var f: Fields := map[UPGRADE := ["websocket"], CONNECTION := [SELF_NOMINATION]];
    assert LowerWord(UPGRADE) && LowerWord(CONNECTION);
    TwoWords(UPGRADE, CONNECTION);
    assert SELF_NOMINATION in Lines(f, CONNECTION);
    UpgradeSurvives(f);
  }

  /** Without preservation nothing of an upgrade remains. */
  lemma UpgradeIsRemoved(f: Fields)
    ensures CONNECTION !in Stripped(f, false) && UPGRADE !in Stripped(f, false) && !IsUpgrade(Stripped(f, false))
  {
  }

  // ---------------------------------------------------------------------------
  // The vocabulary of header lists, spelled out
  // ---------------------------------------------------------------------------

  /** Lower casing maps the 26 letters and leaves every other character alone. */
  lemma LowerIsExact()
    ensures LowerAll("ABCDEFGHIJKLMNOPQRSTUVWXYZ") == "abcdefghijklmnopqrstuvwxyz"
    ensures forall c: char | !('A' <= c <= 'Z') :: Lower(c) == c
  {
  }

  /** Field names are made of the characters that section 5.6.2 of RFC 9110 does not reserve as delimiters. */
  lemma TokenCharIsExact(c: char)
    ensures IsTokenChar(c) <==>
            && 33 <= c as int < 127
            && c !in {'"', '(', ')', ',', '/', '[', '\\', ']', '{', '}'} && !(':' <= c <= '@')
  {
  }

  /** A name is read from a nonempty token, in lower case. */
  lemma ParseNameIsExact(s: string)
    ensures ParseName(s).Some? <==> s != "" && forall c | c in s :: IsTokenChar(c)
    ensures ParseName(s).Some? ==> ParseName(s).value == LowerAll(s)
  {
  }

  /** The members of a comma-separated list, blanks around them and letter case aside. */
  lemma ListMembers(members: seq<string>, name: Name)
    requires members != [] && forall m | m in members :: ',' !in m
    ensures ContainsToken(Join(members, ','), name) <==>
            exists i :: 0 <= i < |members| && LowerAll(Trim(members[i])) == LowerAll(name)
    ensures ValueNominates(Join(members, ','), name) <==>
            exists i :: 0 <= i < |members| && ParseName(Trim(members[i])) == Some(name)
  {
    SplitJoin(members, ',');
  }

  lemma UpgradeIsLower()
    ensures LowerAll(UPGRADE) == UPGRADE
  {
    assert LowerWord(UPGRADE);
    LowerWordIsName(UPGRADE);
  }

  /** Every letter case of `upgrade`, alone or anywhere in a Connection list, announces an upgrade. */
  lemma UpgradeInAnyCase(f: Fields, members: seq<string>, i: nat)
    requires members != [] && (forall m | m in members :: ',' !in m) && i < |members|
    requires "upgrade" in f && Join(members, ',') in Lines(f, "connection")
    requires LowerAll(Trim(members[i])) == "upgrade"
    ensures IsUpgrade(f)
  {
    hide LowerAll, Trim, Split, Join;
    UpgradeIsLower();
    ListMembers(members, UPGRADE);
  }

  /** And nothing else does. */
  lemma UpgradeNeedsBoth(f: Fields)
    requires IsUpgrade(f)
    ensures "upgrade" in f && "connection" in f
    ensures exists value, piece ::
              value in f["connection"] && piece in Split(value, ',') && LowerAll(Trim(piece)) == "upgrade"
  {
    hide LowerAll, Trim, Split;
    UpgradeIsLower();
    var value :| value in Lines(f, CONNECTION) && ContainsToken(value, UPGRADE);
    var piece :| piece in Split(value, ',') && LowerAll(Trim(piece)) == LowerAll(UPGRADE);
  }

  /** Every Connection line counts. */
  lemma NominatedIsExact(f: Fields, name: Name)
    ensures Nominated(f, name) <==>
            "connection" in f && exists i :: 0 <= i < |f["connection"]| && ValueNominates(f["connection"][i], name)
    ensures IsUpgrade(f) <==>
            && "upgrade" in f && "connection" in f
            && exists i :: 0 <= i < |f["connection"]| && ContainsToken(f["connection"][i], "upgrade")
  {
    hide ValueNominates, ContainsToken;
  }

  /** The fields that cross a hop, by name. */
  lemma RemovalIsExact(f: Fields, preserveUpgrade: bool, name: Name)
    ensures var fixed := {"keep-alive", "proxy-authenticate", "proxy-authorization",
                          "te", "trailer", "transfer-encoding"};
            var kept := Stripped(f, preserveUpgrade);
            && (name in kept <==>
                  && name in f && name !in fixed
                  && (Nominated(f, name) ==> preserveUpgrade && name == "upgrade")
                  && (name == "connection" || name == "upgrade" ==> preserveUpgrade))
            && (name in kept ==> kept[name] == f[name])
  {
    assert FIXED[0] == "keep-alive" && FIXED[1] == "proxy-authenticate" && FIXED[2] == "proxy-authorization";
    assert FIXED[3] == "te" && FIXED[4] == "trailer" && FIXED[5] == "transfer-encoding";
    assert name in FIXED <==>
           name in {"keep-alive", "proxy-authenticate", "proxy-authorization", "te", "trailer", "transfer-encoding"};
  }
}

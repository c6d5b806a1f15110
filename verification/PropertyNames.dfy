/** Choosing the access token in the response of a generic OIDC provider: the configured
    property name, and the same name in snake case. */
module PropertyNames {

  predicate IsAscii(c: char) {
    c as int < 128
  }

  function Lower(c: char): char
    requires 'A' <= c <= 'Z'
  {
    (c as int + 32) as char
  }

  /** The letter cases of the character set: unicode.IsUpper and unicode.ToLower. */
  datatype Cases = Cases(isUpper: char -> bool, toLower: char -> char) {
    /** The table says of ASCII what ASCII says. */
    ghost predicate Valid() {
      forall c: char | IsAscii(c) :: isUpper(c) == ('A' <= c <= 'Z')
                                  && ('A' <= c <= 'Z' ==> toLower(c) == Lower(c))
    }
  }

  function Upper(c: char): char {
    if 'a' <= c <= 'z' then (c as int - 32) as char else c
  }

  ghost predicate AsciiOnly(s: string) {
    forall i | 0 <= i < |s| :: IsAscii(s[i])
  }

  ghost predicate HasUpper(s: string) {
    exists i | 0 <= i < |s| :: 'A' <= s[i] <= 'Z'
  }

  /** The characters written for s, when `first` says that nothing precedes it. */
  function Snake(cases: Cases, s: string, first: bool): string {
    if s == "" then ""
    else
      (if cases.isUpper(s[0]) then (if first then "" else "_") + [cases.toLower(s[0])] else [s[0]])
      + Snake(cases, s[1..], false)
  }

  /** Undoes Snake: an underscore and the letter after it stand for a capital. */
  function Camel(t: string): string {
    if t == "" then ""
    else if t[0] == '_' && |t| > 1 then [Upper(t[1])] + Camel(t[2..])
    else [t[0]] + Camel(t[1..])
  }

  /** The number of capitals of s that are not its first character. */
  function Capitals(cases: Cases, s: string, first: bool): nat {
    if s == "" then 0
    else (if cases.isUpper(s[0]) && !first then 1 else 0) + Capitals(cases, s[1..], false)
  }

  lemma {:induction false} SnakeSplit(cases: Cases, a: string, b: string, first: bool)
    ensures Snake(cases, a + b, first) == Snake(cases, a, first) + Snake(cases, b, first && a == "")
  {
    if a != "" {
      assert (a + b)[0] == a[0] && (a + b)[1..] == a[1..] + b;
      SnakeSplit(cases, a[1..], b, false);
    } else {
      assert a + b == b;
    }
  }

  /** camelToSnake: one pass over the characters, writing into a builder. */
  method CamelToSnake(cases: Cases, s: string) returns (b: string)
    ensures b == Snake(cases, s, true)
  {
    b := "";
    for i := 0 to |s|
      invariant b == Snake(cases, s[..i], true)
    {
      var r := s[i];
      assert s[..i + 1] == s[..i] + [r];
      SnakeSplit(cases, s[..i], [r], true);
      if cases.isUpper(r) {
        if i > 0 {
          b := b + "_";
        }
        b := b + [cases.toLower(r)];
        continue;
      }
      b := b + [r];
    }
    assert s[..|s|] == s;
  }

  /** Whatever the character set, the result is longer by one for each capital after the first character. */
  lemma {:induction false} SnakeLength(cases: Cases, s: string, first: bool)
    ensures |Snake(cases, s, first)| == |s| + Capitals(cases, s, first)
  {
    if s != "" {
      SnakeLength(cases, s[1..], false);
    }
  }

  lemma {:induction false} SnakeHasNoUpper(cases: Cases, s: string, first: bool)
    requires cases.Valid() && AsciiOnly(s)
    ensures AsciiOnly(Snake(cases, s, first)) && !HasUpper(Snake(cases, s, first))
  {
    if s != "" {
      assert IsAscii(s[0]);
      SnakeHasNoUpper(cases, s[1..], false);
    }
  }

  lemma {:induction false} SnakeOfLower(cases: Cases, s: string, first: bool)
    requires cases.Valid() && AsciiOnly(s) && !HasUpper(s)
    ensures Snake(cases, s, first) == s
  {
    if s != "" {
      assert IsAscii(s[0]);
      forall i | 0 <= i < |s[1..]|
        ensures !('A' <= s[1..][i] <= 'Z')
      {
        assert s[i + 1] == s[1..][i];
      }
      SnakeOfLower(cases, s[1..], false);
    }
  }

  /** An ASCII name is its own snake form exactly when it has no capital. */
  lemma {:induction false} SnakeFixedPoint(cases: Cases, s: string, first: bool)
    requires cases.Valid() && AsciiOnly(s)
    ensures Snake(cases, s, first) == s <==> !HasUpper(s)
  {
    SnakeHasNoUpper(cases, s, first);
    if !HasUpper(s) {
      SnakeOfLower(cases, s, first);
    }
  }

  lemma CamelPlain(c: char, rest: string)
    requires c != '_' || rest == ""
    ensures Camel([c] + rest) == [c] + Camel(rest)
  {
    assert ([c] + rest)[1..] == rest;
  }

  lemma CamelPair(c: char, rest: string)
    ensures Camel(['_', c] + rest) == [Upper(c)] + Camel(rest)
  {
    assert (['_', c] + rest)[2..] == rest;
  }

  /** What Camel makes of the snake form of s, by the first one or two characters of s. */
  ghost function CamelStep(cases: Cases, s: string, first: bool): string
    requires s != ""
  {
    if 'A' <= s[0] <= 'Z' then [if first then Lower(s[0]) else s[0]] + Camel(Snake(cases, s[1..], false))
    else if s[0] != '_' || |s| == 1 then [s[0]] + Camel(Snake(cases, s[1..], false))
    else if 'A' <= s[1] <= 'Z' then ['_', Lower(s[1])] + Camel(Snake(cases, s[2..], false))
    else [Upper(s[1])] + Camel(Snake(cases, s[2..], false))
  }

  lemma CamelStepsCapital(cases: Cases, s: string, first: bool)
    requires cases.Valid() && AsciiOnly(s) && s != "" && 'A' <= s[0] <= 'Z'
    ensures Camel(Snake(cases, s, first)) ==
              [if first then Lower(s[0]) else s[0]] + Camel(Snake(cases, s[1..], false))
  {
    var low, rest := Lower(s[0]), Snake(cases, s[1..], false);
    assert IsAscii(s[0]);
    if first {
      assert Snake(cases, s, first) == [low] + rest;
      CamelPlain(low, rest);
    } else {
      assert Snake(cases, s, first) == ['_', low] + rest;
      CamelPair(low, rest);
    }
  }

  lemma CamelStepsUnderscore(cases: Cases, s: string, rest: string)
    requires cases.Valid() && AsciiOnly(s) && |s| > 1 && rest == Snake(cases, s[1..], false)
    ensures Camel(['_'] + rest) ==
              if 'A' <= s[1] <= 'Z' then ['_', Lower(s[1])] + Camel(Snake(cases, s[2..], false))
              else [Upper(s[1])] + Camel(Snake(cases, s[2..], false))
  {
    var tail := Snake(cases, s[2..], false);
    assert IsAscii(s[1]) && s[1..][0] == s[1] && s[1..][1..] == s[2..];
    if 'A' <= s[1] <= 'Z' {
      assert ['_'] + rest == ['_', '_'] + ([Lower(s[1])] + tail);
      CamelPair('_', [Lower(s[1])] + tail);
      CamelPlain(Lower(s[1]), tail);
    } else {
      assert ['_'] + rest == ['_', s[1]] + tail;
      CamelPair(s[1], tail);
    }
  }

  lemma CamelSteps(cases: Cases, s: string, first: bool)
    requires cases.Valid() && AsciiOnly(s) && s != ""
    ensures Camel(Snake(cases, s, first)) == CamelStep(cases, s, first)
  {
    if 'A' <= s[0] <= 'Z' {
      CamelStepsCapital(cases, s, first);
    } else {
      var rest := Snake(cases, s[1..], false);
      assert IsAscii(s[0]);
      assert Snake(cases, s, first) == [s[0]] + rest;
      if s[0] != '_' || |s| == 1 {
        CamelPlain(s[0], rest);
      } else {
        CamelStepsUnderscore(cases, s, rest);
      }
    }
  }

  lemma {:induction false} CamelNoLonger(cases: Cases, s: string, first: bool)
    requires cases.Valid() && AsciiOnly(s)
    ensures |Camel(Snake(cases, s, first))| <= |s|
    decreases |s|
  {
    if s != "" {
      CamelSteps(cases, s, first);
      CamelNoLonger(cases, s[1..], false);
      if |s| > 1 {
        CamelNoLonger(cases, s[2..], false);
      }
    }
  }

  /** The names the conversion keeps apart: no leading capital, and no underscore before the end. */
  ghost predicate Faithful(s: string, first: bool) {
    && (first && s != "" ==> !('A' <= s[0] <= 'Z'))
    && forall i | 0 <= i < |s| - 1 :: s[i] != '_'
  }

  lemma FaithfulTail(s: string, first: bool)
    requires s != ""
    ensures Faithful(s, first) <==>
            !(first && 'A' <= s[0] <= 'Z') && (|s| > 1 ==> s[0] != '_') && Faithful(s[1..], false)
  {
    assert forall i | 0 <= i < |s| - 2 :: s[1..][i] == s[i + 1];
    assert forall i | 1 <= i < |s| - 1 :: s[i] == s[1..][i - 1];
  }

  /** An underscore with something behind it is not given back. */
  lemma UnderscoreIsLost(cases: Cases, s: string, first: bool)
    requires cases.Valid() && AsciiOnly(s) && |s| > 1 && s[0] == '_'
    ensures Camel(Snake(cases, s, first)) != s
  {
    CamelSteps(cases, s, first);
    CamelNoLonger(cases, s[2..], false);
    var tail := Camel(Snake(cases, s[2..], false));
    if 'A' <= s[1] <= 'Z' {
      assert (['_', Lower(s[1])] + tail)[1] == Lower(s[1]);
    } else {
      assert |[Upper(s[1])] + tail| < |s|;
    }
  }

  /** Camel undoes the conversion of an ASCII name exactly when the name is Faithful; in particular
      it does for every name without an underscore or a leading capital. */
  lemma {:induction false} SnakeRoundTrip(cases: Cases, s: string, first: bool)
    requires cases.Valid() && AsciiOnly(s)
    ensures Camel(Snake(cases, s, first)) == s <==> Faithful(s, first)
    decreases |s|
  {
    if s != "" {
      FaithfulTail(s, first);
      if s[0] == '_' && |s| > 1 {
        UnderscoreIsLost(cases, s, first);
      } else {
        SnakeRoundTrip(cases, s[1..], false);
        CamelSteps(cases, s, first);
        var u, rest := Camel(Snake(cases, s, first)), Camel(Snake(cases, s[1..], false));
        assert s == [s[0]] + s[1..] && u[1..] == rest;
      }
    }
  }

  /** Hence two such names never share a snake form. */
  lemma SnakeInjective(cases: Cases, s: string, t: string)
    requires cases.Valid() && AsciiOnly(s) && AsciiOnly(t) && Faithful(s, true) && Faithful(t, true)
    requires Snake(cases, s, true) == Snake(cases, t, true)
    ensures s == t
  {
    SnakeRoundTrip(cases, s, true);
    SnakeRoundTrip(cases, t, true);
  }

  predicate Capital(c: char) {
    'A' <= c <= 'Z'
  }

  predicate Small(c: char) {
    'a' <= c <= 'z'
  }

  predicate LeadingCapital(s: string) {
    s != "" && Capital(s[0])
  }

  /** After the first character, a capital or what the conversion writes for one. */
  predicate SeamAt(s: string, i: nat) {
    0 < i < |s| && (Capital(s[i]) || (s[i] == '_' && i + 1 < |s| && Small(s[i + 1])))
  }

  ghost predicate HasSeam(s: string) {
    exists i: nat :: SeamAt(s, i)
  }

  /** Another ASCII name has the snake form of s; if `plain`, one without a leading capital. */
  ghost predicate Shares(cases: Cases, s: string, plain: bool) {
    exists t: string ::
      Snake(cases, t, true) == Snake(cases, s, true) && t != s && AsciiOnly(t) && (plain ==> !LeadingCapital(t))
  }

  /** A capital after the first character leaves a seam. */
  lemma CapitalLeavesSeam(cases: Cases, t: string, i: nat)
    requires cases.Valid() && AsciiOnly(t) && 0 < i < |t| && Capital(t[i])
    ensures HasSeam(Snake(cases, t, true))
  {
    assert t == t[..i] + ([t[i]] + t[i + 1..]);
    SnakeSplit(cases, t[..i], [t[i]] + t[i + 1..], true);
    SnakeLength(cases, t[..i], true);
    assert IsAscii(t[i]);
    assert SeamAt(Snake(cases, t, true), |Snake(cases, t[..i], true)|);
  }

  /** A name without a seam or a leading capital can be mistaken only for one with a leading capital. */
  lemma SeamlessIsAlone(cases: Cases, s: string, t: string)
    requires cases.Valid() && AsciiOnly(s) && AsciiOnly(t) && !HasSeam(s) && !LeadingCapital(s)
    requires Snake(cases, t, true) == Snake(cases, s, true)
    ensures t == s || (LeadingCapital(t) && s != "" && Small(s[0]))
  {
    forall i | 0 <= i < |s|
      ensures !('A' <= s[i] <= 'Z')
    {
      assert i > 0 ==> !SeamAt(s, i);
    }
    SnakeOfLower(cases, s, true);
    if !HasUpper(t) {
      SnakeOfLower(cases, t, true);
    } else {
      var i :| 0 <= i < |t| && 'A' <= t[i] <= 'Z';
      if i > 0 {
        CapitalLeavesSeam(cases, t, i);
      }
      assert IsAscii(t[0]);
    }
  }

  lemma SeamWritings(cases: Cases, up: char, rest: string)
    requires cases.Valid() && Capital(up)
    ensures Snake(cases, [up] + rest, false) == Snake(cases, ['_', Lower(up)] + rest, false)
  {
    assert IsAscii(up) && IsAscii('_') && IsAscii(Lower(up));
    assert ([up] + rest)[1..] == rest;
    assert (['_', Lower(up)] + rest)[1..] == [Lower(up)] + rest;
    assert ([Lower(up)] + rest)[1..] == rest;
  }

  /** The other way to write a seam, with the same snake form. */
  lemma SeamSwapped(cases: Cases, s: string, i: nat) returns (t: string)
    requires cases.Valid() && AsciiOnly(s) && SeamAt(s, i)
    ensures t != s && AsciiOnly(t) && Snake(cases, t, true) == Snake(cases, s, true)
    ensures LeadingCapital(t) == LeadingCapital(s)
  {
    var before := s[..i];
    if Capital(s[i]) {
      var low, rest := Lower(s[i]), s[i + 1..];
      t := before + (['_', low] + rest);
      assert s == before + ([s[i]] + rest);
      SnakeSplit(cases, before, [s[i]] + rest, true);
      SnakeSplit(cases, before, ['_', low] + rest, true);
      SeamWritings(cases, s[i], rest);
      assert |t| == |s| + 1 && (i > 0 ==> t[0] == s[0]);
    } else {
      var up, rest := Upper(s[i + 1]), s[i + 2..];
      t := before + ([up] + rest);
      assert s == before + (['_', Lower(up)] + rest);
      SnakeSplit(cases, before, ['_', Lower(up)] + rest, true);
      SnakeSplit(cases, before, [up] + rest, true);
      SeamWritings(cases, up, rest);
      assert |t| == |s| - 1 && (i > 0 ==> t[0] == s[0]);
    }
  }

  /** The other case of a first letter gives the same snake form. */
  lemma FirstLetterSwapped(cases: Cases, s: string) returns (t: string)
    requires cases.Valid() && AsciiOnly(s) && s != "" && (Capital(s[0]) || Small(s[0]))
    ensures t != s && AsciiOnly(t) && Snake(cases, t, true) == Snake(cases, s, true)
  {
    var c := if Capital(s[0]) then Lower(s[0]) else Upper(s[0]);
    t := [c] + s[1..];
    assert IsAscii(s[0]) && IsAscii(c) && t[1..] == s[1..];
  }

  /** Exactly these ASCII names share their snake form with another one: those that start with a letter or
      have a seam; and among names without a leading capital exactly those with a seam. */
  lemma SnakeShares(cases: Cases, s: string)
    requires cases.Valid() && AsciiOnly(s)
    ensures Shares(cases, s, false) <==> (s != "" && (Capital(s[0]) || Small(s[0]))) || HasSeam(s)
    ensures !LeadingCapital(s) ==> (Shares(cases, s, true) <==> HasSeam(s))
  {
    if HasSeam(s) {
      var i: nat :| SeamAt(s, i);
      var t := SeamSwapped(cases, s, i);
    } else if s != "" && (Capital(s[0]) || Small(s[0])) {
      var t := FirstLetterSwapped(cases, s);
    }
    if !HasSeam(s) && !LeadingCapital(s) {
      forall t: string | AsciiOnly(t) && Snake(cases, t, true) == Snake(cases, s, true)
        ensures t == s || (LeadingCapital(t) && s != "" && Small(s[0]))
      {
        SeamlessIsAlone(cases, s, t);
      }
    }
  }

  lemma SnakePair(cases: Cases, c: char, d: char)
    ensures Snake(cases, [c, d], true) == Snake(cases, [c], true) + Snake(cases, [d], false)
  {
    SnakeSplit(cases, [c], [d], true);
    assert [c, d] == [c] + [d];
  }

  /** Outside ASCII, or with a leading capital or an underscore, names do collide. */
  lemma SnakeCollisions(cases: Cases, kelvin: char)
    requires cases.Valid() && cases.isUpper(kelvin) && cases.toLower(kelvin) == 'k'
    ensures Snake(cases, "AB", true) == Snake(cases, "aB", true)
    ensures Snake(cases, "a_b", true) == Snake(cases, "aB", true)
    ensures Snake(cases, ['a', kelvin], true) == Snake(cases, "aK", true)
  {
    assert IsAscii('A') && IsAscii('B') && IsAscii('a') && IsAscii('b') && IsAscii('_') && IsAscii('K');
    SnakePair(cases, 'A', 'B');
    SnakePair(cases, 'a', 'B');
    SnakePair(cases, 'a', 'K');
    SnakePair(cases, 'a', kelvin);
    var t := "a_b";
    SnakePair(cases, 'a', '_');
    SnakeSplit(cases, "a_", "b", true);
    assert t == "a_" + "b" && Snake(cases, "b", false) == "b";
  }

  const DEFAULT_PROPERTY := "accessToken"

  function EffectiveProperty(property: string): string {
    if property == "" then DEFAULT_PROPERTY else property
  }

  function Candidates(cases: Cases, property: string): (r: seq<string>)
    ensures 1 <= |r| <= 2 && r[0] == EffectiveProperty(property)
    ensures |r| == 2 ==> r[1] != r[0]
  {
    var name := EffectiveProperty(property);
    var snake := Snake(cases, name, true);
    if snake == name then [name] else [name, snake]
  }

  lemma SnakeOfCapital(cases: Cases, up: char)
    requires cases.Valid() && Capital(up)
    ensures Snake(cases, [up], false) == ['_', Lower(up)]
  {
    assert [up][1..] == "" && Snake(cases, "", false) == "";
  }

  lemma SnakeOfTail(cases: Cases, up: char, after: string)
    requires cases.Valid() && Capital(up) && AsciiOnly(after) && !HasUpper(after)
    ensures Snake(cases, [up] + after, false) == ['_', Lower(up)] + after
  {
    SnakeSplit(cases, [up], after, false);
    SnakeOfCapital(cases, up);
    SnakeOfLower(cases, after, false);
  }

  lemma SnakeOfDefault(cases: Cases)
    requires cases.Valid()
    ensures Snake(cases, "accessToken", true) == "access_token"
  {
    assert "accessToken" == "access" + (['T'] + "oken");
    SnakeSplit(cases, "access", ['T'] + "oken", true);
    SnakeOfLower(cases, "access", true);
    SnakeOfTail(cases, 'T', "oken");
    assert "access_token" == "access" + (['_', 't'] + "oken");
  }

  /** With no configured property, these two are looked for. */
  lemma DefaultCandidates(cases: Cases)
    requires cases.Valid()
    ensures Candidates(cases, "") == ["accessToken", "access_token"]
  {
    SnakeOfDefault(cases);
    assert |"access_token"| != |"accessToken"|;
  }

  /** tokenPropertyCandidates: the literal spelling first, then the snake form if it differs. */
  method TokenPropertyCandidates(cases: Cases, property: string) returns (r: seq<string>)
    ensures r == Candidates(cases, property)
  {
    var name := property;
    if name == "" {
      name := DEFAULT_PROPERTY;
    }
    var snake := CamelToSnake(cases, name);
    if snake == name {
      return [name];
    }
    return [name, snake];
  }

  /** Sources configured with different names, neither with a leading capital or an underscore before its
      end, never look for the same property. */
  lemma CandidatesKeptApart(cases: Cases, property: string, other: string)
    requires cases.Valid() && EffectiveProperty(property) != EffectiveProperty(other)
    requires AsciiOnly(EffectiveProperty(property)) && Faithful(EffectiveProperty(property), true)
    requires AsciiOnly(EffectiveProperty(other)) && Faithful(EffectiveProperty(other), true)
    ensures forall name :: !(name in Candidates(cases, property) && name in Candidates(cases, other))
  {
    var s, t := EffectiveProperty(property), EffectiveProperty(other);
    SnakeHasNoUpper(cases, s, true);
    SnakeHasNoUpper(cases, t, true);
    SnakeFixedPoint(cases, s, true);
    SnakeFixedPoint(cases, t, true);
    if Snake(cases, s, true) == Snake(cases, t, true) {
      SnakeInjective(cases, s, t);
    }
  }

  /** One value of a decoded JSON object, as far as the token source looks at it. */
  datatype Json = Text(s: string) | Number(n: int) | Other

  predicate Carries(body: map<string, Json>, name: string) {
    name in body && body[name].Text? && body[name].s != ""
  }

  /** The first candidate that carries a non-empty string; "" when none does. */
  function Pick(body: map<string, Json>, names: seq<string>): string {
    if names == [] then ""
    else if Carries(body, names[0]) then body[names[0]].s
    else Pick(body, names[1..])
  }

  /** The candidate search of requestToken. */
  method PickToken(body: map<string, Json>, names: seq<string>) returns (token: string)
    ensures token == Pick(body, names)
    ensures token == "" <==> forall i | 0 <= i < |names| :: !Carries(body, names[i])
    ensures token != "" ==> exists i | 0 <= i < |names| ::
              Carries(body, names[i]) && token == body[names[i]].s && forall j | 0 <= j < i :: !Carries(body, names[j])
  {
    token := "";
    var i := 0;
    while i < |names|
      invariant 0 <= i <= |names|
      invariant token == ""
      invariant forall j | 0 <= j < i :: !Carries(body, names[j])
      invariant Pick(body, names) == Pick(body, names[i..])
    {
      var name := names[i];
      assert names[i..][1..] == names[i + 1..];
      if Carries(body, name) {
        token := body[name].s;
        break;
      }
      i := i + 1;
    }
  }

  /** With both spellings in the response, the literal one wins; the snake form is used only without it. */
  lemma LiteralSpellingWins(cases: Cases, property: string, body: map<string, Json>)
    ensures var name := EffectiveProperty(property);
            var snake := Snake(cases, name, true);
            Pick(body, Candidates(cases, property)) ==
              if Carries(body, name) then body[name].s else if Carries(body, snake) then body[snake].s else ""
  {
    var names := Candidates(cases, property);
    var name := EffectiveProperty(property);
    var snake := Snake(cases, name, true);
    assert names == if snake == name then [name] else [name, snake];
    assert [name, snake][1..] == [snake] && [snake][1..] == [] && [name][1..] == [];
    assert Pick(body, [snake]) == if Carries(body, snake) then body[snake].s else "";
  }
}

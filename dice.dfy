/**
  The dice expression parser of utils/dice.py. The regular expression

      ^\s*(?:(?P<count>\d*)d(?P<sides>\d+)(?P<mod>[+-]\d+)?)\s*(?:(?P<cmp><=|>=|<|>)\s*(?P<target>\d+))?\s*$

  (matched case-insensitively) is modelled twice: `Conforms`/`Spell` describe the
  language it accepts as a layout of pieces, and `Scan` is the left-to-right matcher.
  `Scan` is proved sound and complete for that language. The dice themselves are an
  input sequence instead of calls to `random.randint`.
*/
module Dice {
  import opened Text
  import opened Wrappers

  // ---------- The language of the regular expression ----------

  /** One way of writing an accepted expression: the five named groups and the
      whitespace around them. */
  datatype Layout = Layout(
    lead: string, count: string, dee: char, sides: string, mod: string,
    gap: string, cmp: string, cmpGap: string, target: string, trail: string)

  /** The captured groups; an absent optional group is the empty string. */
  datatype Groups = Groups(count: string, sides: string, mod: string, cmp: string, target: string)

  function GroupsOf(l: Layout): Groups {
    Groups(l.count, l.sides, l.mod, l.cmp, l.target)
  }

  predicate IsComparator(c: string) {
    c == "<=" || c == ">=" || c == "<" || c == ">"
  }

  /** `[+-]\d+` */
  predicate IsModifier(m: string) {
    |m| >= 2 && (m[0] == '+' || m[0] == '-') && AllDigits(m[1..])
  }

  /** The pieces of a layout are what the regular expression's parts accept. */
  predicate Conforms(l: Layout) {
    && AllSpace(l.lead)
    && AllDigits(l.count)
    && (l.dee == 'd' || l.dee == 'D')
    && |l.sides| > 0 && AllDigits(l.sides)
    && (l.mod == [] || IsModifier(l.mod))
    && AllSpace(l.gap)
    && (if l.cmp == [] then l.cmpGap == [] && l.target == []
        else IsComparator(l.cmp) && AllSpace(l.cmpGap) && |l.target| > 0 && AllDigits(l.target))
    && AllSpace(l.trail)
  }

  /** The text a layout spells. */
  function Spell(l: Layout): string {
    l.lead + (l.count + ([l.dee] + (l.sides + (l.mod + (l.gap + (l.cmp + (l.cmpGap + (l.target + l.trail))))))))
  }

  // ---------- The matcher ----------

  /** A greedy `\s*`: the longest whitespace prefix and the rest. */
  function TakeSpaces(s: string): (r: (string, string))
    ensures r.0 + r.1 == s && AllSpace(r.0) && (r.1 == [] || !IsSpace(r.1[0]))
  {
    if s == [] || !IsSpace(s[0]) then ([], s)
    else
      var t := TakeSpaces(s[1..]);
      var p := [s[0]] + t.0;
      assert forall i | 1 <= i < |p| :: p[i] == t.0[i - 1];
      assert s == [s[0]] + s[1..];
      (p, t.1)
  }

  /** A greedy `\d*`: the longest digit prefix and the rest. */
  function TakeDigits(s: string): (r: (string, string))
    ensures r.0 + r.1 == s && AllDigits(r.0) && (r.1 == [] || !IsDigit(r.1[0]))
  {
    if s == [] || !IsDigit(s[0]) then ([], s)
    else
      var t := TakeDigits(s[1..]);
      assert s == [s[0]] + s[1..];
      ([s[0]] + t.0, t.1)
  }

  /** `(?P<cmp><=|>=|<|>)`, alternatives tried in that order: the comparator at the
      front of `s` (empty if none) and the rest. */
  function TakeComparator(s: string): (r: (string, string))
    ensures r.0 + r.1 == s && (r.0 == [] || IsComparator(r.0))
  {
    if |s| >= 2 && (s[..2] == "<=" || s[..2] == ">=") then (s[..2], s[2..])
    else if |s| >= 1 && (s[0] == '<' || s[0] == '>') then (s[..1], s[1..])
    else ([], s)
  }

  /** `(?P<mod>[+-]\d+)?`: the modifier and what follows it. A sign without digits
      cannot be followed by anything the rest of the expression accepts, so that
      input is rejected here. */
  function TakeModifier(s: string): (r: Option<(string, string)>)
    ensures r.Some? ==> (r.value.0 == [] || IsModifier(r.value.0)) && r.value.0 + r.value.1 == s
  {
    if |s| > 0 && (s[0] == '+' || s[0] == '-') then
      var (digits, rest) := TakeDigits(s[1..]);
      if digits == [] then None
      else
        var m := [s[0]] + digits;
        assert m[1..] == digits;
        assert s == [s[0]] + s[1..];
        Some((m, rest))
    else Some(([], s))
  }

  /** `(?:(?P<cmp>...)\s*(?P<target>\d+))?\s*$` once the whitespace after the
      modifier has been consumed: cmp, the gap after it, target and trail. */
  function TakeComparison(s: string): (r: Option<(string, string, string, string)>)
    ensures r.Some? ==>
      && (if r.value.0 == [] then r.value.1 == [] && r.value.2 == []
          else IsComparator(r.value.0) && AllSpace(r.value.1) && |r.value.2| > 0 && AllDigits(r.value.2))
      && AllSpace(r.value.3)
      && r.value.0 + (r.value.1 + (r.value.2 + r.value.3)) == s
  {
    var (c, s1) := TakeComparator(s);
    if c == [] then
      if s == [] then Some(([], [], [], [])) else None
    else
      var (g, s2) := TakeSpaces(s1);
      var (t, s3) := TakeDigits(s2);
      if t == [] then None
      else
        var (tr, s4) := TakeSpaces(s3);
        if s4 == [] then Some((c, g, t, tr)) else None
  }

  /** Everything after the sides: modifier, whitespace, optional comparison, end. */
  function ScanAfterSides(s: string): (r: Option<(string, string, string, string, string, string)>)
    ensures r.Some? ==> var (mod, gap, c, g, t, tr) := r.value;
      && (mod == [] || IsModifier(mod))
      && AllSpace(gap)
      && (if c == [] then g == [] && t == [] else IsComparator(c) && AllSpace(g) && |t| > 0 && AllDigits(t))
      && AllSpace(tr)
      && mod + (gap + (c + (g + (t + tr)))) == s
  {
    match TakeModifier(s)
    case None => None
    case Some((mod, s5)) =>
      var (gap, s6) := TakeSpaces(s5);
      match TakeComparison(s6)
      case None => None
      case Some((c, g, t, tr)) => Some((mod, gap, c, g, t, tr))
  }

  /** The regular-expression match, left to right, returning the layout it found.
      It is sound: every layout it returns conforms and spells the input. */
  function Scan(s: string): (r: Option<Layout>)
    ensures r.Some? ==> Conforms(r.value) && Spell(r.value) == s
  {
    var (lead, s1) := TakeSpaces(s);
    var (count, s2) := TakeDigits(s1);
    if s2 == [] || (s2[0] != 'd' && s2[0] != 'D') then None
    else
      assert s2 == [s2[0]] + s2[1..];
      var (sides, s4) := TakeDigits(s2[1..]);
      if sides == [] then None
      else
        match ScanAfterSides(s4)
        case None => None
        case Some((mod, gap, c, g, t, tr)) =>
          Some(Layout(lead, count, s2[0], sides, mod, gap, c, g, t, tr))
  }

  // ---------- Completeness of the matcher ----------

  lemma {:induction false} TakeSpacesOf(a: string, b: string)
    requires AllSpace(a) && (b == [] || !IsSpace(b[0]))
    ensures TakeSpaces(a + b) == (a, b)
  {
    if a != [] {
      assert (a + b)[1..] == a[1..] + b;
      TakeSpacesOf(a[1..], b);
      assert [a[0]] + a[1..] == a;
    } else {
      assert a + b == b;
    }
  }

  lemma {:induction false} TakeDigitsOf(a: string, b: string)
    requires AllDigits(a) && (b == [] || !IsDigit(b[0]))
    ensures TakeDigits(a + b) == (a, b)
  {
    if a != [] {
      assert (a + b)[1..] == a[1..] + b;
      TakeDigitsOf(a[1..], b);
      assert [a[0]] + a[1..] == a;
    } else {
      assert a + b == b;
    }
  }

  /** What the groups of a successful match look like. */
  predicate GroupsConform(g: Groups) {
    && AllDigits(g.count)
    && |g.sides| > 0 && AllDigits(g.sides)
    && (g.mod == [] || IsModifier(g.mod))
    && (g.cmp == [] <==> g.target == [])
    && (g.cmp != [] ==> IsComparator(g.cmp))
    && AllDigits(g.target)
  }

  /** `DICE_RE.match(expr)`, reduced to its groups. */
  function Match(s: string): (r: Option<Groups>)
    ensures r.Some? ==> GroupsConform(r.value)
  {
    match Scan(s)
    case None => None
    case Some(l) => Some(GroupsOf(l))
  }

  /** What may follow the modifier never starts with a digit or a sign. */
  lemma AfterModifier(l: Layout)
    requires Conforms(l)
    ensures var r := l.gap + (l.cmp + (l.cmpGap + (l.target + l.trail)));
      r == [] || IsSpace(r[0]) || r[0] == '<' || r[0] == '>'
  {
    var r := l.gap + (l.cmp + (l.cmpGap + (l.target + l.trail)));
    if l.gap == [] && l.cmp == [] {
      assert r == l.trail;
    }
  }

  /** The comparator alternatives, tried in order, pick exactly the layout's comparator. */
  lemma TakeComparatorOf(l: Layout)
    requires Conforms(l) && l.cmp != []
    ensures TakeComparator(l.cmp + (l.cmpGap + (l.target + l.trail))) == (l.cmp, l.cmpGap + (l.target + l.trail))
  {
    var rest := l.cmpGap + (l.target + l.trail);
    var s := l.cmp + rest;
    if |l.cmp| == 1 {
      assert rest[0] != '=' by {
        if l.cmpGap == [] { assert rest[0] == l.target[0]; }
      }
      assert s[..2][1] == rest[0];
      assert s[..1] == l.cmp;
    } else {
      assert s[..2] == l.cmp;
    }
  }

  lemma TakeComparisonOf(l: Layout)
    requires Conforms(l) && l.cmp != []
    ensures TakeComparison(l.cmp + (l.cmpGap + (l.target + l.trail))) == Some((l.cmp, l.cmpGap, l.target, l.trail))
  {
    TakeComparatorOf(l);
    TakeSpacesOf(l.cmpGap, l.target + l.trail);
    TakeDigitsOf(l.target, l.trail);
    TakeSpacesOf(l.trail, []);
    assert l.trail + [] == l.trail;
  }

  lemma AllSpaceConcat(a: string, b: string)
    requires AllSpace(a) && AllSpace(b)
    ensures AllSpace(a + b)
  {
    forall i | 0 <= i < |a + b| ensures IsSpace((a + b)[i]) {
      if i >= |a| { assert (a + b)[i] == b[i - |a|]; }
    }
  }

  /** The modifier alternative takes exactly the layout's modifier. */
  lemma TakeModifierOf(l: Layout)
    requires Conforms(l)
    ensures var s5 := l.gap + (l.cmp + (l.cmpGap + (l.target + l.trail)));
      TakeModifier(l.mod + s5) == Some((l.mod, s5))
  {
    var s5 := l.gap + (l.cmp + (l.cmpGap + (l.target + l.trail)));
    var s4 := l.mod + s5;
    AfterModifier(l);
    if l.mod != [] {
      assert s4[0] == l.mod[0];
      assert s4[1..] == l.mod[1..] + s5;
      assert s5 == [] || !IsDigit(s5[0]);
      TakeDigitsOf(l.mod[1..], s5);
      assert TakeDigits(s4[1..]) == (l.mod[1..], s5);
      assert [l.mod[0]] + l.mod[1..] == l.mod;
    } else {
      assert s4 == s5;
      assert s5 == [] || (s5[0] != '+' && s5[0] != '-');
    }
  }

  /** After the modifier, the whitespace and the comparison are taken as the layout has them
      (with no comparison, the trailing whitespace joins the gap). */
  lemma TakeAfterModifierOf(l: Layout)
    requires Conforms(l)
    ensures var s6 := TakeSpaces(l.gap + (l.cmp + (l.cmpGap + (l.target + l.trail)))).1;
      TakeComparison(s6).Some? && TakeComparison(s6).value.0 == l.cmp && TakeComparison(s6).value.2 == l.target
  {
    var s6 := l.cmp + (l.cmpGap + (l.target + l.trail));
    var s5 := l.gap + s6;
    if l.cmp == [] {
      assert s6 == l.trail;
      AllSpaceConcat(l.gap, l.trail);
      TakeSpacesOf(s5, []);
      assert s5 + [] == s5;
    } else {
      assert s6[0] == l.cmp[0];
      TakeSpacesOf(l.gap, s6);
      TakeComparisonOf(l);
    }
  }

  lemma ScanAfterSidesComplete(l: Layout)
    requires Conforms(l)
    ensures ScanAfterSides(l.mod + (l.gap + (l.cmp + (l.cmpGap + (l.target + l.trail))))).Some?
    ensures var (mod, _, c, _, t, _) := ScanAfterSides(l.mod + (l.gap + (l.cmp + (l.cmpGap + (l.target + l.trail))))).value;
      mod == l.mod && c == l.cmp && t == l.target
  {
    TakeModifierOf(l);
    TakeAfterModifierOf(l);
  }

  /** The matcher accepts every text in the regular expression's language and
      recovers the same groups. (A layout is unique except for how the trailing
      whitespace is split when there is no comparison.) */
  lemma ScanComplete(l: Layout)
    requires Conforms(l)
    ensures Scan(Spell(l)).Some? && GroupsOf(Scan(Spell(l)).value) == GroupsOf(l)
  {
    var s4 := l.mod + (l.gap + (l.cmp + (l.cmpGap + (l.target + l.trail))));
    var s2 := [l.dee] + (l.sides + s4);
    var s1 := l.count + s2;
    ScanUpToSides(l);
    ScanAfterSidesComplete(l);
    var r := ScanAfterSides(s4).value;
    assert Scan(Spell(l)) == Some(Layout(l.lead, l.count, l.dee, l.sides, r.0, r.1, r.2, r.3, r.4, r.5));
  }

  /** Up to the sides, the matcher takes the layout's own leading space, count, `d` and sides. */
  lemma ScanUpToSides(l: Layout)
    requires Conforms(l)
    ensures var s4 := l.mod + (l.gap + (l.cmp + (l.cmpGap + (l.target + l.trail))));
      var s2 := [l.dee] + (l.sides + s4);
      var s1 := l.count + s2;
      && TakeSpaces(Spell(l)) == (l.lead, s1)
      && TakeDigits(s1) == (l.count, s2)
      && s2[0] == l.dee && TakeDigits(s2[1..]) == (l.sides, s4)
  {
    var s4 := l.mod + (l.gap + (l.cmp + (l.cmpGap + (l.target + l.trail))));
    var s3 := l.sides + s4;
    var s2 := [l.dee] + s3;
    var s1 := l.count + s2;
    assert Spell(l) == l.lead + s1;
    assert s1[0] == if l.count == [] then l.dee else l.count[0];
    TakeSpacesOf(l.lead, s1);
    TakeDigitsOf(l.count, s2);
    assert s2[0] == l.dee && s2[1..] == s3;
    AfterModifier(l);
    assert s4 == [] || !IsDigit(s4[0]) by {
      if l.mod != [] {
        assert s4[0] == l.mod[0];
      }
    }
    TakeDigitsOf(l.sides, s4);
  }

  /** Together with the soundness of `Scan`: a text matches exactly when some
      conforming layout spells it, and the groups are that layout's. */
  lemma MatchIffInLanguage(s: string, l: Layout)
    requires Conforms(l) && Spell(l) == s
    ensures Match(s) == Some(GroupsOf(l))
  {
    ScanComplete(l);
  }

  // ---------- From groups to a roll ----------

  datatype DiceError = InvalidExpression | CountOutOfRange(maxDice: int) | SidesOutOfRange(maxSides: int)

  /** A validated request: what the groups say once converted with `int()`. */
  datatype DiceRequest = DiceRequest(count: nat, sides: nat, mod: int, cmp: Option<string>, target: Option<nat>)

  /** `int(m.group("mod") or "0")`. */
  function ModifierValue(m: string): int
    requires m == [] || IsModifier(m)
  {
    if m == [] then 0
    else
      var v: int := DigitsValue(m[1..]);
      if m[0] == '-' then -v else v
  }

  /** `int(m.group("count") or "1")`: an absent count is one die. */
  function CountValue(g: Groups): nat
    requires GroupsConform(g)
  {
    if g.count == [] then 1 else DigitsValue(g.count)
  }

  /** The parsing half of `parse_and_roll`: match, convert with `int()`, range-check
      the count first and the sides second. */
  function Parse(expr: string, maxDice: int, maxSides: int): (r: Result<DiceRequest, DiceError>)
    ensures Match(expr).None? <==> r == Failure(InvalidExpression)
    ensures r.Failure? ==>
      r.error == InvalidExpression || r.error == CountOutOfRange(maxDice) || r.error == SidesOutOfRange(maxSides)
    ensures Match(expr).Some? ==> var g := Match(expr).value;
      && (r == Failure(CountOutOfRange(maxDice)) <==> !(1 <= CountValue(g) <= maxDice))
      && (r == Failure(SidesOutOfRange(maxSides)) <==>
            1 <= CountValue(g) <= maxDice && !(2 <= DigitsValue(g.sides) <= maxSides))
    ensures r.Success? ==> var g := Match(expr).value;
      && r.value.count == CountValue(g) && r.value.sides == DigitsValue(g.sides)
      && r.value.mod == ModifierValue(g.mod)
      && (r.value.cmp.Some? <==> r.value.target.Some?)
      && (r.value.cmp.Some? ==> r.value.cmp.value == g.cmp && r.value.target.value == DigitsValue(g.target))
    ensures r.Success? ==> 1 <= r.value.count <= maxDice && 2 <= r.value.sides <= maxSides
    ensures r.Success? && r.value.cmp.Some? ==> IsComparator(r.value.cmp.value)
  {
    match Match(expr)
    case None => Failure(InvalidExpression)
    case Some(g) =>
      var count := CountValue(g);
      var sides := DigitsValue(g.sides);
      var mod := ModifierValue(g.mod);
      var cmp := if g.cmp == [] then None else Some(g.cmp);
      var target := if g.target == [] then None else Some(DigitsValue(g.target));
      if !(1 <= count <= maxDice) then Failure(CountOutOfRange(maxDice))
      else if !(2 <= sides <= maxSides) then Failure(SidesOutOfRange(maxSides))
      else Success(DiceRequest(count, sides, mod, cmp, target))
  }

  // ---------- Rolling and rendering ----------

  /** The keyword arguments of `parse_and_roll`. */
  datatype Options = Options(
    maxDice: int, maxSides: int,
    d20CritSucc: int, d20CritFail: int, d100CritSucc: int, d100CritFail: int)

  const DefaultOptions := Options(100, 1000, 20, 1, 1, 100)

  datatype RollResult = RollResult(
    rolls: seq<nat>, total: int, expr: string, detail: string,
    cmp: Option<string>, target: Option<nat>,
    isCritSuccess: bool, isCritFailure: bool)

  /** What `[random.randint(1, sides) for _ in range(count)]` can produce. */
  predicate RollsFit(req: DiceRequest, rolls: seq<nat>) {
    |rolls| == req.count && forall i | 0 <= i < |rolls| :: 1 <= rolls[i] <= req.sides
  }

  function Sum(rolls: seq<nat>): nat {
    if rolls == [] then 0 else Sum(rolls[..|rolls| - 1]) + rolls[|rolls| - 1]
  }

  /** n dice of s sides sum to between n and n * s. */
  lemma {:induction false} SumBounds(rolls: seq<nat>, sides: nat)
    requires forall i | 0 <= i < |rolls| :: 1 <= rolls[i] <= sides
    ensures |rolls| <= Sum(rolls) <= |rolls| * sides
  {
    if rolls != [] {
      var n := |rolls|;
      SumBounds(rolls[..n - 1], sides);
      assert (n - 1) * sides + sides == n * sides;
    }
  }

  /** The natural-roll critical flags: only a single d20 or d100 can set them, the
      success value is tested first, and a roll that is the success value is not
      also a failure. */
  function CritFlags(req: DiceRequest, rolls: seq<nat>, o: Options): (r: (bool, bool))
    requires |rolls| == req.count
    ensures r.0 <==> (req.count == 1 &&
      ((req.sides == 20 && rolls[0] == o.d20CritSucc) || (req.sides == 100 && rolls[0] == o.d100CritSucc)))
    ensures r.1 <==> (req.count == 1 &&
      ((req.sides == 20 && rolls[0] != o.d20CritSucc && rolls[0] == o.d20CritFail)
       || (req.sides == 100 && rolls[0] != o.d100CritSucc && rolls[0] == o.d100CritFail)))
    ensures !(r.0 && r.1)
  {
    if req.count == 1 && req.sides == 20 then
      (rolls[0] == o.d20CritSucc, rolls[0] != o.d20CritSucc && rolls[0] == o.d20CritFail)
    else if req.count == 1 && req.sides == 100 then
      (rolls[0] == o.d100CritSucc, rolls[0] != o.d100CritSucc && rolls[0] == o.d100CritFail)
    else (false, false)
  }

  /** The normalised expression: `{count}d{sides}`, then `{mod:+d}` when the modifier
      is non-zero, then ` {cmp} {target}` when there is a comparison. */
  function RenderExpr(req: DiceRequest): string {
    NatToString(req.count) + ("d" + (NatToString(req.sides)
    + ((if req.mod != 0 then SignedToString(req.mod) else "")
    + (if req.cmp.Some? && req.target.Some? then " " + (req.cmp.value + (" " + NatToString(req.target.value))) else ""))))
  }

  function RollStrings(rolls: seq<nat>): (r: seq<string>)
    ensures |r| == |rolls| && forall i | 0 <= i < |rolls| :: r[i] == NatToString(rolls[i])
  {
    if rolls == [] then [] else RollStrings(rolls[..|rolls| - 1]) + [NatToString(rolls[|rolls| - 1])]
  }

  /** The rolls joined by ` + `, then ` {mod:+d}` when the modifier is non-zero. */
  function RenderDetail(rolls: seq<nat>, mod: int): string {
    Join(RollStrings(rolls), " + ") + (if mod != 0 then " " + SignedToString(mod) else "")
  }

  // ---------- Reading a detail line back ----------

  /** The longest digit suffix of `s` and what precedes it. */
  function TakeDigitsBack(s: string): (r: (string, string))
    ensures r.0 + r.1 == s && AllDigits(r.1) && (r.0 == [] || !IsDigit(r.0[|r.0| - 1]))
    decreases |s|
  {
    if s == [] || !IsDigit(s[|s| - 1]) then (s, [])
    else
      var (rest, digits) := TakeDigitsBack(s[..|s| - 1]);
      assert rest + (digits + [s[|s| - 1]]) == s[..|s| - 1] + [s[|s| - 1]];
      (rest, digits + [s[|s| - 1]])
  }

  lemma {:induction false} TakeDigitsBackOf(a: string, b: string)
    requires AllDigits(b) && (a == [] || !IsDigit(a[|a| - 1]))
    ensures TakeDigitsBack(a + b) == (a, b)
    decreases |b|
  {
    if b == [] {
      assert a + b == a;
    } else {
      var n := |b| - 1;
      assert (a + b)[..|a + b| - 1] == a + b[..n];
      TakeDigitsBackOf(a, b[..n]);
      assert b[..n] + [b[n]] == b;
    }
  }

  /** The numbers of a text `n1 + n2 + ... + nk`, read from the right. */
  function ReadRolls(s: string): Option<seq<nat>>
    decreases |s|
  {
    var (rest, digits) := TakeDigitsBack(s);
    if digits == [] then None
    else if rest == [] then Some([DigitsValue(digits)])
    else if |rest| >= 3 && rest[|rest| - 3..] == " + " then
      match ReadRolls(rest[..|rest| - 3])
      case None => None
      case Some(init) => Some(init + [DigitsValue(digits)])
    else None
  }

  /** A detail line split into the text of its rolls and its modifier: a signed number
      after a space ends the rolls; otherwise the whole line is rolls and the modifier is 0. */
  function SplitModifier(d: string): (string, int) {
    var (rest, digits) := TakeDigitsBack(d);
    if digits != [] && |rest| >= 2 && rest[|rest| - 2] == ' ' && (rest[|rest| - 1] == '+' || rest[|rest| - 1] == '-') then
      var v: int := DigitsValue(digits);
      (rest[..|rest| - 2], if rest[|rest| - 1] == '-' then -v else v)
    else (d, 0)
  }

  /** A detail line read back: the rolls, and the modifier. */
  function ReadDetail(d: string): Option<(seq<nat>, int)> {
    var (body, mod) := SplitModifier(d);
    match ReadRolls(body)
    case None => None
    case Some(rolls) => Some((rolls, mod))
  }

  /** The joined rolls end with the last roll, after the separator when there are more. */
  lemma JoinedRollsSplit(rolls: seq<nat>)
    requires |rolls| > 1
    ensures var n := |rolls| - 1;
      Join(RollStrings(rolls), " + ") == Join(RollStrings(rolls[..n]), " + ") + " + " + NatToString(rolls[n])
  {
    var n := |rolls| - 1;
    assert RollStrings(rolls)[..n] == RollStrings(rolls[..n]);
  }

  /** The last roll of the joined rolls is their digit suffix; before it is nothing
      for a single roll, and otherwise the other rolls joined and a separator. */
  lemma JoinedRollsLast(rolls: seq<nat>)
    requires |rolls| > 0
    ensures var (rest, digits) := TakeDigitsBack(Join(RollStrings(rolls), " + "));
      && digits == NatToString(rolls[|rolls| - 1])
      && (|rolls| == 1 ==> rest == [])
      && (|rolls| > 1 ==> rest == Join(RollStrings(rolls[..|rolls| - 1]), " + ") + " + ")
  {
    var n := |rolls| - 1;
    if n == 0 {
      assert "" + NatToString(rolls[0]) == Join(RollStrings(rolls), " + ");
      TakeDigitsBackOf("", NatToString(rolls[0]));
    } else {
      JoinedRollsSplit(rolls);
      TakeDigitsBackOf(Join(RollStrings(rolls[..n]), " + ") + " + ", NatToString(rolls[n]));
    }
  }

  /** Reading `init + " + " + digits` is reading `init` and then the digits. */
  lemma ReadRollsSnoc(init: string, digits: string)
    requires AllDigits(digits) && digits != []
    ensures ReadRolls(init + " + " + digits) ==
      match ReadRolls(init)
      case None => None
      case Some(rolls) => Some(rolls + [DigitsValue(digits)])
  {
    var rest := init + " + ";
    TakeDigitsBackOf(rest, digits);
    assert rest[|rest| - 3..] == " + " && rest[..|rest| - 3] == init;
  }

  /** A lone number reads back as itself. */
  lemma ReadRollsSingle(digits: string)
    requires AllDigits(digits) && digits != []
    ensures ReadRolls(digits) == Some([DigitsValue(digits)])
  {
    TakeDigitsBackOf("", digits);
    assert "" + digits == digits;
  }

  /** A single roll joined is just that roll's digits. */
  lemma JoinedRollsSingle(rolls: seq<nat>)
    requires |rolls| == 1
    ensures Join(RollStrings(rolls), " + ") == NatToString(rolls[0])
  {
    assert "" + NatToString(rolls[0]) == Join(RollStrings(rolls), " + ");
  }

  /** A non-empty sequence is its prefix and its last element. */
  lemma SnocLast<T>(s: seq<T>)
    requires |s| > 0
    ensures s[..|s| - 1] + [s[|s| - 1]] == s
  { }

  /** The rolls joined by ` + ` read back to the rolls. */
  lemma {:induction false} ReadJoinedRolls(rolls: seq<nat>)
    requires |rolls| > 0
    ensures ReadRolls(Join(RollStrings(rolls), " + ")) == Some(rolls)
  {
    var n := |rolls| - 1;
    var last := NatToString(rolls[n]);
    DigitsValueOfNatToString(rolls[n]);
    SnocLast(rolls);
    if n == 0 {
      JoinedRollsSingle(rolls);
      ReadRollsSingle(last);
    } else {
      var init := Join(RollStrings(rolls[..n]), " + ");
      JoinedRollsSplit(rolls);
      ReadJoinedRolls(rolls[..n]);
      ReadRollsSnoc(init, last);
    }
  }

  /** A text whose digit suffix follows nothing or a space carries no modifier. */
  lemma SplitUnmodified(j: string)
    requires var rest := TakeDigitsBack(j).0; rest == [] || rest[|rest| - 1] == ' '
    ensures SplitModifier(j) == (j, 0)
  {
  }

  /** A text followed by a space and a signed number splits at that space. */
  lemma SplitSigned(j: string, sgn: string)
    requires |sgn| >= 2 && (sgn[0] == '+' || sgn[0] == '-') && AllDigits(sgn[1..])
    ensures var v: int := DigitsValue(sgn[1..]);
      SplitModifier(j + " " + sgn) == (j, if sgn[0] == '-' then -v else v)
  {
    var d := j + " " + sgn;
    var rest := j + " " + [sgn[0]];
    assert d == rest + sgn[1..];
    TakeDigitsBackOf(rest, sgn[1..]);
    assert TakeDigitsBack(d) == (rest, sgn[1..]);
    assert rest[..|rest| - 2] == j;
    assert rest[|rest| - 2] == ' ' && rest[|rest| - 1] == sgn[0];
  }

  /** A text followed by a space and a rendered non-zero modifier splits back to both. */
  lemma SplitModified(j: string, mod: int)
    requires mod != 0
    ensures SplitModifier(j + " " + SignedToString(mod)) == (j, mod)
  {
    SplitSigned(j, SignedToString(mod));
  }

  /** The joined rolls read back, and what precedes their last number is empty or ends in a space. */
  lemma JoinedRollsReadable(rolls: seq<nat>)
    requires |rolls| > 0
    ensures var j := Join(RollStrings(rolls), " + ");
      && ReadRolls(j) == Some(rolls)
      && (TakeDigitsBack(j).0 == [] || TakeDigitsBack(j).0[|TakeDigitsBack(j).0| - 1] == ' ')
  {
    var j := Join(RollStrings(rolls), " + ");
    ReadJoinedRolls(rolls);
    JoinedRollsLast(rolls);
    var rest := TakeDigitsBack(j).0;
    if rest != [] {
      assert rest[|rest| - 1] == ' ';
    }
  }

  /** Without a modifier the detail line reads back to the rolls and modifier 0. */
  lemma DetailRoundTripUnmodified(rolls: seq<nat>)
    requires |rolls| > 0
    ensures ReadDetail(RenderDetail(rolls, 0)) == Some((rolls, 0))
  {
    var j := Join(RollStrings(rolls), " + ");
    JoinedRollsReadable(rolls);
    assert RenderDetail(rolls, 0) == j;
    SplitUnmodified(j);
  }

  /** With a modifier the detail line is the joined rolls, a space and the signed modifier. */
  lemma RenderDetailModified(rolls: seq<nat>, mod: int)
    requires mod != 0
    ensures RenderDetail(rolls, mod) == Join(RollStrings(rolls), " + ") + " " + SignedToString(mod)
  {
  }

  /** With a modifier the detail line reads back to the rolls and that modifier. */
  lemma DetailRoundTripModified(rolls: seq<nat>, mod: int)
    requires |rolls| > 0 && mod != 0
    ensures ReadDetail(RenderDetail(rolls, mod)) == Some((rolls, mod))
  {
    JoinedRollsReadable(rolls);
    RenderDetailModified(rolls, mod);
    SplitModified(Join(RollStrings(rolls), " + "), mod);
  }

  /** The detail line of a roll determines the rolls and the modifier. */
  lemma DetailRoundTrip(rolls: seq<nat>, mod: int)
    requires |rolls| > 0
    ensures ReadDetail(RenderDetail(rolls, mod)) == Some((rolls, mod))
  {
    if mod == 0 {
      DetailRoundTripUnmodified(rolls);
    } else {
      DetailRoundTripModified(rolls, mod);
    }
  }

  /** `parse_and_roll(expr, ...)` with the dice supplied as `rolls`. */
  function ParseAndRoll(expr: string, rolls: seq<nat>, o: Options): (r: Result<RollResult, DiceError>)
    requires Parse(expr, o.maxDice, o.maxSides).Success? ==> RollsFit(Parse(expr, o.maxDice, o.maxSides).value, rolls)
    ensures r.Failure? <==> Parse(expr, o.maxDice, o.maxSides).Failure?
    ensures r.Failure? ==> r.error == Parse(expr, o.maxDice, o.maxSides).error
    ensures r.Success? ==>
      var req := Parse(expr, o.maxDice, o.maxSides).value;
      && r.value.rolls == rolls
      && r.value.total - req.mod == Sum(rolls)
      && req.count + req.mod <= r.value.total <= req.count * req.sides + req.mod
      && r.value.cmp == req.cmp && r.value.target == req.target
      && r.value.expr == RenderExpr(req)
      && r.value.detail == RenderDetail(rolls, req.mod)
      && (r.value.isCritSuccess, r.value.isCritFailure) == CritFlags(req, rolls, o)
      && (r.value.cmp.Some? <==> r.value.target.Some?)
      && !(r.value.isCritSuccess && r.value.isCritFailure)
      && (r.value.isCritSuccess || r.value.isCritFailure ==> req.count == 1 && (req.sides == 20 || req.sides == 100))
  {
    match Parse(expr, o.maxDice, o.maxSides)
    case Failure(e) => Failure(e)
    case Success(req) =>
      SumBounds(rolls, req.sides);
      var total := Sum(rolls) + req.mod;
      var (critS, critF) := CritFlags(req, rolls, o);
      Success(RollResult(rolls, total, RenderExpr(req), RenderDetail(rolls, req.mod),
                         req.cmp, req.target, critS, critF))
  }

  /** With the default options a single d20 is a critical success exactly on 20 and
      a critical failure exactly on 1; a single d100 on 1 and 100. */
  lemma DefaultCrits(req: DiceRequest, rolls: seq<nat>)
    requires RollsFit(req, rolls)
    ensures var (s, f) := CritFlags(req, rolls, DefaultOptions);
      && (s <==> req.count == 1 && ((req.sides == 20 && rolls[0] == 20) || (req.sides == 100 && rolls[0] == 1)))
      && (f <==> req.count == 1 && ((req.sides == 20 && rolls[0] == 1) || (req.sides == 100 && rolls[0] == 100)))
  {
  }

  /** The layout that spells a normalised expression. */
  function RenderedLayout(req: DiceRequest): Layout {
    var cmp := req.cmp.Some? && req.target.Some?;
    Layout("", NatToString(req.count), 'd', NatToString(req.sides),
           if req.mod != 0 then SignedToString(req.mod) else "",
           if cmp then " " else "",
           if cmp then req.cmp.value else "",
           if cmp then " " else "",
           if cmp then NatToString(req.target.value) else "",
           "")
  }

  lemma SpellRendered(req: DiceRequest)
    ensures Spell(RenderedLayout(req)) == RenderExpr(req)
  {
    var l := RenderedLayout(req);
    var modS := if req.mod != 0 then SignedToString(req.mod) else "";
    var cmpS := if req.cmp.Some? && req.target.Some? then " " + (req.cmp.value + (" " + NatToString(req.target.value))) else "";
    var count, sides := NatToString(req.count), NatToString(req.sides);
    assert l.gap + (l.cmp + (l.cmpGap + (l.target + l.trail))) == cmpS by {
      if req.cmp.Some? && req.target.Some? {
        var c, t := req.cmp.value, NatToString(req.target.value);
        assert l.gap + (l.cmp + (l.cmpGap + (l.target + l.trail))) == " " + (c + (" " + (t + "")));
      }
    }
    assert l.mod == modS && l.count == count && l.sides == sides && l.lead == [] && l.dee == 'd';
    assert Spell(l) == count + (['d'] + (sides + (modS + cmpS)));
  }

  lemma ConformsRendered(req: DiceRequest)
    requires req.cmp.Some? ==> IsComparator(req.cmp.value)
    ensures Conforms(RenderedLayout(req))
  {
  }

  /** A rendered request matches, with the rendered pieces as its groups. */
  lemma MatchRendered(req: DiceRequest)
    requires req.cmp.Some? ==> IsComparator(req.cmp.value)
    ensures Match(RenderExpr(req)) == Some(GroupsOf(RenderedLayout(req)))
  {
    var l := RenderedLayout(req);
    SpellRendered(req);
    ConformsRendered(req);
    MatchIffInLanguage(RenderExpr(req), l);
  }

  /** A valid request, rendered, parses back to itself. */
  lemma RenderParses(req: DiceRequest, maxDice: int, maxSides: int)
    requires 1 <= req.count <= maxDice && 2 <= req.sides <= maxSides
    requires req.cmp.Some? <==> req.target.Some?
    requires req.cmp.Some? ==> IsComparator(req.cmp.value)
    ensures Parse(RenderExpr(req), maxDice, maxSides) == Success(req)
  {
    var g := GroupsOf(RenderedLayout(req));
    MatchRendered(req);
    RenderedGroupValues(req);
    assert Parse(RenderExpr(req), maxDice, maxSides)
      == Success(DiceRequest(CountValue(g), DigitsValue(g.sides), ModifierValue(g.mod),
                             if g.cmp == [] then None else Some(g.cmp),
                             if g.target == [] then None else Some(DigitsValue(g.target))));
  }

  /** The groups of a rendered request convert back to its fields. */
  lemma RenderedGroupValues(req: DiceRequest)
    requires req.cmp.Some? <==> req.target.Some?
    requires req.cmp.Some? ==> IsComparator(req.cmp.value)
    ensures var g := GroupsOf(RenderedLayout(req));
      && GroupsConform(g)
      && CountValue(g) == req.count && DigitsValue(g.sides) == req.sides && ModifierValue(g.mod) == req.mod
      && (if g.cmp == [] then None else Some(g.cmp)) == req.cmp
      && (if g.target == [] then None else Some(DigitsValue(g.target))) == req.target
  {
    ConformsRendered(req);
    DigitsValueOfNatToString(req.count);
    DigitsValueOfNatToString(req.sides);
    if req.target.Some? {
      DigitsValueOfNatToString(req.target.value);
    }
  }

  /** The normalised `expr` of a roll parses back to the very request it was
      rendered from: rendering is a canonical form of the accepted language. */
  lemma ExprRoundTrip(expr: string, rolls: seq<nat>, o: Options)
    requires Parse(expr, o.maxDice, o.maxSides).Success?
    requires RollsFit(Parse(expr, o.maxDice, o.maxSides).value, rolls)
    ensures Parse(ParseAndRoll(expr, rolls, o).value.expr, o.maxDice, o.maxSides) == Parse(expr, o.maxDice, o.maxSides)
  {
    RenderParses(Parse(expr, o.maxDice, o.maxSides).value, o.maxDice, o.maxSides);
  }

  // ---------- Examples from the error message's list ----------

  /** `d100<=65` matches with sides 100, comparator `<=` and target 65. */
  lemma MatchComparison()
    ensures Match("d100<=65") == Some(Groups("", "100", "", "<=", "65"))
  {
    var l := Layout("", "", 'd', "100", "", "", "<=", "", "65", "");
    assert Spell(l) == "d100<=65" && Conforms(l);
    MatchIffInLanguage("d100<=65", l);
  }

  /** `d100<=65`: one d100, no modifier, compared with `<=` against 65. */
  lemma ExampleComparison()
    ensures Parse("d100<=65", 100, 1000) == Success(DiceRequest(1, 100, 0, Some("<="), Some(65)))
  {
    assert DigitsValue("100") == 100 by {
      assert "1"[..0] == "" && "10"[..1] == "1" && "100"[..2] == "10";
    }
    assert DigitsValue("65") == 65 by {
      assert "6"[..0] == "" && "65"[..1] == "6";
    }
    MatchComparison();
  }

  /** A sign after whitespace is neither a modifier nor a comparator. */
  lemma SignAfterGap()
    ensures ScanAfterSides(" + 1") == None
  {
    assert " " + "+ 1" == " + 1";
    TakeSpacesOf(" ", "+ 1");
    assert TakeComparison("+ 1") == None;
  }

  /** Once the sides are read, a tail that `ScanAfterSides` refuses fails the whole scan. */
  lemma ScanStopsAfterSides(s: string, s2: string, s4: string)
    requires TakeDigits(TakeSpaces(s).1).1 == s2
    requires s2 != [] && (s2[0] == 'd' || s2[0] == 'D')
    requires TakeDigits(s2[1..]).0 != [] && TakeDigits(s2[1..]).1 == s4
    requires ScanAfterSides(s4) == None
    ensures Scan(s) == None
  {
  }

  /** `2d6 + 1` has no leading whitespace. */
  lemma SpacedLead()
    ensures TakeSpaces("2d6 + 1") == ("", "2d6 + 1")
  {
    TakeSpacesOf("", "2d6 + 1");
    assert "" + "2d6 + 1" == "2d6 + 1";
  }

  /** The count of `2d6 + 1` is `2`. */
  lemma SpacedCount()
    ensures TakeDigits("2d6 + 1") == ("2", "d6 + 1")
  {
    TakeDigitsOf("2", "d6 + 1");
    assert "2" + "d6 + 1" == "2d6 + 1";
  }

  /** After the `d`, the sides are `6` and the tail is ` + 1`. */
  lemma SpacedSides()
    ensures TakeDigits("d6 + 1"[1..]) == ("6", " + 1")
  {
    assert "d6 + 1"[1..] == "6" + " + 1";
    TakeDigitsOf("6", " + 1");
  }

  /** The modifier must follow the sides directly: `2d6 + 1` does not match. */
  lemma SpacedModifierUnmatched()
    ensures Scan("2d6 + 1") == None
  {
    SpacedLead();
    SpacedCount();
    SpacedSides();
    SignAfterGap();
    ScanStopsAfterSides("2d6 + 1", "d6 + 1", " + 1");
  }

  /** `2d6 + 1` is rejected as an invalid expression. */
  lemma ExampleSpacedModifierRejected()
    ensures Parse("2d6 + 1", 100, 1000) == Failure(InvalidExpression)
  {
    SpacedModifierUnmatched();
  }

  /** `d20` matches with no count and sides 20. */
  lemma MatchTwenty()
    ensures Match("d20") == Some(Groups("", "20", "", "", ""))
  {
    var l := Layout("", "", 'd', "20", "", "", "", "", "", "");
    assert Spell(l) == "d20";
    MatchIffInLanguage("d20", l);
  }

  /** `d20` is one twenty-sided die. */
  lemma ParseTwenty()
    ensures Parse("d20", DefaultOptions.maxDice, DefaultOptions.maxSides) == Success(DiceRequest(1, 20, 0, None, None))
  {
    MatchTwenty();
    assert DigitsValue("20") == 20 by {
      assert "2"[..0] == "" && "20"[..1] == "2";
    }
  }

  /** A natural 20 on `d20` is a critical success, rendered as `1d20`. */
  lemma ExampleNaturalTwenty()
    ensures Parse("d20", DefaultOptions.maxDice, DefaultOptions.maxSides) == Success(DiceRequest(1, 20, 0, None, None))
    ensures var r := ParseAndRoll("d20", [20], DefaultOptions);
      r.Success? && r.value.expr == "1d20" && r.value.total == 20 && r.value.isCritSuccess && !r.value.isCritFailure
  {
    ParseTwenty();
    RenderTwenty();
    assert Sum([20]) == 20;
  }

  /** One d20 without modifier or comparison renders as `1d20`. */
  lemma RenderTwenty()
    ensures RenderExpr(DiceRequest(1, 20, 0, None, None)) == "1d20"
  {
    assert NatToString(1) == "1";
    assert NatToString(20) == "20";
  }
}

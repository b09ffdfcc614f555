/**
  The Call of Cthulhu 7th edition skill check of utils/coc.py: a percentile roll
  against a skill value yields one of six success levels plus critical and fumble
  flags. The d100 roll itself is an input.
*/
module Coc {

  /** The six levels, in the order the classifier tries them. Their labels in the
      source are 大成功, 極限成功, 困難成功, 普通成功, 大失敗 and 失敗. */
  datatype Level = Critical | Extreme | Hard | Regular | Fumble | Fail

  datatype CcResult = CcResult(roll: int, skill: int, level: Level, isCrit: bool, isFumble: bool)

  /** The label the source stores in `CcResult.level`. */
  function Label(l: Level): string
  {
    match l
    case Critical => "大成功"
    case Extreme => "極限成功"
    case Hard => "困難成功"
    case Regular => "普通成功"
    case Fumble => "大失敗"
    case Fail => "失敗"
  }

  /** Distinct levels carry distinct labels, so the label alone identifies the level. */
  lemma LabelInjective(l1: Level, l2: Level)
    requires Label(l1) == Label(l2)
    ensures l1 == l2
  {
  }

  predicate IsSuccess(l: Level) {
    l.Critical? || l.Extreme? || l.Hard? || l.Regular?
  }

  /** How good a level is: a critical is best, a fumble is worst. */
  function Rank(l: Level): nat {
    match l
    case Critical => 5
    case Extreme => 4
    case Hard => 3
    case Regular => 2
    case Fail => 1
    case Fumble => 0
  }

  /** `max(0, min(99 if skill < 100 else 100, skill))`. */
  function EffectiveSkill(skill: int): (s: int)
    ensures 0 <= s <= 100
    ensures 0 <= skill <= 99 ==> s == skill
    ensures skill >= 100 ==> s == 100
    ensures skill < 0 ==> s == 0
  {
    var cap := if skill < 100 then 99 else 100;
    var capped := if cap < skill then cap else skill;
    if capped < 0 then 0 else capped
  }

  /** `math.floor(skill / 2)` for a clamped (non-negative) skill. */
  function HardThreshold(s: int): (h: int)
    requires 0 <= s
    ensures 0 <= h && 2 * h <= s < 2 * h + 2
  {
    s / 2
  }

  /** `math.floor(skill / 5)` for a clamped (non-negative) skill. */
  function ExtremeThreshold(s: int): (e: int)
    requires 0 <= s
    ensures 0 <= e && 5 * e <= s < 5 * e + 5
  {
    s / 5
  }

  /** The 7e fumble range: 96-100 below skill 50, only 100 from skill 50 on. */
  predicate FumbleRoll(s: int, roll: int) {
    (roll >= 96 && s < 50) || (roll == 100 && s >= 50)
  }

  /** `evaluate(skill, roll)`: clamp the skill, then try critical, extreme, hard,
      regular, fumble and fail in that order. */
  function Evaluate(skill: int, roll: int): (r: CcResult)
    ensures r.roll == roll && r.skill == EffectiveSkill(skill)
    ensures r.isCrit <==> roll == 1
    ensures r.isFumble <==> FumbleRoll(r.skill, roll)
    ensures IsSuccess(r.level) <==> roll == 1 || roll <= r.skill
  {
    var s := EffectiveSkill(skill);
    var hard := HardThreshold(s);
    var extreme := ExtremeThreshold(s);
    var isCrit := roll == 1;
    var isFumble := FumbleRoll(s, roll);
    var level :=
      if isCrit then Critical
      else if roll <= extreme then Extreme
      else if roll <= hard then Hard
      else if roll <= s then Regular
      else if isFumble then Fumble
      else Fail;
    CcResult(roll, s, level, isCrit, isFumble)
  }

  /** The thresholds nest: extreme <= hard <= skill, all within [0, 100]. */
  lemma ThresholdsNest(skill: int)
    ensures var s := EffectiveSkill(skill);
      0 <= ExtremeThreshold(s) <= HardThreshold(s) <= s <= 100
  {
  }

  /** Each level, both directions: exactly the rolls the priority chain assigns it. */
  lemma LevelCharacterisation(skill: int, roll: int)
    ensures var r := Evaluate(skill, roll);
      var s := r.skill;
      && (r.level == Critical <==> roll == 1)
      && (r.level == Extreme <==> roll != 1 && roll <= ExtremeThreshold(s))
      && (r.level == Hard <==> roll != 1 && ExtremeThreshold(s) < roll <= HardThreshold(s))
      && (r.level == Regular <==> roll != 1 && HardThreshold(s) < roll <= s)
      && (r.level == Fumble <==> roll != 1 && s < roll && r.isFumble)
      && (r.level == Fail <==> roll != 1 && s < roll && !r.isFumble)
  {
    ThresholdsNest(skill);
  }

  /** On a real d100 roll the fumble flag is the threshold 96 (skill < 50) or 100. */
  lemma FumbleThreshold(skill: int, roll: int)
    requires 1 <= roll <= 100
    ensures Evaluate(skill, roll).isFumble <==> roll >= (if EffectiveSkill(skill) < 50 then 96 else 100)
  {
  }

  /** A lower roll never gives a worse level. */
  lemma LowerRollIsNoWorse(skill: int, r1: int, r2: int)
    requires 1 <= r1 <= r2 <= 100
    ensures Rank(Evaluate(skill, r1).level) >= Rank(Evaluate(skill, r2).level)
  {
    ThresholdsNest(skill);
  }

  /** A success level wins over the fumble flag: at skill 100 a roll of 100 is a
      regular success that also carries `is_fumble`. */
  lemma FumbleFlagOnSuccess()
    ensures Evaluate(100, 100) == CcResult(100, 100, Regular, false, true)
    ensures Evaluate(150, 100).level == Regular
  {
  }

  /** A roll of 1 is critical at every skill value, even a negative one. */
  lemma CriticalAtAnySkill(skill: int)
    ensures Evaluate(skill, 1).level == Critical && !Evaluate(skill, 1).isFumble
  {
  }
}

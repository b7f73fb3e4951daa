/** The harm-level tables of the junk catalogue (frontend/src/data/junkHelpers.ts):
    per level, the badge shown and the rule (free allowance, penalty per unit). */
module HarmLevels {
  import opened Wrappers

  /** A free allowance: `Infinity` or a number of units. */
  datatype Allowance = Unlimited | Limit(units: nat)

  datatype Rule = Rule(free: Allowance, penalty: nat)

  datatype Ui = Ui(color: string, badge: string)

  /** `HARM_LEVEL_UI`. */
  const HarmLevelUi: map<int, Ui> := map[
    0 := Ui("bg-green-100 text-green-700", "Safe"),
    1 := Ui("bg-yellow-100 text-yellow-700", "Mild"),
    2 := Ui("bg-orange-100 text-orange-700", "Moderate"),
    3 := Ui("bg-red-100 text-red-700", "High Risk")
  ]

  /** `HARM_LEVEL_RULES`. */
  const HarmLevelRules: map<int, Rule> := map[
    0 := Rule(Unlimited, 0),
    1 := Rule(Limit(2), 10),
    2 := Rule(Limit(1), 20),
    3 := Rule(Limit(1), 30)
  ]

  /** `a` lets through at least as many free units as `b`. */
  predicate AllowsAtLeast(a: Allowance, b: Allowance)
  {
    a.Unlimited? || (b.Limit? && a.units >= b.units)
  }

  /** Looking a level up in `HARM_LEVEL_RULES`; a level outside the table has no rule. */
  function RuleFor(level: int): (r: Option<Rule>)
    ensures r.Some? <==> 0 <= level <= 3
    ensures r.Some? ==> level in HarmLevelRules && r.value == HarmLevelRules[level]
  {
    if level in HarmLevelRules then Some(HarmLevelRules[level]) else None
  }

  /** Looking a level up in `HARM_LEVEL_UI`. */
  function UiFor(level: int): (r: Option<Ui>)
    ensures r.Some? <==> RuleFor(level).Some?
    ensures r.Some? ==> level in HarmLevelUi && r.value == HarmLevelUi[level]
  {
    if level in HarmLevelUi then Some(HarmLevelUi[level]) else None
  }

  /** Both tables define exactly the levels 0 to 3. */
  lemma TablesCoverLevels()
    ensures HarmLevelRules.Keys == {0, 1, 2, 3}
    ensures HarmLevelUi.Keys == HarmLevelRules.Keys
  {
  }

  /** Level 0 is free without limit and costs nothing. */
  lemma LevelZeroCostsNothing()
    ensures RuleFor(0) == Some(Rule(Unlimited, 0))
  {
  }

  /** A higher level has a strictly higher penalty and no larger free allowance. */
  lemma RulesOrdered(lower: int, higher: int)
    requires 0 <= lower < higher <= 3
    ensures RuleFor(lower).Some? && RuleFor(higher).Some?
    ensures RuleFor(lower).value.penalty < RuleFor(higher).value.penalty
    ensures AllowsAtLeast(RuleFor(lower).value.free, RuleFor(higher).value.free)
  {
  }

  /** Each level has its own badge. */
  lemma BadgesDistinct(l1: int, l2: int)
    requires l1 in HarmLevelUi && l2 in HarmLevelUi && l1 != l2
    ensures HarmLevelUi[l1].badge != HarmLevelUi[l2].badge
  {
  }
}

/** The rule tables: the talent-bonus formula with the rule engine's own
    multipliers, the realm thresholds and the next-realm step, the breakthrough
    test, the action recommendation decision tree and the difficulty presets.
    Float multipliers are kept in tenths; percentages are compared as exact
    ratios. */
module Rules {
  import opened Builtins
  import opened Models

  // ---------------------------------------------------------- talent bonus

  /** GameRule.talent_multipliers in tenths: meditate 0.8, cultivate 1.5,
      pill 1.0, wait 0.2, and 1.0 for any other kind. */
  function RuleMultiplierTenths(kind: string): int
  {
    if kind == "meditate" then 8
    else if kind == "cultivate" then 15
    else if kind == "pill" then 10
    else if kind == "wait" then 2
    else 10
  }

  /** calculate_talent_bonus: int(base + talent * multiplier). */
  function CalculateTalentBonus(base: int, talent: int, kind: string): (b: int)
    ensures base >= 0 && talent >= 0 ==>
              b >= base && 10 * b <= 10 * base + talent * RuleMultiplierTenths(kind) < 10 * b + 10
  {
    TruncTenths(10 * base + talent * RuleMultiplierTenths(kind))
  }

  /** The rule engine and the talent component agree on every kind except
      "wait", which the component does not list and so scales by 1.0. */
  lemma {:induction false} BonusTablesAgree(base: int, talent: int, kind: string)
    requires kind != "wait"
    ensures CalculateTalentBonus(base, talent, kind) == TalentBonus(talent, base, kind)
  {
    assert RuleMultiplierTenths(kind) == TalentMultiplierTenths(kind);
  }

  /** For "wait" the two tables disagree: a talent of 5 on a base of 2 gives
      int(2 + 1.0) = 3 in the rule engine and int(2 + 5.0) = 7 in the component. */
  lemma WaitBonusDiffers()
    ensures CalculateTalentBonus(2, 5, "wait") == 3
    ensures TalentBonus(5, 2, "wait") == 7
  {
  }

  /** The rule engine's effect tables for an action, given the talent: the
      numbers calculate_*_effects return, keyed as there. */
  function MeditationEffects(talent: int): (m: map<string, int>)
    ensures m.Keys == {"hp_cost", "mp_recovery", "exp_gain", "time_cost"}
  {
    map["hp_cost" := 1, "mp_recovery" := CalculateTalentBonus(8, talent, "meditate"),
        "exp_gain" := CalculateTalentBonus(3, talent, "meditate"), "time_cost" := 1]
  }

  function PillEffects(talent: int): (m: map<string, int>)
    ensures m.Keys == {"hp_recovery", "mp_recovery", "exp_gain", "consume_cost"}
  {
    map["hp_recovery" := CalculateTalentBonus(15, talent, "pill"),
        "mp_recovery" := CalculateTalentBonus(15, talent, "pill"),
        "exp_gain" := CalculateTalentBonus(5, talent, "pill"), "consume_cost" := 1]
  }

  function CultivationEffects(talent: int): (m: map<string, int>)
    ensures m.Keys == {"mp_cost", "exp_gain", "time_cost"}
  {
    map["mp_cost" := 20, "exp_gain" := CalculateTalentBonus(12, talent, "cultivate"), "time_cost" := 2]
  }

  function WaitEffects(talent: int): (m: map<string, int>)
    ensures m.Keys == {"hp_cost", "hp_recovery", "mp_recovery", "time_cost"}
  {
    map["hp_cost" := 1, "hp_recovery" := CalculateTalentBonus(2, talent, "wait"),
        "mp_recovery" := CalculateTalentBonus(3, talent, "wait"), "time_cost" := 1]
  }

  /** The effect tables give the amounts the actions apply for meditation, pills
      and cultivation; for waiting they scale with talent, where the action uses
      its fixed 2 and 3, so they agree only for talents below 5. */
  lemma {:induction false} EffectTablesMatchActions(talent: int)
    requires 1 <= talent <= 10
    ensures MeditationEffects(talent)["mp_recovery"] == TalentBonus(talent, 8, "meditate")
    ensures MeditationEffects(talent)["exp_gain"] == TalentBonus(talent, 3, "meditate")
    ensures PillEffects(talent)["hp_recovery"] == TalentBonus(talent, 15, "pill")
    ensures PillEffects(talent)["mp_recovery"] == TalentBonus(talent, 15, "pill")
    ensures PillEffects(talent)["exp_gain"] == TalentBonus(talent, 5, "pill")
    ensures CultivationEffects(talent)["exp_gain"] == TalentBonus(talent, 12, "cultivate")
    ensures WaitEffects(talent)["hp_recovery"] == 2 <==> talent < 5
    ensures WaitEffects(talent)["mp_recovery"] == 3 <==> talent < 5
  {
    BonusTablesAgree(8, talent, "meditate");
    BonusTablesAgree(3, talent, "meditate");
    BonusTablesAgree(15, talent, "pill");
    BonusTablesAgree(5, talent, "pill");
    BonusTablesAgree(12, talent, "cultivate");
  }

  // ---------------------------------------------------------------- realms

  /** GameRule.realm_thresholds, looked up by get_realm_threshold. */
  function GetRealmThreshold(r: Realm): (t: Bound)
    ensures t == RealmThreshold(r)
  {
    match r
    case QiRefining => Finite(100)
    case Foundation => Finite(200)
    case CoreFormation => Finite(400)
    case NascentSoul => Finite(800)
    case SpiritualTransformation => Finite(1600)
    case Ascension => Infinite
  }

  /** The thresholds strictly increase along the ladder, and only the last realm
      has no threshold. */
  lemma ThresholdsIncrease(i: nat, j: nat)
    requires i < j < |Ladder|
    ensures GetRealmThreshold(Ladder[i]).Finite?
    ensures GetRealmThreshold(Ladder[j]).Finite? ==>
              GetRealmThreshold(Ladder[i]).n < GetRealmThreshold(Ladder[j]).n
    ensures GetRealmThreshold(Ladder[j]).Infinite? <==> j == |Ladder| - 1
  {
  }

  /** get_next_realm: the following realm in declaration order; Ascension is a
      fixed point. */
  function GetNextRealm(r: Realm): (next: Realm)
    ensures r != Ascension ==> RealmIndex(next) == RealmIndex(r) + 1
    ensures r == Ascension ==> next == Ascension
  {
    var index := RealmIndex(r);
    if index < |Ladder| - 1 then Ladder[index + 1] else r
  }

  /** can_breakthrough: the level experience has reached the realm's threshold,
      which never happens at Ascension. */
  predicate CanBreakthrough(s: CharacterState): (b: bool)
    ensures b ==> s.exp.realm != Ascension && s.exp.level >= 100
  {
    GetRealmThreshold(s.exp.realm).ReachedBy(s.exp.level)
  }

  /** add_experience breaks through exactly when can_breakthrough holds after the
      experience is added, and then moves to get_next_realm. */
  lemma {:induction false} BreakthroughFollowsRules(s: CharacterState, amount: int)
    ensures var g := GainExperience(s.exp, amount);
              && (g.breakthrough <==> CanBreakthrough(s.(exp := s.exp.(level := s.exp.level + amount))))
              && (g.breakthrough ==> g.after.realm == GetNextRealm(s.exp.realm))
  {
    var g := GainExperience(s.exp, amount);
    if g.breakthrough {
      assert RealmIndex(g.after.realm) == RealmIndex(GetNextRealm(s.exp.realm));
      RealmNameInjective(g.after.realm, GetNextRealm(s.exp.realm));
    }
  }

  // ----------------------------------------------------------- power level

  /** The base score of get_character_power_level in tenths: hp × 0.3 +
      mp × 0.3 + total experience × 0.2 + talent × 10 + pills × 5. */
  function BaseScoreTenths(s: CharacterState): int
  {
    3 * s.hp + 3 * s.mp + 2 * s.exp.total + 100 * s.talent + 50 * Pills(s)
  }

  /** realm_multipliers in tenths: 1.0, 1.5, 2.5, 4.0, 6.0 and 10.0. */
  function RealmMultiplierTenths(r: Realm): (m: int)
    ensures m >= 10
  {
    match r
    case QiRefining => 10
    case Foundation => 15
    case CoreFormation => 25
    case NascentSoul => 40
    case SpiritualTransformation => 60
    case Ascension => 100
  }

  /** get_character_power_level: 0 for a dead character, otherwise
      int(base score × realm multiplier). */
  function PowerLevel(s: CharacterState): (p: int)
  {
    if !Alive(s) then 0 else TruncHundredths(BaseScoreTenths(s) * RealmMultiplierTenths(s.exp.realm))
  }

  /** The score is 0 exactly for a dead character; a living, consistent character
      scores at least its talent × 10 × the realm multiplier, and the score is
      the exact product truncated. */
  lemma {:induction false} PowerLevelBounds(s: CharacterState)
    requires Consistent(s)
    ensures !Alive(s) <==> PowerLevel(s) == 0
    ensures Alive(s) ==> PowerLevel(s) >= s.talent * RealmMultiplierTenths(s.exp.realm)
    ensures Alive(s) ==>
              100 * PowerLevel(s) <= BaseScoreTenths(s) * RealmMultiplierTenths(s.exp.realm)
                                   < 100 * PowerLevel(s) + 100
  {
    if Alive(s) {
      var b, m := BaseScoreTenths(s), RealmMultiplierTenths(s.exp.realm);
      assert b >= 100 * s.talent + 3;
      MulMonotone(100 * s.talent, b, m);
      assert 100 * s.talent * m == 100 * (s.talent * m);
    }
  }

  /** Of two characters alike but for their realm, the one further along the
      ladder scores at least as much. */
  lemma {:induction false} PowerGrowsWithRealm(s: CharacterState, r: Realm)
    requires Consistent(s) && RealmIndex(s.exp.realm) <= RealmIndex(r)
    ensures PowerLevel(s) <= PowerLevel(s.(exp := s.exp.(realm := r)))
  {
    var t := s.(exp := s.exp.(realm := r));
    if Alive(s) {
      var b := BaseScoreTenths(s);
      assert BaseScoreTenths(t) == b;
      MultiplierGrows(s.exp.realm, r);
      MulMonotone(RealmMultiplierTenths(s.exp.realm), RealmMultiplierTenths(r), b);
    }
  }

  lemma MultiplierGrows(a: Realm, b: Realm)
    requires RealmIndex(a) <= RealmIndex(b)
    ensures RealmMultiplierTenths(a) <= RealmMultiplierTenths(b)
  {
  }

  lemma MulMonotone(x: int, y: int, k: int)
    requires 0 <= x <= y && k >= 0
    ensures 0 <= x * k <= y * k
  {
  }

  // --------------------------------------------------------- recommendation

  /** `num / den < tenths / 10` for a positive denominator. */
  predicate Below(num: int, den: int, tenths: int) { 10 * num < tenths * den }

  /** `num / den > tenths / 10` for a positive denominator. */
  predicate Above(num: int, den: int, tenths: int) { 10 * num > tenths * den }

  /** The eight pieces of advice get_action_recommendation can give. */
  datatype Advice = Restart | PillForHealth | WaitForHealth | PillForMana | MeditateForMana
                  | FullPower | GatherPills | Balanced
  {
    function Text(): string
    {
      match this
      case Restart => "修炼失败，请重新开始"
      case PillForHealth => "生命垂危，建议立即服用丹药"
      case WaitForHealth => "生命垂危且无丹药，建议等待恢复"
      case PillForMana => "仙力不足，建议服用丹药恢复"
      case MeditateForMana => "仙力不足，建议打坐恢复"
      case FullPower => "状态良好，建议全力修炼"
      case GatherPills => "缺少丹药，建议多打坐积累"
      case Balanced => "状态适中，可以根据需要选择修炼或恢复"
    }
  }

  /** get_action_recommendation: death first, then low health (below 30%), then
      low mana (below 30%), then full power (mana above 80% with more than two
      pills), no pills, and otherwise the balanced advice. */
  function Recommendation(s: CharacterState): (a: Advice)
    requires s.maxHp > 0 && s.maxMp > 0
    ensures a == Restart <==> !Alive(s)
    ensures a in {FullPower, GatherPills, Balanced} ==> 10 * s.hp >= 3 * s.maxHp && 10 * s.mp >= 3 * s.maxMp
  {
    var pills := Pills(s);
    if !Alive(s) then Restart
    else if Below(s.hp, s.maxHp, 3) then (if pills > 0 then PillForHealth else WaitForHealth)
    else if Below(s.mp, s.maxMp, 3) then (if pills > 0 then PillForMana else MeditateForMana)
    else if Above(s.mp, s.maxMp, 8) && pills > 2 then FullPower
    else if pills == 0 then GatherPills
    else Balanced
  }

  /** Each piece of advice is given exactly in its own situation: the branches
      are tried in order, so a piece of advice also says that no earlier
      condition held. */
  lemma RecommendationCases(s: CharacterState)
    requires s.maxHp > 0 && s.maxMp > 0
    ensures Recommendation(s) == Restart <==> s.hp <= 0
    ensures Recommendation(s) == PillForHealth <==>
              s.hp > 0 && 10 * s.hp < 3 * s.maxHp && Pills(s) > 0
    ensures Recommendation(s) == WaitForHealth <==>
              s.hp > 0 && 10 * s.hp < 3 * s.maxHp && Pills(s) <= 0
    ensures Recommendation(s) == PillForMana <==>
              s.hp > 0 && 10 * s.hp >= 3 * s.maxHp && 10 * s.mp < 3 * s.maxMp && Pills(s) > 0
    ensures Recommendation(s) == MeditateForMana <==>
              s.hp > 0 && 10 * s.hp >= 3 * s.maxHp && 10 * s.mp < 3 * s.maxMp && Pills(s) <= 0
    ensures Recommendation(s) == FullPower <==>
              s.hp > 0 && 10 * s.hp >= 3 * s.maxHp && 10 * s.mp > 8 * s.maxMp && Pills(s) > 2
    ensures Recommendation(s) == GatherPills <==>
              s.hp > 0 && 10 * s.hp >= 3 * s.maxHp && 10 * s.mp >= 3 * s.maxMp
              && !(10 * s.mp > 8 * s.maxMp && Pills(s) > 2) && Pills(s) == 0
  {
  }

  /** Pill advice is only ever given to a character who has a pill, and a
      character with a full inventory and mana is never told to gather pills. */
  lemma PillAdviceNeedsPills(s: CharacterState)
    requires s.maxHp > 0 && s.maxMp > 0
    ensures Recommendation(s) in {PillForHealth, PillForMana, FullPower} ==> Pills(s) > 0
    ensures Recommendation(s) in {WaitForHealth, MeditateForMana, GatherPills} ==> Pills(s) <= 0
  {
  }

  // ------------------------------------------------------------ difficulty

  /** A difficulty preset; the multipliers are in tenths. Only the starting pills
      are ever applied. */
  datatype Difficulty = Difficulty(talentMin: int, talentMax: int, startingPills: int,
                                   expMultiplierTenths: int, recoveryMultiplierTenths: int)

  const Easy := Difficulty(5, 10, 3, 12, 13)
  const Normal := Difficulty(1, 10, 1, 10, 10)
  const Hard := Difficulty(1, 6, 0, 8, 7)

  /** get_difficulty_settings: the named preset, or "normal" for any other name. */
  function GetDifficultySettings(name: string): (d: Difficulty)
    ensures name !in {"easy", "normal", "hard"} ==> d == Normal
    ensures d.startingPills == (if name == "easy" then 3 else if name == "hard" then 0 else 1)
  {
    if name == "easy" then Easy
    else if name == "hard" then Hard
    else Normal
  }

  /** The character after apply_difficulty_to_character: the preset's starting
      pills are added and nothing else changes. */
  function WithDifficulty(s: CharacterState, name: string): (r: CharacterState)
    ensures "pill" in s.items ==> Pills(r) == Pills(s) + GetDifficultySettings(name).startingPills
    ensures r == s.(items := r.items) && r.items.Keys == s.items.Keys
  {
    s.(items := WithItemAdded(s.items, "pill", GetDifficultySettings(name).startingPills).1)
  }

  method ApplyDifficultyToCharacter(c: CharacterStats, name: string)
    modifies c.inventory
    ensures c.State() == WithDifficulty(old(c.State()), name)
  {
    var settings := GetDifficultySettings(name);
    var _ := c.inventory.AddItem("pill", settings.startingPills);
  }
}

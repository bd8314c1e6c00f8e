/** The action catalog: meditate, take a pill, cultivate and wait. Each action
    has a cost, an eligibility test, a failure message and an `execute` that
    changes the character step by step (cost first, then the talent-scaled
    restores and experience, then the meditation streak, then the log).
    `Perform` says on values what an execution does; the methods are proved
    against it and the lemmas state each action's promises about it. */
module Actions {
  import opened Builtins
  import opened Models

  datatype Action = Meditate | ConsumePill | Cultivate | Wait {

    /** The display name, which is also what the factory matches on. */
    function Name(): string
    {
      match this
      case Meditate => "打坐"
      case ConsumePill => "吃丹药"
      case Cultivate => "修炼"
      case Wait => "等待"
    }

    function Description(): string
    {
      match this
      case Meditate => "进入冥想状态，恢复仙力并获得少量经验"
      case ConsumePill => "服用丹药快速恢复生命力和仙力"
      case Cultivate => "运转心法，大量提升修为"
      case Wait => "静心养神，缓慢恢复状态"
    }

    /** get_cost: every action costs something and nothing is negative;
        meditating and waiting cost 1 hp and 1 time, a pill costs the pill,
        cultivating costs 20 mana and 2 time. */
    function GetCost(): (c: Cost)
      ensures c.hp >= 0 && c.mp >= 0 && c.pills >= 0 && c.time >= 0
      ensures c.hp + c.mp + c.pills > 0
      ensures this == Meditate || this == Wait ==> c == Cost(1, 0, 0, 1)
      ensures this == ConsumePill ==> c == Cost(0, 0, 1, 0)
      ensures this == Cultivate ==> c == Cost(0, 20, 0, 2)
    {
      match this
      case Meditate => Cost(1, 0, 0, 1)
      case ConsumePill => Cost(0, 0, 1, 0)
      case Cultivate => Cost(0, 20, 0, 2)
      case Wait => Cost(1, 0, 0, 1)
    }

    /** can_execute: alive, plus a pill to swallow or 20 mana to cultivate with. */
    predicate CanExecute(s: CharacterState): (ok: bool)
      ensures ok ==> Alive(s)
      ensures ok && GetCost().mp > 0 ==> s.mp >= GetCost().mp
      ensures ok && GetCost().pills > 0 ==> Pills(s) >= GetCost().pills
    {
      match this
      case Meditate => Alive(s)
      case ConsumePill => Alive(s) && Pills(s) >= 1
      case Cultivate => Alive(s) && s.mp >= GetCost().mp
      case Wait => Alive(s)
    }

    /** get_failure_message: the generic "cannot perform" line, refined by the
        pill and cultivate actions into the reason that applies first. */
    function FailureMessage(s: CharacterState): (m: string)
      ensures (this == ConsumePill || this == Cultivate) && !Alive(s) ==> m == "你已经无法行动"
      ensures (this == Meditate || this == Wait) ==> m == "无法执行" + Name()
      ensures this == ConsumePill && Alive(s) ==> m == (if Pills(s) < 1 then "没有丹药可用" else "无法服用丹药")
      ensures this == Cultivate && Alive(s) ==> m == (if s.mp < 20 then "仙力不足，无法修炼" else "无法修炼")
    {
      match this
      case ConsumePill =>
        if !Alive(s) then "你已经无法行动"
        else if Pills(s) < 1 then "没有丹药可用"
        else "无法服用丹药"
      case Cultivate =>
        if !Alive(s) then "你已经无法行动"
        else if s.mp < GetCost().mp then "仙力不足，无法修炼"
        else "无法修炼"
      case _ => "无法执行" + Name()
    }

    /** execute: the character, the log and the result it returns. */
    method Execute(c: CharacterStats, log: GameLog) returns (r: ActionResult)
      modifies c, c.health, c.mana, c.experience, c.inventory, log
      ensures var o := Perform(this, old(c.State()));
                c.State() == o.after && r == o.result
                && log.entries == Logged(old(log.entries), log.maxEntries, o.logLine)
                && log.maxEntries == old(log.maxEntries)
    {
      match this
      case Meditate => r := ExecuteMeditate(c, log);
      case ConsumePill => r := ExecuteConsumePill(c, log);
      case Cultivate => r := ExecuteCultivate(c, log);
      case Wait => r := ExecuteWait(c, log);
    }
  }

  /** An execution on values: the character afterwards, the returned result and
      the line appended to the game log, if any. */
  datatype Outcome = Outcome(after: CharacterState, result: ActionResult, logLine: Option<string>)

  /** The log after an execution that appended `line`, if it appended one. */
  function Logged(entries: seq<string>, maxEntries: int, line: Option<string>): seq<string>
  {
    match line
    case None => entries
    case Some(m) => Appended(entries, maxEntries, m)
  }

  function Rejected(a: Action, s: CharacterState): Outcome
  {
    Outcome(s, ActionResult(false, a.FailureMessage(s), map[], map[]), None)
  }

  /** The breakthrough line, when add_experience returned one. */
  function BreakthroughLines(g: Gain): seq<string>
  {
    if g.breakthrough && g.message.Some? then [g.message.value] else []
  }

  /** The entries every experience-granting action adds to its effects on a
      breakthrough. */
  function WithLevelUp(effects: map<string, Value>, g: Gain): map<string, Value>
  {
    if g.breakthrough then effects["level_up" := Flag(true)]["new_level" := Text(RealmName(g.after.realm))]
    else effects
  }

  /** The result meditation reports: the message lines joined by commas, the
      mana actually restored, the experience and the streak bonus. */
  function MeditateResult(mpRestored: int, expGain: int, g: Gain, streak: int, bonus: int): ActionResult
  {
    var lines := ["你进入打坐修炼状态，恢复" + IntToString(mpRestored) + "点仙力，获得"
                  + IntToString(expGain) + "点经验"]
                 + BreakthroughLines(g)
                 + (if bonus > 0 then ["连续打坐" + IntToString(streak) + "次，获得"
                                       + IntToString(bonus) + "颗丹药！"] else []);
    var cost := Meditate.GetCost();
    ActionResult(true, Join("，", lines),
                 WithLevelUp(map["mp_recovery" := Int(mpRestored), "exp_gain" := Int(expGain),
                                 "pill_bonus" := Int(bonus)], g),
                 map["hp" := cost.hp, "time" := cost.time])
  }

  /** The first half of meditation, its cost paid: mana restored by the
      talent-scaled amount, then the experience grant. */
  function MeditateGainsState(s: CharacterState): CharacterState
  {
    s.(mp := RestoredTo(s.mp, s.maxMp, TalentBonus(s.talent, 8, "meditate")),
       exp := GainExperience(s.exp, TalentBonus(s.talent, 3, "meditate")).after)
  }

  /** The second half of meditation: one more in the streak and a pill on every
      fifth. */
  function StreakState(s: CharacterState): CharacterState
  {
    var streak := s.streak + 1;
    s.(streak := streak,
       items := if streak % 5 == 0 then WithItemAdded(s.items, "pill", 1).1 else s.items)
  }

  /** What meditation does once its cost is paid. */
  function MeditateEffect(s: CharacterState): Outcome
  {
    var gained := MeditateGainsState(s);
    var after := StreakState(gained);
    var expGain := TalentBonus(s.talent, 3, "meditate");
    var r := MeditateResult(gained.mp - s.mp, expGain, GainExperience(s.exp, expGain), after.streak,
                            if after.streak % 5 == 0 then 1 else 0);
    Outcome(after, r, Some(r.message))
  }

  function ConsumePillResult(hpRestored: int, mpRestored: int, expGain: int, g: Gain): ActionResult
  {
    var lines := ["你服下一颗丹药，恢复" + IntToString(hpRestored) + "点生命和"
                  + IntToString(mpRestored) + "点仙力"]
                 + (if expGain > 0 then ["获得" + IntToString(expGain) + "点经验"] else [])
                 + BreakthroughLines(g);
    var cost := ConsumePill.GetCost();
    ActionResult(true, Join("，", lines) + "。",
                 WithLevelUp(map["hp_recovery" := Int(hpRestored), "mp_recovery" := Int(mpRestored),
                                 "exp_gain" := Int(expGain)], g),
                 map["pills" := cost.pills])
  }
  /** The character after a pill is swallowed: health and mana restored by the
      talent-scaled amount, the experience grant, and the streak broken. */
  function ConsumePillState(s: CharacterState): CharacterState
  {
    s.(hp := RestoredTo(s.hp, s.maxHp, TalentBonus(s.talent, 15, "pill")),
       mp := RestoredTo(s.mp, s.maxMp, TalentBonus(s.talent, 15, "pill")),
       exp := GainExperience(s.exp, TalentBonus(s.talent, 5, "pill")).after,
       streak := 0)
  }

  /** What a pill does once it is swallowed. */
  function ConsumePillEffect(s: CharacterState): Outcome
  {
    var after := ConsumePillState(s);
    var expGain := TalentBonus(s.talent, 5, "pill");
    var r := ConsumePillResult(after.hp - s.hp, after.mp - s.mp, expGain, GainExperience(s.exp, expGain));
    Outcome(after, r, Some(r.message))
  }

  function CultivateResult(expGain: int, g: Gain): ActionResult
  {
    var lines := ["你运转心法，修为精进，获得" + IntToString(expGain) + "点经验"] + BreakthroughLines(g);
    var cost := Cultivate.GetCost();
    ActionResult(true, Join("，", lines) + "。", WithLevelUp(map["exp_gain" := Int(expGain)], g),
                 map["mp" := cost.mp, "time" := cost.time])
  }
  /** The character after cultivating, its mana spent: the experience grant and
      the streak broken. */
  function CultivateState(s: CharacterState): CharacterState
  {
    s.(exp := GainExperience(s.exp, TalentBonus(s.talent, 12, "cultivate")).after, streak := 0)
  }

  /** What cultivation does once its mana is spent. */
  function CultivateEffect(s: CharacterState): Outcome
  {
    var expGain := TalentBonus(s.talent, 12, "cultivate");
    var r := CultivateResult(expGain, GainExperience(s.exp, expGain));
    Outcome(CultivateState(s), r, Some(r.message))
  }

  function WaitResult(hpRestored: int, mpRestored: int): ActionResult
  {
    var cost := Wait.GetCost();
    ActionResult(true, "你静心等待，恢复" + IntToString(hpRestored) + "点生命和" + IntToString(mpRestored) + "点仙力。",
                 map["hp_recovery" := Int(hpRestored), "mp_recovery" := Int(mpRestored)],
                 map["hp" := cost.hp, "time" := cost.time])
  }
  /** The character after waiting, its health paid: fixed restores, no talent,
      and the streak broken. */
  function WaitState(s: CharacterState): CharacterState
  {
    s.(hp := RestoredTo(s.hp, s.maxHp, 2), mp := RestoredTo(s.mp, s.maxMp, 3), streak := 0)
  }

  /** What waiting does once its health is paid. */
  function WaitEffect(s: CharacterState): Outcome
  {
    var after := WaitState(s);
    var r := WaitResult(after.hp - s.hp, after.mp - s.mp);
    Outcome(after, r, Some(r.message))
  }

  /** An execution on values: rejected with no change when the action is not
      executable; otherwise the cost is debited and the action's effect applied. */
  function Perform(a: Action, s: CharacterState): (o: Outcome)
    ensures o.after.name == s.name && o.after.talent == s.talent
    ensures o.after.maxHp == s.maxHp && o.after.maxMp == s.maxMp
  {
    if !a.CanExecute(s) then Rejected(a, s)
    else
      var paid := Debit(s, a.GetCost()).1;
      match a
      case Meditate => MeditateEffect(paid)
      case ConsumePill => ConsumePillEffect(paid)
      case Cultivate => CultivateEffect(paid)
      case Wait => WaitEffect(paid)
  }

  // ------------------------------------------------------------- lemmas

  /** An action that can execute can always pay its cost, so apply_cost inside
      execute never fails. */
  lemma ExecutableIsAffordable(a: Action, s: CharacterState)
    requires Consistent(s) && a.CanExecute(s)
    ensures Affords(s, a.GetCost())
  {
  }

  /** An ineligible action returns its failure message with empty effects and
      costs, changes nothing and logs nothing; an eligible one always succeeds. */
  lemma {:induction false} FailureChangesNothing(a: Action, s: CharacterState)
    ensures Perform(a, s).result.success <==> a.CanExecute(s)
    ensures !a.CanExecute(s) ==>
              && Perform(a, s).after == s
              && Perform(a, s).result.message == a.FailureMessage(s)
              && Perform(a, s).result.effects == map[] && Perform(a, s).result.costs == map[]
              && Perform(a, s).logLine == None
    ensures a.CanExecute(s) ==> Perform(a, s).logLine == Some(Perform(a, s).result.message)
  {
  }

  /** An executed action logs exactly the message it returns. */
  lemma SuccessLogsMessage(a: Action, s: CharacterState)
    requires a.CanExecute(s)
    ensures Perform(a, s).logLine == Some(Perform(a, s).result.message)
  {
  }

  /** Meditation: costs 1 health, restores int(8 + 0.8 talent) mana up to the
      maximum, grants int(3 + 0.8 talent) experience, extends the streak by one
      and pays a pill exactly when the new streak is a multiple of five. */
  lemma {:induction false} MeditateEffects(s: CharacterState)
    requires Consistent(s) && Alive(s)
    ensures var o := Perform(Meditate, s);
              && o.result.success
              && o.after.hp == s.hp - 1
              && o.after.mp == Min(s.maxMp, s.mp + (80 + 8 * s.talent) / 10)
              && o.after.exp == GainExperience(s.exp, (30 + 8 * s.talent) / 10).after
              && o.after.streak == s.streak + 1
              && Pills(o.after) == Pills(s) + (if (s.streak + 1) % 5 == 0 then 1 else 0)
              && o.after.totalActions == s.totalActions + 1
  {
    var paid := Debit(s, Meditate.GetCost()).1;
    assert paid.hp == s.hp - 1 && paid.mp == s.mp && paid.streak == s.streak;
    assert TalentBonus(s.talent, 8, "meditate") == (80 + 8 * s.talent) / 10;
    assert TalentBonus(s.talent, 3, "meditate") == (30 + 8 * s.talent) / 10;
  }

  /** What meditation reports: the streak bonus, the mana actually restored (which
      the cap can make smaller than the talent-scaled amount) and its cost. */
  lemma {:induction false} MeditateReports(s: CharacterState)
    requires Consistent(s) && Alive(s)
    ensures var o := Perform(Meditate, s);
              && o.result.effects["pill_bonus"] == Int(if (s.streak + 1) % 5 == 0 then 1 else 0)
              && o.result.effects["mp_recovery"] == Int(o.after.mp - s.mp)
              && o.result.costs == map["hp" := 1, "time" := 1]
  {
    assert Meditate.GetCost() == Cost(1, 0, 0, 1);
    var paid := Debit(s, Cost(1, 0, 0, 1)).1;
    assert paid.mp == s.mp && paid.streak == s.streak;
  }

  /** A pill: executable iff alive with a pill in stock; it costs exactly one
      pill, restores int(15 + talent) health and mana up to the maxima, grants
      int(5 + talent) experience and ends the meditation streak. */
  lemma {:induction false} ConsumePillEffects(s: CharacterState)
    requires Consistent(s)
    ensures ConsumePill.CanExecute(s) <==> s.hp > 0 && Pills(s) >= 1
    ensures ConsumePill.CanExecute(s) ==>
              var o := Perform(ConsumePill, s);
              && Pills(o.after) == Pills(s) - 1
              && o.after.hp == Min(s.maxHp, s.hp + 15 + s.talent)
              && o.after.mp == Min(s.maxMp, s.mp + 15 + s.talent)
              && o.after.exp == GainExperience(s.exp, 5 + s.talent).after
              && o.after.streak == 0
  {
    if ConsumePill.CanExecute(s) {
      var paid := Debit(s, ConsumePill.GetCost()).1;
      assert paid.hp == s.hp && paid.mp == s.mp && Pills(paid) == Pills(s) - 1;
      assert TalentBonus(s.talent, 15, "pill") == 15 + s.talent;
      assert TalentBonus(s.talent, 5, "pill") == 5 + s.talent;
    }
  }

  /** Cultivation: executable iff alive with at least 20 mana; it spends exactly
      20 mana, grants int(12 + 1.5 talent) experience and ends the streak. */
  lemma {:induction false} CultivateEffects(s: CharacterState)
    requires Consistent(s)
    ensures Cultivate.CanExecute(s) <==> s.hp > 0 && s.mp >= 20
    ensures Cultivate.CanExecute(s) ==>
              var o := Perform(Cultivate, s);
              && o.after.mp == s.mp - 20
              && o.after.hp == s.hp
              && o.after.exp == GainExperience(s.exp, (120 + 15 * s.talent) / 10).after
              && o.after.streak == 0
  {
    if Cultivate.CanExecute(s) {
      var paid := Debit(s, Cultivate.GetCost()).1;
      assert paid.hp == s.hp && paid.mp == s.mp - 20;
      assert TalentBonus(s.talent, 12, "cultivate") == (120 + 15 * s.talent) / 10;
    }
  }

  /** Waiting: one health paid, then a fixed 2 health and 3 mana restored whatever
      the talent, no experience, and the streak ends. */
  lemma {:induction false} WaitEffects(s: CharacterState)
    requires Consistent(s) && Alive(s)
    ensures var o := Perform(Wait, s);
              && o.after.hp == Min(s.maxHp, s.hp - 1 + 2)
              && o.after.mp == Min(s.maxMp, s.mp + 3)
              && o.after.exp == s.exp
              && o.after.streak == 0
  {
    var paid := Debit(s, Wait.GetCost()).1;
    assert paid.hp == s.hp - 1 && paid.mp == s.mp && paid.exp == s.exp;
  }

  /** A successful action reports a level-up, with the new realm's name, exactly
      when the character changed realm. */
  lemma {:induction false} BreakthroughIsReported(a: Action, s: CharacterState)
    requires a.CanExecute(s)
    ensures var o := Perform(a, s);
              && (("level_up" in o.result.effects) <==> o.after.exp.realm != s.exp.realm)
              && (o.after.exp.realm != s.exp.realm ==>
                    o.result.effects["level_up"] == Flag(true)
                    && o.result.effects["new_level"] == Text(RealmName(o.after.exp.realm)))
  {
    var paid := Debit(s, a.GetCost()).1;
    assert paid.exp == s.exp;
    match a
    case Meditate =>
      var g := GainExperience(paid.exp, TalentBonus(paid.talent, 3, "meditate"));
      assert g.breakthrough <==> g.after.realm != paid.exp.realm;
    case ConsumePill =>
      var g := GainExperience(paid.exp, TalentBonus(paid.talent, 5, "pill"));
      assert g.breakthrough <==> g.after.realm != paid.exp.realm;
    case Cultivate =>
      var g := GainExperience(paid.exp, TalentBonus(paid.talent, 12, "cultivate"));
      assert g.breakthrough <==> g.after.realm != paid.exp.realm;
    case Wait =>
  }

  /** No action grants more experience than the smallest realm threshold. */
  lemma ExperienceGrantsAreSmall(s: CharacterState)
    requires 1 <= s.talent <= 10
    ensures 0 <= TalentBonus(s.talent, 3, "meditate") <= 11
    ensures 0 <= TalentBonus(s.talent, 5, "pill") <= 15
    ensures 0 <= TalentBonus(s.talent, 12, "cultivate") <= 27
  {
  }

  /** Every execution keeps the character invariants: resources within their
      bounds, the inventory closed over "pill", and the experience invariant. */
  lemma {:induction false} PerformKeepsConsistent(a: Action, s: CharacterState)
    requires Consistent(s)
    ensures Consistent(Perform(a, s).after)
  {
    if a.CanExecute(s) {
      var paid := Debit(s, a.GetCost()).1;
      assert Consistent(paid);
      ExperienceGrantsAreSmall(paid);
      match a
      case Meditate =>
        GainKeepsWellFormed(paid.exp, TalentBonus(paid.talent, 3, "meditate"));
      case ConsumePill =>
        GainKeepsWellFormed(paid.exp, TalentBonus(paid.talent, 5, "pill"));
      case Cultivate =>
        GainKeepsWellFormed(paid.exp, TalentBonus(paid.talent, 12, "cultivate"));
      case Wait =>
    }
  }

  // ------------------------------------------------------------ execution

  method ExecuteMeditate(c: CharacterStats, log: GameLog) returns (r: ActionResult)
    modifies c, c.health, c.mana, c.experience, c.inventory, log
    ensures var o := Perform(Meditate, old(c.State()));
              c.State() == o.after && r == o.result
              && log.entries == Logged(old(log.entries), log.maxEntries, o.logLine)
              && log.maxEntries == old(log.maxEntries)
  {
    if !Meditate.CanExecute(c.State()) {
      return ActionResult(false, Meditate.FailureMessage(c.State()), map[], map[]);
    }
    var cost := Meditate.GetCost();
    var _ := c.ApplyCost(cost);
    var actualMp, expGain, gain := MeditateGains(c);
    var streak, pillBonus := MeditationStreak(c);
    r := MeditateResult(actualMp, expGain, gain, streak, pillBonus);
    log.AddEntry(r.message);
  }

  /** The first half of meditation: the talent-scaled mana restore, then the
      experience grant. */
  method MeditateGains(c: CharacterStats) returns (actualMp: int, expGain: int, gain: Gain)
    modifies c.mana, c.experience
    ensures c.State() == MeditateGainsState(old(c.State()))
    ensures actualMp == c.State().mp - old(c.State()).mp
    ensures expGain == TalentBonus(old(c.State()).talent, 3, "meditate")
    ensures gain == GainExperience(old(c.State()).exp, expGain)
  {
    var mpRecovery := TalentBonus(c.talent, 8, "meditate");
    expGain := TalentBonus(c.talent, 3, "meditate");
    actualMp := c.mana.Restore(mpRecovery);
    var breakthrough, breakthroughMsg := c.experience.AddExperience(expGain);
    gain := Gain(c.experience.Value(), breakthrough, breakthroughMsg);
  }

  /** The second half of meditation: one more in the streak, and a pill on every
      fifth. */
  method MeditationStreak(c: CharacterStats) returns (streak: int, pillBonus: int)
    modifies c, c.inventory
    ensures c.State() == StreakState(old(c.State()))
    ensures streak == c.State().streak
    ensures pillBonus == if streak % 5 == 0 then 1 else 0
  {
    c.meditationStreak := c.meditationStreak + 1;
    streak := c.meditationStreak;
    pillBonus := 0;
    if streak % 5 == 0 {
      var _ := c.inventory.AddItem("pill", 1);
      pillBonus := 1;
    }
  }

  method ExecuteConsumePill(c: CharacterStats, log: GameLog) returns (r: ActionResult)
    modifies c, c.health, c.mana, c.experience, c.inventory, log
    ensures var o := Perform(ConsumePill, old(c.State()));
              c.State() == o.after && r == o.result
              && log.entries == Logged(old(log.entries), log.maxEntries, o.logLine)
              && log.maxEntries == old(log.maxEntries)
  {
    if !ConsumePill.CanExecute(c.State()) {
      return ActionResult(false, ConsumePill.FailureMessage(c.State()), map[], map[]);
    }
    var cost := ConsumePill.GetCost();
    var _ := c.ApplyCost(cost);
    var actualHp, actualMp, expGain, gain := ConsumePillSteps(c);
    r := ConsumePillResult(actualHp, actualMp, expGain, gain);
    log.AddEntry(r.message);
  }

  /** A pill's effects, in the source's order, once it has been paid for. */
  method ConsumePillSteps(c: CharacterStats) returns (actualHp: int, actualMp: int, expGain: int, gain: Gain)
    modifies c, c.health, c.mana, c.experience
    ensures c.State() == ConsumePillState(old(c.State()))
    ensures actualHp == c.State().hp - old(c.State()).hp
    ensures actualMp == c.State().mp - old(c.State()).mp
    ensures expGain == TalentBonus(old(c.State()).talent, 5, "pill")
    ensures gain == GainExperience(old(c.State()).exp, expGain)
  {
    var hpRecovery := TalentBonus(c.talent, 15, "pill");
    var mpRecovery := TalentBonus(c.talent, 15, "pill");
    expGain := TalentBonus(c.talent, 5, "pill");
    actualHp := c.health.Restore(hpRecovery);
    actualMp := c.mana.Restore(mpRecovery);
    var breakthrough, breakthroughMsg := c.experience.AddExperience(expGain);
    gain := Gain(c.experience.Value(), breakthrough, breakthroughMsg);
    c.meditationStreak := 0;
  }

  method ExecuteCultivate(c: CharacterStats, log: GameLog) returns (r: ActionResult)
    modifies c, c.health, c.mana, c.experience, c.inventory, log
    ensures var o := Perform(Cultivate, old(c.State()));
              c.State() == o.after && r == o.result
              && log.entries == Logged(old(log.entries), log.maxEntries, o.logLine)
              && log.maxEntries == old(log.maxEntries)
  {
    if !Cultivate.CanExecute(c.State()) {
      return ActionResult(false, Cultivate.FailureMessage(c.State()), map[], map[]);
    }
    var cost := Cultivate.GetCost();
    var _ := c.ApplyCost(cost);
    var expGain := TalentBonus(c.talent, 12, "cultivate");
    var breakthrough, breakthroughMsg := c.experience.AddExperience(expGain);
    c.meditationStreak := 0;
    r := CultivateResult(expGain, Gain(c.experience.Value(), breakthrough, breakthroughMsg));
    log.AddEntry(r.message);
  }

  method ExecuteWait(c: CharacterStats, log: GameLog) returns (r: ActionResult)
    modifies c, c.health, c.mana, c.experience, c.inventory, log
    ensures var o := Perform(Wait, old(c.State()));
              c.State() == o.after && r == o.result
              && log.entries == Logged(old(log.entries), log.maxEntries, o.logLine)
              && log.maxEntries == old(log.maxEntries)
  {
    if !Wait.CanExecute(c.State()) {
      return ActionResult(false, Wait.FailureMessage(c.State()), map[], map[]);
    }
    var cost := Wait.GetCost();
    var _ := c.ApplyCost(cost);
    var actualHp, actualMp := WaitSteps(c);
    r := WaitResult(actualHp, actualMp);
    log.AddEntry(r.message);
  }

  /** Waiting's fixed restores, in the source's order, once its health is paid. */
  method WaitSteps(c: CharacterStats) returns (actualHp: int, actualMp: int)
    modifies c, c.health, c.mana
    ensures c.State() == WaitState(old(c.State()))
    ensures actualHp == c.State().hp - old(c.State()).hp
    ensures actualMp == c.State().mp - old(c.State()).mp
  {
    var hpRecovery := 2;
    var mpRecovery := 3;
    actualHp := c.health.Restore(hpRecovery);
    actualMp := c.mana.Restore(mpRecovery);
    c.meditationStreak := 0;
  }

  // -------------------------------------------------------------- factory

  /** ActionFactory.get_all_actions, in catalog order. */
  const Catalog: seq<Action> := [Meditate, ConsumePill, Cultivate, Wait]

  /** The first action of `actions` whose display name is exactly `name`. */
  function FindByName(actions: seq<Action>, name: string): (r: Option<Action>)
    ensures r.Some? ==> r.value in actions && r.value.Name() == name
    ensures r.None? <==> forall i :: 0 <= i < |actions| ==> actions[i].Name() != name
    ensures r.Some? ==> exists i :: 0 <= i < |actions| && actions[i] == r.value
                          && forall j :: 0 <= j < i ==> actions[j].Name() != name
  {
    if actions == [] then None
    else if actions[0].Name() == name then Some(actions[0])
    else
      var rest := FindByName(actions[1..], name);
      if rest.None? then None
      else
        var i :| 0 <= i < |actions[1..]| && actions[1..][i] == rest.value
                 && forall j :: 0 <= j < i ==> actions[1..][j].Name() != name;
        assert actions[i + 1] == rest.value;
        rest
  }

  /** get_action_by_name: a linear search of the catalog. */
  method GetActionByName(name: string) returns (r: Option<Action>)
    ensures r == FindByName(Catalog, name)
  {
    var actions := Catalog;
    var k := 0;
    while k < |actions|
      invariant 0 <= k <= |actions|
      invariant FindByName(actions[k..], name) == FindByName(Catalog, name)
    {
      if actions[k].Name() == name {
        return Some(actions[k]);
      }
      assert actions[k..][1..] == actions[k + 1..];
      k := k + 1;
    }
    return None;
  }

  /** The factory matches display names only: each catalog action is found by its
      own name, and an English identifier such as "meditate" finds nothing. */
  lemma {:induction false} LookupByDisplayName(a: Action)
    ensures FindByName(Catalog, a.Name()) == Some(a)
    ensures FindByName(Catalog, "meditate") == None
  {
    assert Catalog[0].Name() == "打坐" && Catalog[1].Name() == "吃丹药";
    assert Catalog[2].Name() == "修炼" && Catalog[3].Name() == "等待";
  }
}

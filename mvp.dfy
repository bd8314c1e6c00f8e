/** The first prototype: one global record of the cultivator (health, power,
    experience, pills, talent, the meditation count, the realm's name and the
    log) and the four actions that change it in place. The record is the class
    `Cultivator`; its methods are proved against the functions on `Mvp`. */
module Prototype {
  import opened Builtins

  const Levels := ["炼气期", "筑基期", "结丹期", "元婴期", "化神期", "飞升"]

  datatype Mvp = Mvp(
    hp: int, mp: int, exp: int, pill: int, talent: int,
    meditateCount: int, level: string, log: seq<string>)

  /** The starting record; the talent is drawn at random between 1 and 10. */
  function Start(talent: int): Mvp
  {
    Mvp(100, 50, 0, 0, talent, 0, "炼气期", [])
  }

  /** `LEVELS.index(level)`: the first position of the level's name. */
  function LevelIndex(level: string): (i: nat)
    requires level in Levels
    ensures i < |Levels| && Levels[i] == level
    ensures forall j :: 0 <= j < i ==> Levels[j] != level
  {
    IndexFrom(level, 0)
  }

  function IndexFrom(level: string, k: nat): (i: nat)
    requires k <= |Levels| && level in Levels[k..]
    ensures k <= i < |Levels| && Levels[i] == level
    ensures forall j :: k <= j < i ==> Levels[j] != level
    decreases |Levels| - k
  {
    if Levels[k] == level then k else IndexFrom(level, k + 1)
  }

  // ------------------------------------------------------------ actions

  /** update_level: with 100 experience or more, a realm below the last moves
      up exactly one realm and the experience restarts at 0. */
  function LevelUpdated(s: Mvp): Mvp
    requires s.level in Levels
  {
    if s.exp >= 100 then
      var index := LevelIndex(s.level);
      if index < |Levels| - 1 then
        var next := Levels[index + 1];
        s.(level := next, exp := 0, log := s.log + ["突破至 " + next + "！"])
      else s
    else s
  }

  /** meditate: nothing for a cultivator without health; else power +10 up to
      100, experience +5 + talent, health −2, a pill on every fifth
      meditation, then the breakthrough check and the log line. */
  function Meditated(s: Mvp): Mvp
    requires s.level in Levels
  {
    if s.hp <= 0 then s
    else
      var count := s.meditateCount + 1;
      var t := s.(mp := Min(100, s.mp + 10), exp := s.exp + 5 + s.talent,
                  meditateCount := count, hp := s.hp - 2);
      var u := if count % 5 == 0 then t.(pill := t.pill + 1, log := t.log + ["连续打坐 5 次，获得丹药！"]) else t;
      var v := LevelUpdated(u);
      v.(log := v.log + ["你进入了打坐修炼状态。"])
  }

  /** consume_pill: a pill restores 20 health and 20 power, each up to 100. */
  function PillTaken(s: Mvp): Mvp
  {
    if s.pill > 0 then
      s.(pill := s.pill - 1, hp := Min(100, s.hp + 20), mp := Min(100, s.mp + 20),
         log := s.log + ["你服下一颗丹药，恢复元气。"])
    else s.(log := s.log + ["没有丹药可用。"])
  }

  /** cultivate: 20 power buys 15 + 2 × talent experience and a breakthrough
      check. */
  function Cultivated(s: Mvp): Mvp
    requires s.level in Levels
  {
    if s.mp >= 20 then
      var v := LevelUpdated(s.(mp := s.mp - 20, exp := s.exp + 15 + s.talent * 2));
      v.(log := v.log + ["你运转心法，修为精进。"])
    else s.(log := s.log + ["仙力不足，无法修炼。"])
  }

  /** wait_turn: health −1, never below 0, with a failure line at 0. */
  function Waited(s: Mvp): Mvp
  {
    var hp := Max(0, s.hp - 1);
    s.(hp := hp, log := if hp <= 0 then s.log + ["你元气耗尽，修炼失败。"] else s.log)
  }

  // ---------------------------------------------------------- properties

  lemma UpdateLevelOneStep(s: Mvp)
    requires s.level in Levels
    ensures var u := LevelUpdated(s); var i := LevelIndex(s.level);
              && (s.exp < 100 || i == |Levels| - 1 ==> u == s)
              && (s.exp >= 100 && i < |Levels| - 1 ==>
                    u.level == Levels[i + 1] && u.exp == 0
                    && u == s.(level := u.level, exp := 0, log := u.log)
                    && u.log == s.log + ["突破至 " + Levels[i + 1] + "！"])
  {
  }

  /** The surplus over 100 is lost at a breakthrough: 195 experience leaves 0. */
  lemma BreakthroughDiscardsSurplus()
    ensures LevelUpdated(Start(5).(exp := 195)) == Start(5).(level := "筑基期", exp := 0, log := ["突破至 筑基期！"])
  {
    assert LevelIndex("炼气期") == 0;
    assert Levels[1] == "筑基期";
    assert "突破至 " + "筑基期" + "！" == "突破至 筑基期！";
  }

  lemma MeditateEffects(s: Mvp)
    requires s.level in Levels
    ensures s.hp <= 0 ==> Meditated(s) == s
    ensures var m := Meditated(s);
              s.hp > 0 ==>
                && m.mp == Min(100, s.mp + 10) && m.hp == s.hp - 2
                && m.meditateCount == s.meditateCount + 1 && m.talent == s.talent
                && (m.pill == s.pill + 1 <==> m.meditateCount % 5 == 0)
                && (m.pill == s.pill <==> m.meditateCount % 5 != 0)
                && (m.exp == s.exp + 5 + s.talent || (m.exp == 0 && s.exp + 5 + s.talent >= 100))
                && m.log[|m.log| - 1] == "你进入了打坐修炼状态。"
  {
  }

  /** Health is not clamped when meditating: at 1 it drops to −1. */
  lemma MeditateGoesNegative()
    ensures Meditated(Start(3).(hp := 1)).hp == -1
  {
  }

  lemma ConsumePillEffects(s: Mvp)
    ensures var c := PillTaken(s);
              && (s.pill > 0 ==>
                    c.pill == s.pill - 1 && c.hp == Min(100, s.hp + 20) && c.mp == Min(100, s.mp + 20)
                    && c.exp == s.exp && c.talent == s.talent && c.meditateCount == s.meditateCount
                    && c.level == s.level && c.log == s.log + ["你服下一颗丹药，恢复元气。"])
              && (s.pill <= 0 ==> c == s.(log := s.log + ["没有丹药可用。"]))
  {
  }

  lemma CultivateEffects(s: Mvp)
    requires s.level in Levels
    ensures var c := Cultivated(s);
              && (s.mp >= 20 ==>
                    c.mp == s.mp - 20 && c.hp == s.hp && c.pill == s.pill
                    && c.talent == s.talent && c.meditateCount == s.meditateCount
                    && c.log[|c.log| - 1] == "你运转心法，修为精进。"
                    && (c.exp == s.exp + 15 + 2 * s.talent || (c.exp == 0 && s.exp + 15 + 2 * s.talent >= 100)))
              && (s.mp < 20 ==> c == s.(log := s.log + ["仙力不足，无法修炼。"]))
  {
  }

  lemma WaitTurnEffects(s: Mvp)
    ensures var w := Waited(s);
              && w.hp >= 0 && w.hp == Max(0, s.hp - 1)
              && w == s.(hp := w.hp, log := w.log)
              && w.log == s.log + (if w.hp == 0 then ["你元气耗尽，修炼失败。"] else [])
  {
  }

  // ----------------------------------------------------------- invariant

  /** What every reachable record satisfies: a listed realm, 0 to 100 power,
      at most 100 health and never below −1 (one meditation from 1), no
      negative pill count or experience. */
  predicate Sane(s: Mvp)
  {
    s.level in Levels && 0 <= s.mp <= 100 && -1 <= s.hp <= 100 && s.pill >= 0
    && s.exp >= 0 && 1 <= s.talent <= 10 && s.meditateCount >= 0
  }

  datatype Command = DoMeditate | DoConsumePill | DoCultivate | DoWait

  function Apply(s: Mvp, c: Command): Mvp
    requires s.level in Levels
  {
    match c
    case DoMeditate => Meditated(s)
    case DoConsumePill => PillTaken(s)
    case DoCultivate => Cultivated(s)
    case DoWait => Waited(s)
  }

  /** The player clicking buttons in order. */
  function Play(s: Mvp, cs: seq<Command>): Mvp
    requires Sane(s)
    decreases |cs|
  {
    if cs == [] then s
    else
      StepKeepsSane(s, cs[0]);
      Play(Apply(s, cs[0]), cs[1..])
  }

  lemma UpdateLevelKeepsSane(s: Mvp)
    requires Sane(s)
    ensures Sane(LevelUpdated(s)) && LevelIndex(s.level) <= LevelIndex(LevelUpdated(s).level)
  {
  }

  lemma MeditateKeepsSane(s: Mvp)
    requires Sane(s)
    ensures Sane(Meditated(s)) && LevelIndex(s.level) <= LevelIndex(Meditated(s).level)
  {
    if s.hp > 0 {
      var count := s.meditateCount + 1;
      var t := s.(mp := Min(100, s.mp + 10), exp := s.exp + 5 + s.talent,
                  meditateCount := count, hp := s.hp - 2);
      assert Sane(t);
      var u := if count % 5 == 0 then t.(pill := t.pill + 1, log := t.log + ["连续打坐 5 次，获得丹药！"]) else t;
      assert Sane(u) && u.level == s.level;
      UpdateLevelKeepsSane(u);
      var v := LevelUpdated(u);
      assert Meditated(s) == v.(log := v.log + ["你进入了打坐修炼状态。"]);
    }
  }

  lemma CultivateKeepsSane(s: Mvp)
    requires Sane(s)
    ensures Sane(Cultivated(s)) && LevelIndex(s.level) <= LevelIndex(Cultivated(s).level)
  {
    if s.mp >= 20 {
      var u := s.(mp := s.mp - 20, exp := s.exp + 15 + s.talent * 2);
      UpdateLevelKeepsSane(u);
      var v := LevelUpdated(u);
      assert Cultivated(s) == v.(log := v.log + ["你运转心法，修为精进。"]);
    }
  }

  lemma StepKeepsSane(s: Mvp, c: Command)
    requires Sane(s)
    ensures Sane(Apply(s, c))
    ensures LevelIndex(s.level) <= LevelIndex(Apply(s, c).level)
  {
    match c
    case DoMeditate => MeditateKeepsSane(s);
    case DoCultivate => CultivateKeepsSane(s);
    case DoConsumePill =>
    case DoWait =>
  }

  /** From the start, any sequence of actions keeps the record sane, and the
      realm never goes back. */
  lemma {:induction false} PlayKeepsSane(s: Mvp, cs: seq<Command>)
    requires Sane(s)
    ensures Sane(Play(s, cs)) && LevelIndex(s.level) <= LevelIndex(Play(s, cs).level)
    decreases |cs|
  {
    if cs != [] {
      StepKeepsSane(s, cs[0]);
      PlayKeepsSane(Apply(s, cs[0]), cs[1..]);
    }
  }

  // -------------------------------------------------------------- class

  /** The global state dictionary of the prototype. */
  class Cultivator {
    var hp: int
    var mp: int
    var exp: int
    var pill: int
    var talent: int
    var meditateCount: int
    var level: string
    var log: seq<string>

    function Value(): Mvp
      reads this
    {
      Mvp(hp, mp, exp, pill, talent, meditateCount, level, log)
    }

    constructor (talent: int)
      requires 1 <= talent <= 10
      ensures Value() == Start(talent) && Sane(Value())
    {
      hp, mp, exp, pill := 100, 50, 0, 0;
      this.talent := talent;
      meditateCount, level, log := 0, "炼气期", [];
    }

    method UpdateLevel()
      requires level in Levels
      modifies this
      ensures Value() == LevelUpdated(old(Value()))
    {
      if exp >= 100 {
        var index := LevelIndex(level);
        if index < |Levels| - 1 {
          level := Levels[index + 1];
          exp := 0;
          log := log + ["突破至 " + level + "！"];
        }
      }
    }

    method Meditate()
      requires level in Levels
      modifies this
      ensures Value() == Meditated(old(Value()))
    {
      if hp <= 0 {
        return;
      }
      mp := Min(100, mp + 10);
      exp := exp + 5 + talent;
      meditateCount := meditateCount + 1;
      hp := hp - 2;
      if meditateCount % 5 == 0 {
        pill := pill + 1;
        log := log + ["连续打坐 5 次，获得丹药！"];
      }
      UpdateLevel();
      log := log + ["你进入了打坐修炼状态。"];
    }

    method ConsumePill()
      modifies this
      ensures Value() == PillTaken(old(Value()))
    {
      if pill > 0 {
        pill := pill - 1;
        hp := Min(100, hp + 20);
        mp := Min(100, mp + 20);
        log := log + ["你服下一颗丹药，恢复元气。"];
      } else {
        log := log + ["没有丹药可用。"];
      }
    }

    method Cultivate()
      requires level in Levels
      modifies this
      ensures Value() == Cultivated(old(Value()))
    {
      if mp >= 20 {
        mp := mp - 20;
        exp := exp + 15 + talent * 2;
        UpdateLevel();
        log := log + ["你运转心法，修为精进。"];
      } else {
        log := log + ["仙力不足，无法修炼。"];
      }
    }

    method WaitTurn()
      modifies this
      ensures Value() == Waited(old(Value()))
    {
      hp := Max(0, hp - 1);
      if hp <= 0 {
        log := log + ["你元气耗尽，修炼失败。"];
      }
    }
  }
}

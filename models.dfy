/** The character model: the six-realm ladder, the resource components (health,
    mana, experience, talent, inventory), the character aggregate that composes
    them, and the bounded game log. Each component is a class whose fields are
    updated in place; the pure functions beside it say what each update does to
    the component's value, and the lemmas are stated about those functions. */
module Models {
  import opened Builtins

  // ---------------------------------------------------------------- realms

  datatype Realm = QiRefining | Foundation | CoreFormation | NascentSoul
                 | SpiritualTransformation | Ascension

  /** The realms in declaration order, as `list(RealmLevel)` gives them. */
  const Ladder: seq<Realm> :=
    [QiRefining, Foundation, CoreFormation, NascentSoul, SpiritualTransformation, Ascension]

  /** `list(RealmLevel).index(r)`. */
  function RealmIndex(r: Realm): (i: nat)
    ensures i < |Ladder| && Ladder[i] == r
    ensures forall j :: 0 <= j < |Ladder| && Ladder[j] == r ==> j == i
  {
    match r
    case QiRefining => 0
    case Foundation => 1
    case CoreFormation => 2
    case NascentSoul => 3
    case SpiritualTransformation => 4
    case Ascension => 5
  }

  /** The enumeration's value: the realm's display name, also the save format. */
  function RealmName(r: Realm): string
  {
    match r
    case QiRefining => "炼气期"
    case Foundation => "筑基期"
    case CoreFormation => "结丹期"
    case NascentSoul => "元婴期"
    case SpiritualTransformation => "化神期"
    case Ascension => "飞升"
  }

  /** Distinct realms have distinct display names, so a name identifies its realm. */
  lemma RealmNameInjective(a: Realm, b: Realm)
    ensures RealmName(a) == RealmName(b) ==> a == b
  {
  }

  /** A threshold that is either a whole number or Python's float('inf'). */
  datatype Bound = Finite(n: nat) | Infinite {
    /** `x >= threshold`, which never holds for float('inf'). */
    predicate ReachedBy(x: int) { Finite? && x >= n }
  }

  /** ExperienceComponent.realm_thresholds: the experience the realm consumes to
      advance to the next one; none suffices at Ascension. */
  function RealmThreshold(r: Realm): (t: Bound)
    ensures t.Infinite? <==> r == Ascension
  {
    match r
    case QiRefining => Finite(100)
    case Foundation => Finite(200)
    case CoreFormation => Finite(400)
    case NascentSoul => Finite(800)
    case SpiritualTransformation => Finite(1600)
    case Ascension => Infinite
  }

  function BreakthroughMessage(r: Realm): string
  {
    "突破至 " + RealmName(r) + "！"
  }

  // ------------------------------------------------------------ experience

  /** The value of an ExperienceComponent. */
  datatype Experience = Experience(total: int, level: int, realm: Realm)

  /** What add_experience leaves behind and returns. */
  datatype Gain = Gain(after: Experience, breakthrough: bool, message: Option<string>)

  /** add_experience on values: both counters grow by `amount`; then, below
      Ascension, reaching the realm's threshold advances exactly one realm and
      subtracts that (old) threshold, so the excess carries over. */
  function GainExperience(e: Experience, amount: int): (g: Gain)
    ensures g.after.total == e.total + amount
    ensures g.breakthrough <==> e.realm != Ascension && RealmThreshold(e.realm).ReachedBy(e.level + amount)
    ensures g.breakthrough ==>
              && RealmIndex(g.after.realm) == RealmIndex(e.realm) + 1
              && g.after.level == e.level + amount - RealmThreshold(e.realm).n
              && g.message == Some(BreakthroughMessage(g.after.realm))
    ensures !g.breakthrough ==>
              g.after.realm == e.realm && g.after.level == e.level + amount && g.message == None
  {
    var total, level := e.total + amount, e.level + amount;
    var threshold := RealmThreshold(e.realm);
    var index := RealmIndex(e.realm);
    if threshold.ReachedBy(level) && e.realm != Ascension && index < |Ladder| - 1 then
      var next := Ladder[index + 1];
      Gain(Experience(total, level - threshold.n, next), true, Some(BreakthroughMessage(next)))
    else
      Gain(Experience(total, level, e.realm), false, None)
  }

  /** What add_experience keeps between calls: level experience is never
      negative, never more than the cumulative total (both grow by the same
      amount, and a breakthrough only subtracts from the level), and below the
      current realm's threshold. */
  ghost predicate WellFormed(e: Experience)
  {
    && 0 <= e.level <= e.total
    && (e.realm != Ascension ==> e.level < RealmThreshold(e.realm).n)
  }

  /** A grant no larger than the current realm's threshold keeps the invariant:
      after a breakthrough the carried-over excess is below the next threshold,
      which is at least as large (the ladder doubles). Every action grants at most
      27 experience, far below the smallest threshold. */
  lemma {:induction false} GainKeepsWellFormed(e: Experience, amount: int)
    requires WellFormed(e)
    requires 0 <= amount && (e.realm != Ascension ==> amount <= RealmThreshold(e.realm).n)
    ensures WellFormed(GainExperience(e, amount).after)
  {
    var g := GainExperience(e, amount);
    if g.breakthrough {
      var next := g.after.realm;
      assert next == Ladder[RealmIndex(e.realm) + 1];
      assert next != Ascension ==> RealmThreshold(e.realm).n <= RealmThreshold(next).n by {
        match e.realm
        case QiRefining =>
        case Foundation =>
        case CoreFormation =>
        case NascentSoul =>
        case SpiritualTransformation =>
      }
    }
  }

  /** Only one realm is crossed per call: 300 experience from a fresh start reaches
      Foundation with 200 left over, not Core Formation. */
  lemma ThreeHundredCrossesOneRealm()
    ensures GainExperience(Experience(0, 0, QiRefining), 300)
         == Gain(Experience(300, 200, Foundation), true, Some(BreakthroughMessage(Foundation)))
    ensures GainExperience(Experience(0, 0, QiRefining), 300).after.realm != CoreFormation
  {
  }

  /** Cumulative experience never decreases, and level experience only drops by the
      threshold of a breakthrough. */
  lemma {:induction false} TotalNeverDecreases(e: Experience, amount: nat)
    ensures GainExperience(e, amount).after.total >= e.total
    ensures GainExperience(e, amount).after.total - GainExperience(e, amount).after.level
         >= e.total - e.level
  {
  }

  /** get_progress_percentage as an exact ratio (percent): 100 at Ascension,
      otherwise level / threshold * 100 capped at 100. */
  function ProgressPercentage(e: Experience): (p: Ratio)
    ensures p.den > 0 && p.num <= 100 * p.den
    ensures e.level >= 0 ==> p.num >= 0
    ensures e.realm == Ascension ==> p == Ratio(100, 1)
  {
    match RealmThreshold(e.realm)
    case Infinite => Ratio(100, 1)
    case Finite(t) => Ratio(Min(100 * t, 100 * e.level), t)
  }

  class ExperienceComponent {
    var totalExperience: int
    var currentLevelExperience: int
    var currentRealm: Realm

    function Value(): Experience
      reads this
    {
      Experience(totalExperience, currentLevelExperience, currentRealm)
    }

    constructor ()
      ensures Value() == Experience(0, 0, QiRefining)
    {
      totalExperience := 0;
      currentLevelExperience := 0;
      currentRealm := QiRefining;
    }

    method AddExperience(amount: int) returns (breakthrough: bool, message: Option<string>)
      modifies this
      ensures GainExperience(old(Value()), amount) == Gain(Value(), breakthrough, message)
    {
      totalExperience := totalExperience + amount;
      currentLevelExperience := currentLevelExperience + amount;
      var threshold := RealmThreshold(currentRealm);
      if threshold.ReachedBy(currentLevelExperience) && currentRealm != Ascension {
        var index := RealmIndex(currentRealm);
        if index < |Ladder| - 1 {
          currentRealm := Ladder[index + 1];
          currentLevelExperience := currentLevelExperience - threshold.n;
          return true, Some(BreakthroughMessage(currentRealm));
        }
      }
      return false, None;
    }

    function GetProgressPercentage(): (p: Ratio)
      reads this
      ensures p == ProgressPercentage(Value())
      ensures p.den > 0 && p.num <= 100 * p.den
    {
      ProgressPercentage(Value())
    }
  }

  // --------------------------------------------------------- health, mana

  /** `min(maximum, current + amount)`: the pool after a restore. */
  function RestoredTo(current: int, maximum: int, amount: int): (after: int)
    ensures after <= maximum
    ensures after - current <= amount
    ensures current <= maximum && amount >= 0 ==> current <= after
    ensures current + amount <= maximum ==> after == current + amount
  {
    Min(maximum, current + amount)
  }

  /** `max(0, current - amount)`: health after a consume, which never fails. */
  function HealthAfterConsume(current: int, amount: int): (after: int)
    ensures after >= 0
    ensures current >= 0 && amount >= 0 ==> 0 <= current - after <= amount
    ensures amount <= current ==> after == current - amount
  {
    Max(0, current - amount)
  }

  /** Mana's consume is all or nothing. */
  function ManaAfterConsume(current: int, amount: int): (r: (bool, int))
    ensures r.0 <==> current >= amount
    ensures r.1 == if r.0 then current - amount else current
  {
    if current >= amount then (true, current - amount) else (false, current)
  }

  class HealthComponent {
    var maxHp: int
    var currentHp: int

    constructor (maxHp: int)
      ensures this.maxHp == maxHp && currentHp == maxHp
    {
      this.maxHp := maxHp;
      currentHp := maxHp;
    }

    method Restore(amount: int) returns (restored: int)
      modifies this
      ensures maxHp == old(maxHp)
      ensures currentHp == RestoredTo(old(currentHp), maxHp, amount)
      ensures restored == currentHp - old(currentHp)
    {
      var oldHp := currentHp;
      currentHp := Min(maxHp, currentHp + amount);
      restored := currentHp - oldHp;
    }

    method Consume(amount: int) returns (consumed: int)
      modifies this
      ensures maxHp == old(maxHp)
      ensures currentHp == HealthAfterConsume(old(currentHp), amount)
      ensures consumed == old(currentHp) - currentHp
    {
      var oldHp := currentHp;
      currentHp := Max(0, currentHp - amount);
      consumed := oldHp - currentHp;
    }

    function IsAlive(): bool
      reads this
    {
      currentHp > 0
    }

    /** hp / max_hp, a fraction between 0 and 1 while the pool is in range. */
    function GetHpPercentage(): (p: Ratio)
      reads this
      ensures p.den == maxHp
      ensures 0 <= currentHp <= maxHp ==> 0 <= p.num <= p.den
    {
      Ratio(currentHp, maxHp)
    }
  }

  class ManaComponent {
    var maxMp: int
    var currentMp: int

    /** Mana starts half full (floor division). */
    constructor (maxMp: int)
      ensures this.maxMp == maxMp && currentMp == maxMp / 2
    {
      this.maxMp := maxMp;
      currentMp := maxMp / 2;
    }

    method Restore(amount: int) returns (restored: int)
      modifies this
      ensures maxMp == old(maxMp)
      ensures currentMp == RestoredTo(old(currentMp), maxMp, amount)
      ensures restored == currentMp - old(currentMp)
    {
      var oldMp := currentMp;
      currentMp := Min(maxMp, currentMp + amount);
      restored := currentMp - oldMp;
    }

    method Consume(amount: int) returns (ok: bool)
      modifies this
      ensures maxMp == old(maxMp)
      ensures (ok, currentMp) == ManaAfterConsume(old(currentMp), amount)
    {
      if currentMp >= amount {
        currentMp := currentMp - amount;
        return true;
      }
      return false;
    }

    /** mp / max_mp, a fraction between 0 and 1 while the pool is in range. */
    function GetMpPercentage(): (p: Ratio)
      reads this
      ensures p.den == maxMp
      ensures 0 <= currentMp <= maxMp ==> 0 <= p.num <= p.den
    {
      Ratio(currentMp, maxMp)
    }
  }

  // ---------------------------------------------------------------- talent

  /** TalentComponent's multiplier table in tenths: meditate 0.8, cultivate 1.5,
      pill 1.0, any other kind (including "wait") 1.0. */
  function TalentMultiplierTenths(kind: string): int
  {
    if kind == "meditate" then 8
    else if kind == "cultivate" then 15
    else if kind == "pill" then 10
    else 10
  }

  /** int(get_talent_bonus(base, kind)): `base + talent * multiplier`, truncated. */
  function TalentBonus(talent: int, base: int, kind: string): (b: int)
    ensures talent >= 0 && base >= 0 ==>
              10 * b <= 10 * base + talent * TalentMultiplierTenths(kind) < 10 * b + 10
  {
    TruncTenths(10 * base + talent * TalentMultiplierTenths(kind))
  }

  // ------------------------------------------------------------- inventory

  /** `items.get(name, 0)`. */
  function ItemCount(items: map<string, int>, name: string): (n: int)
    ensures name !in items ==> n == 0
  {
    if name in items then items[name] else 0
  }

  /** add_item: only kinds already in the inventory are accepted. */
  function WithItemAdded(items: map<string, int>, name: string, amount: int): (r: (bool, map<string, int>))
    ensures r.0 <==> name in items
    ensures r.1.Keys == items.Keys
    ensures ItemCount(r.1, name) == ItemCount(items, name) + (if r.0 then amount else 0)
    ensures forall other :: other != name ==> ItemCount(r.1, other) == ItemCount(items, other)
  {
    if name in items then (true, items[name := items[name] + amount]) else (false, items)
  }

  /** consume_item: all or nothing, for a known kind with enough stock. */
  function WithItemConsumed(items: map<string, int>, name: string, amount: int): (r: (bool, map<string, int>))
    ensures r.0 <==> name in items && items[name] >= amount
    ensures r.1.Keys == items.Keys
    ensures ItemCount(r.1, name) == ItemCount(items, name) - (if r.0 then amount else 0)
    ensures forall other :: other != name ==> ItemCount(r.1, other) == ItemCount(items, other)
  {
    if name in items && items[name] >= amount then (true, items[name := items[name] - amount])
    else (false, items)
  }

  /** Consuming what was just added succeeds and restores the inventory. */
  lemma AddThenConsume(items: map<string, int>, name: string, amount: int)
    requires name in items && items[name] >= 0 && amount >= 0
    ensures WithItemConsumed(WithItemAdded(items, name, amount).1, name, amount) == (true, items)
  {
    var added := WithItemAdded(items, name, amount).1;
    assert added[name := added[name] - amount] == items;
  }

  class InventoryComponent {
    var items: map<string, int>

    constructor ()
      ensures items == map["pill" := 0]
    {
      items := map["pill" := 0];
    }

    method AddItem(name: string, amount: int) returns (ok: bool)
      modifies this
      ensures (ok, items) == WithItemAdded(old(items), name, amount)
    {
      if name in items {
        items := items[name := items[name] + amount];
        return true;
      }
      return false;
    }

    method ConsumeItem(name: string, amount: int) returns (ok: bool)
      modifies this
      ensures (ok, items) == WithItemConsumed(old(items), name, amount)
    {
      if name in items && items[name] >= amount {
        items := items[name := items[name] - amount];
        return true;
      }
      return false;
    }

    /** get_item_count: `items.get(name, 0)`. */
    function GetItemCount(name: string): (n: int)
      reads this
      ensures name in items ==> n == items[name]
      ensures name !in items ==> n == 0
    {
      ItemCount(items, name)
    }
  }

  // ------------------------------------------------------------- character

  /** A demand against the character's resources; time is never checked. */
  datatype Cost = Cost(hp: int, mp: int, pills: int, time: int)

  /** An entry of an action's effects dictionary: the source declares integer
      values but also stores the flag `level_up` and the realm name `new_level`. */
  datatype Value = Int(i: int) | Flag(b: bool) | Text(t: string)

  datatype ActionResult = ActionResult(
    success: bool, message: string, effects: map<string, Value>, costs: map<string, int>)

  /** The value of a CharacterStats object and all its components. */
  datatype CharacterState = CharacterState(
    name: string,
    hp: int, maxHp: int,
    mp: int, maxMp: int,
    exp: Experience,
    talent: int,
    items: map<string, int>,
    streak: int,
    totalActions: int)

  predicate Alive(s: CharacterState) { s.hp > 0 }

  function Pills(s: CharacterState): int { ItemCount(s.items, "pill") }

  /** What a freshly created character looks like: full health, half mana, no pills. */
  function NewCharacter(name: string, talent: int): CharacterState
  {
    CharacterState(name, 100, 100, 50, 100, Experience(0, 0, QiRefining), talent, map["pill" := 0], 0, 0)
  }

  /** The invariants every character keeps between actions (the resource bounds,
      the closed inventory, the talent range and the experience invariant). */
  ghost predicate Consistent(s: CharacterState)
  {
    && s.maxHp == 100 && s.maxMp == 100
    && 0 <= s.hp <= s.maxHp
    && 0 <= s.mp <= s.maxMp
    && s.items.Keys == {"pill"} && s.items["pill"] >= 0
    && s.streak >= 0 && s.totalActions >= 0
    && 1 <= s.talent <= 10
    && WellFormed(s.exp)
  }

  lemma NewCharacterConsistent(name: string, talent: int)
    requires 1 <= talent <= 10
    ensures Consistent(NewCharacter(name, talent))
  {
  }

  /** can_perform_action: enough health, mana and pills; time is not a resource. */
  predicate Affords(s: CharacterState, c: Cost)
  {
    s.hp >= c.hp && s.mp >= c.mp && Pills(s) >= c.pills
  }

  /** apply_cost on values: nothing changes unless the cost is affordable; then
      each resource is debited and one more action is counted. */
  function Debit(s: CharacterState, c: Cost): (r: (bool, CharacterState))
    ensures r.0 <==> Affords(s, c)
    ensures !r.0 ==> r.1 == s
    ensures r.0 ==>
              && (c.hp >= 0 ==> r.1.hp == s.hp - c.hp)
              && r.1.mp == s.mp - c.mp
              && ("pill" in s.items ==> Pills(r.1) == Pills(s) - c.pills)
              && r.1.items.Keys == s.items.Keys
              && r.1.totalActions == s.totalActions + 1
              && r.1.name == s.name && r.1.maxHp == s.maxHp && r.1.maxMp == s.maxMp
              && r.1.exp == s.exp && r.1.talent == s.talent && r.1.streak == s.streak
  {
    if !Affords(s, c) then (false, s)
    else
      var hp := HealthAfterConsume(s.hp, c.hp);
      var mp := ManaAfterConsume(s.mp, c.mp).1;
      var items := WithItemConsumed(s.items, "pill", c.pills).1;
      (true, s.(hp := hp, mp := mp, items := items, totalActions := s.totalActions + 1))
  }

  /** get_status_summary, with the realm given by its display name. */
  datatype StatusSummary = StatusSummary(
    name: string, hp: int, maxHp: int, mp: int, maxMp: int,
    realm: string, exp: int, expProgress: Ratio, totalExp: int,
    talent: int, pills: int, meditationStreak: int, alive: bool)

  /** get_status_summary on values: the character's own numbers, its realm's
      name and its progress; a consistent character's numbers are in range. */
  function Summary(s: CharacterState): (st: StatusSummary)
    ensures st.alive <==> Alive(s)
    ensures st.realm == RealmName(s.exp.realm) && st.pills == Pills(s)
    ensures Consistent(s) ==>
              0 <= st.hp <= st.maxHp && 0 <= st.mp <= st.maxMp && 1 <= st.talent <= 10
              && 0 <= st.exp <= st.totalExp
  {
    StatusSummary(s.name, s.hp, s.maxHp, s.mp, s.maxMp, RealmName(s.exp.realm), s.exp.level,
                  ProgressPercentage(s.exp), s.exp.total, s.talent, Pills(s), s.streak, Alive(s))
  }

  class CharacterStats {
    const name: string
    const health: HealthComponent
    const mana: ManaComponent
    const experience: ExperienceComponent
    const talent: int
    const inventory: InventoryComponent
    var meditationStreak: int
    var totalActions: int

    /** The objects that make up this character. */
    ghost function Repr(): set<object>
    {
      {this, health, mana, experience, inventory}
    }

    function State(): CharacterState
      reads this, health, mana, experience, inventory
    {
      CharacterState(name, health.currentHp, health.maxHp, mana.currentMp, mana.maxMp,
                     experience.Value(), talent, inventory.items, meditationStreak, totalActions)
    }

    /** The talent is a parameter here; the source draws it with randint(1, 10). */
    constructor (name: string, talentValue: int)
      requires 1 <= talentValue <= 10
      ensures State() == NewCharacter(name, talentValue)
      ensures fresh(health) && fresh(mana) && fresh(experience) && fresh(inventory)
    {
      this.name := name;
      health := new HealthComponent(100);
      mana := new ManaComponent(100);
      experience := new ExperienceComponent();
      talent := talentValue;
      inventory := new InventoryComponent();
      meditationStreak := 0;
      totalActions := 0;
    }

    function IsAlive(): bool
      reads this, health
    {
      health.IsAlive()
    }

    method ApplyCost(cost: Cost) returns (ok: bool)
      modifies this, health, mana, inventory
      ensures ok == Debit(old(State()), cost).0
      ensures State() == Debit(old(State()), cost).1
    {
      if !(health.currentHp >= cost.hp && mana.currentMp >= cost.mp
           && inventory.GetItemCount("pill") >= cost.pills) {
        return false;
      }
      var _ := health.Consume(cost.hp);
      var _ := mana.Consume(cost.mp);
      var _ := inventory.ConsumeItem("pill", cost.pills);
      totalActions := totalActions + 1;
      return true;
    }

    function GetStatusSummary(): (st: StatusSummary)
      reads this, health, mana, experience, inventory
      ensures st == Summary(State())
      ensures st.alive <==> health.currentHp > 0
    {
      Summary(State())
    }
  }

  // ------------------------------------------------------------------ log

  const Placeholder := "开始你的修仙之旅..."

  /** add_entry on values: append, then drop the oldest entry if over the limit.
      The bounded histories elsewhere in the game use the same append-then-pop(0). */
  function Appended<T>(entries: seq<T>, maxEntries: int, message: T): (r: seq<T>)
    ensures |r| == if |entries| + 1 > maxEntries then |entries| else |entries| + 1
    ensures |entries| <= maxEntries ==> |r| <= maxEntries
  {
    var grown := entries + [message];
    if |grown| > maxEntries then grown[1..] else grown
  }

  /** The log after an append is the newest entries of the old log followed by
      the message: nothing is reordered or altered, only the oldest entry can go. */
  lemma AppendedKeepsNewest<T>(entries: seq<T>, maxEntries: int, message: T)
    ensures var r := Appended(entries, maxEntries, message);
              && r == (entries + [message])[|entries| + 1 - |r|..]
              && (maxEntries > 0 || entries != [] ==> |r| > 0 && r[|r| - 1] == message)
              && (|r| > 0 ==> r[..|r| - 1] == entries[|entries| + 1 - |r|..])
  {
  }

  /** The appended message is the newest entry whenever the bound is positive. */
  lemma AppendedEndsWith<T>(entries: seq<T>, maxEntries: int, message: T)
    requires maxEntries > 0
    ensures var r := Appended(entries, maxEntries, message);
              |r| > 0 && r[|r| - 1] == message
  {
  }

  /** get_recent_entries: `entries[-count:]`, or the placeholder line when empty. */
  function RecentEntries(entries: seq<string>, count: int): (r: seq<string>)
    ensures entries == [] ==> r == [Placeholder]
    ensures entries != [] && count > 0 ==>
              |r| == Min(count, |entries|) && r == entries[|entries| - |r|..]
    ensures entries != [] && count == 0 ==> r == entries
  {
    if entries != [] then SliceFrom(entries, -count) else [Placeholder]
  }

  class GameLog {
    var entries: seq<string>
    var maxEntries: int

    constructor (maxEntries: int)
      ensures entries == [] && this.maxEntries == maxEntries
    {
      entries := [];
      this.maxEntries := maxEntries;
    }

    method AddEntry(message: string)
      modifies this
      ensures maxEntries == old(maxEntries)
      ensures entries == Appended(old(entries), maxEntries, message)
    {
      entries := entries + [message];
      if |entries| > maxEntries {
        entries := entries[1..];
      }
    }

    function GetRecentEntries(count: int): (r: seq<string>)
      reads this
      ensures r == RecentEntries(entries, count)
      ensures entries != [] && count > 0 ==> |r| <= count && r == entries[|entries| - |r|..]
    {
      RecentEntries(entries, count)
    }
  }
}

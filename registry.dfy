/** The action registry: three linked dictionaries (id to action, id to its
    descriptive info, category to the ids filed under it) with enable flags and
    a per-category listing ordered by sort_order. The registry's values are
    `RegistryState`; the class is proved against the functions on them and the
    lemmas state what the registry promises. */
module Registry {
  import opened Builtins
  import opened Models
  import opened Actions
  import opened Sorting

  datatype ActionInfo = ActionInfo(
    actionId: string, displayName: string, description: string, category: string,
    enabled: bool, hotkey: Option<string>, icon: Option<string>, sortOrder: int)

  /** `ActionInfo("", "", "")`, which get_actions_by_category falls back on for
      an id without info: enabled and ordered first. */
  const BlankInfo := ActionInfo("", "", "", "game", true, None, None, 0)

  /** The optional arguments of register_action, with the source's defaults in
      `Defaults`. */
  datatype Registration = Registration(
    displayName: Option<string>, description: Option<string>, category: string,
    hotkey: Option<string>, icon: Option<string>, sortOrder: int, enabled: bool)

  const Defaults := Registration(None, None, "game", None, None, 0, true)

  datatype RegistryState = RegistryState(
    actions: map<string, Action>, info: map<string, ActionInfo>,
    categories: map<string, seq<string>>)

  const EmptyRegistry := RegistryState(map[], map[], map[])

  /** No id is listed twice. */
  ghost predicate Distinct(s: seq<string>)
  {
    forall id :: multiset(s)[id] <= 1
  }

  /** Every id with info is filed, once, in the list of the category its info
      names. */
  ghost predicate AllFiled(r: RegistryState)
  {
    forall id :: id in r.info ==>
      r.info[id].category in r.categories && id in r.categories[r.info[id].category]
  }

  /** Every listed id has info naming the category it is listed under. */
  ghost predicate OnlyFiled(r: RegistryState)
  {
    forall c, id :: c in r.categories && id in r.categories[c] ==>
      id in r.info && r.info[id].category == c
  }

  ghost predicate NoRepeats(r: RegistryState)
  {
    forall c :: c in r.categories ==> Distinct(r.categories[c])
  }

  /** The links between the three dictionaries: the same ids have an action and
      an info, each info carries its own id, and each category list holds,
      once each, exactly the ids whose info names that category. */
  ghost predicate Linked(r: RegistryState)
  {
    && r.actions.Keys == r.info.Keys
    && (forall id :: id in r.info ==> r.info[id].actionId == id)
    && NoRepeats(r) && AllFiled(r) && OnlyFiled(r)
  }

  function InfoOf(info: map<string, ActionInfo>, id: string): ActionInfo
  {
    if id in info then info[id] else BlankInfo
  }

  /** The sort_order of each id with info. */
  function SortOrders(info: map<string, ActionInfo>): (orders: map<string, int>)
    ensures orders.Keys == info.Keys
  {
    map id | id in info :: info[id].sortOrder
  }

  /** The sort key of get_actions_by_category: the id's sort_order, and the
      blank info's 0 for an id without info. */
  function OrderKey(orders: map<string, int>): string -> int
  {
    id => if id in orders then orders[id] else 0
  }

  function SortKey(info: map<string, ActionInfo>): string -> int
  {
    OrderKey(SortOrders(info))
  }

  /** list.remove: the first occurrence goes (RemoveFirstSplits). list.remove
      raises ValueError on an absent item; unregister_action only calls it after
      checking membership, so on a list without `x` this total version returns
      the list unchanged, a case the source never reaches. */
  function RemoveFirst(s: seq<string>, x: string): (r: seq<string>)
    ensures x in s ==> multiset(r) == multiset(s) - multiset{x}
    ensures x !in s ==> r == s
  {
    if s == [] then []
    else
      assert s == [s[0]] + s[1..];
      if s[0] == x then s[1..] else [s[0]] + RemoveFirst(s[1..], x)
  }

  /** The removed occurrence is the first one: the list splits at the first
      `x`, and the rest keeps its order. */
  lemma {:induction false} RemoveFirstSplits(s: seq<string>, x: string) returns (k: nat)
    requires x in s
    ensures k < |s| && s[k] == x && x !in s[..k]
    ensures RemoveFirst(s, x) == s[..k] + s[k + 1..]
  {
    assert s == [s[0]] + s[1..];
    if s[0] == x {
      k := 0;
    } else {
      var j := RemoveFirstSplits(s[1..], x);
      k := j + 1;
      assert s[..k] == [s[0]] + s[1..][..j];
      assert s[k + 1..] == s[1..][j + 1..];
    }
  }

  lemma DistinctAfterRemove(s: seq<string>, x: string)
    requires Distinct(s)
    ensures Distinct(RemoveFirst(s, x)) && x !in RemoveFirst(s, x)
    ensures forall y :: y != x ==> (y in RemoveFirst(s, x) <==> y in s)
  {
    var r := RemoveFirst(s, x);
    if x in s {
      assert multiset(r)[x] == 0;
      forall y | y != x ensures (y in r <==> y in s) {
        assert multiset(r)[y] == multiset(s)[y];
      }
    }
  }

  /** The ids of `ids`, in order, whose info (or the blank info) is enabled. */
  function EnabledOnly(ids: seq<string>, info: map<string, ActionInfo>): (r: seq<string>)
    ensures |r| <= |ids|
  {
    if ids == [] then []
    else (if InfoOf(info, ids[0]).enabled then [ids[0]] else []) + EnabledOnly(ids[1..], info)
  }

  /** The filter keeps each enabled id as often as it occurs, and nothing else. */
  lemma {:induction false} EnabledOnlyMembers(ids: seq<string>, info: map<string, ActionInfo>)
    ensures multiset(EnabledOnly(ids, info)) <= multiset(ids)
    ensures forall id :: id in EnabledOnly(ids, info) <==> id in ids && InfoOf(info, id).enabled
  {
    if ids != [] {
      EnabledOnlyMembers(ids[1..], info);
      assert ids == [ids[0]] + ids[1..];
    }
  }

  lemma {:induction false} EnabledOnlyAll(ids: seq<string>, info: map<string, ActionInfo>)
    requires forall k :: 0 <= k < |ids| ==> InfoOf(info, ids[k]).enabled
    ensures EnabledOnly(ids, info) == ids
  {
    if ids != [] {
      EnabledOnlyAll(ids[1..], info);
    }
  }

  /** is_action_enabled: the flag, and false for an id without info. */
  predicate IsEnabled(info: map<string, ActionInfo>, id: string)
  {
    id in info && info[id].enabled
  }

  // --------------------------------------------------------- operations

  /** The info register_action stores, the action's own name and description
      standing in for missing ones. */
  function InfoFor(id: string, a: Action, reg: Registration): (i: ActionInfo)
    ensures i.actionId == id && i.category == reg.category && i.enabled == reg.enabled
    ensures i.displayName == (if reg.displayName.Some? then reg.displayName.value else a.Name())
    ensures i.description == (if reg.description.Some? then reg.description.value else a.Description())
  {
    ActionInfo(id, if reg.displayName.None? then a.Name() else reg.displayName.value,
               if reg.description.None? then a.Description() else reg.description.value,
               reg.category, reg.enabled, reg.hotkey, reg.icon, reg.sortOrder)
  }

  /** The category lists once `id` is filed under `category`: appended unless
      it is already there. */
  function FiledUnder(categories: map<string, seq<string>>, category: string, id: string): map<string, seq<string>>
  {
    var list := if category in categories then categories[category] else [];
    categories[category := if id in list then list else list + [id]]
  }

  /** register_action exactly as written: the action and info are stored and the
      id is filed under its category, but an id re-registered under another
      category stays in the old list too. */
  function RegisteredAsWritten(r: RegistryState, id: string, a: Action, reg: Registration): RegistryState
  {
    RegistryState(r.actions[id := a], r.info[id := InfoFor(id, a, reg)], FiledUnder(r.categories, reg.category, id))
  }

  /** The category lists once `id` has left the category its info names, if
      that is not `category`. */
  function LeavingOld(r: RegistryState, id: string, category: string): map<string, seq<string>>
  {
    if id in r.info && r.info[id].category != category && r.info[id].category in r.categories then
      r.categories[r.info[id].category := RemoveFirst(r.categories[r.info[id].category], id)]
    else r.categories
  }

  /** register_action as intended: as written, except that an id moving to
      another category leaves its old one. */
  function Registered(r: RegistryState, id: string, a: Action, reg: Registration): RegistryState
  {
    RegistryState(r.actions[id := a], r.info[id := InfoFor(id, a, reg)],
                  FiledUnder(LeavingOld(r, id, reg.category), reg.category, id))
  }

  /** unregister_action: false and no change for an unknown id; otherwise the id
      leaves all three dictionaries. */
  function Unregistered(r: RegistryState, id: string): (bool, RegistryState)
    requires r.actions.Keys == r.info.Keys
  {
    if id !in r.actions then (false, r)
    else
      var category := r.info[id].category;
      var categories := if category in r.categories && id in r.categories[category]
                        then r.categories[category := RemoveFirst(r.categories[category], id)]
                        else r.categories;
      (true, RegistryState(r.actions - {id}, r.info - {id}, categories))
  }

  /** get_actions_by_category: the stored list is sorted in place by sort_order
      (stably) and its enabled ids are returned; an unknown category lists
      nothing and changes nothing. */
  function ByCategory(r: RegistryState, category: string): (RegistryState, seq<string>)
  {
    if category !in r.categories then (r, [])
    else
      var sorted := SortBy(r.categories[category], SortKey(r.info));
      (r.(categories := r.categories[category := sorted]), EnabledOnly(sorted, r.info))
  }

  /** enable_action / disable_action: the flag is set for a known id. */
  function WithEnabled(r: RegistryState, id: string, flag: bool): (bool, RegistryState)
  {
    if id in r.info then (true, r.(info := r.info[id := r.info[id].(enabled := flag)]))
    else (false, r)
  }

  /** The ids get_enabled_action_ids lists. */
  function EnabledIds(info: map<string, ActionInfo>): set<string>
  {
    set id | id in info && info[id].enabled
  }

  function DisabledIds(info: map<string, ActionInfo>): set<string>
  {
    set id | id in info && !info[id].enabled
  }

  /** The number of ids in `ids` that is_action_enabled accepts. */
  function CountEnabled(ids: seq<string>, info: map<string, ActionInfo>): (n: nat)
    ensures n <= |ids|
  {
    if ids == [] then 0
    else (if IsEnabled(info, ids[0]) then 1 else 0) + CountEnabled(ids[1..], info)
  }

  /** When every id has info, the count is the length of the enabled filter:
      the number of ids get_actions_by_category would list. */
  lemma {:induction false} CountEnabledIsFiltered(ids: seq<string>, info: map<string, ActionInfo>)
    requires forall id :: id in ids ==> id in info
    ensures CountEnabled(ids, info) == |EnabledOnly(ids, info)|
  {
    if ids != [] {
      CountEnabledIsFiltered(ids[1..], info);
    }
  }

  datatype CategoryStats = CategoryStats(total: int, enabled: int)

  datatype RegistryStats = RegistryStats(
    totalActions: int, enabledActions: int, disabledActions: int, categoriesCount: int,
    categoryStats: map<string, CategoryStats>)

  /** get_registry_stats. */
  function Stats(r: RegistryState): RegistryStats
  {
    var total := |r.actions|;
    var enabled := |EnabledIds(r.info)|;
    RegistryStats(total, enabled, total - enabled, |r.categories|,
                  map c | c in r.categories :: CategoryStats(|r.categories[c]|, CountEnabled(r.categories[c], r.info)))
  }

  /** The messages validate_registry reports. The checks that each instance has
      execute, can_execute and get_cost always pass for the four actions. */
  function Issues(r: RegistryState): set<string>
  {
    (set id | id in r.info && r.info[id].displayName == "" :: "动作 " + id + " 缺少显示名称")
    + (set id | id in r.info && r.info[id].description == "" :: "动作 " + id + " 缺少描述")
    + (set id | id in r.actions && id !in r.info :: "动作 " + id + " 缺少动作信息")
    + (set id | id in r.info && id !in r.actions :: "动作信息 " + id + " 缺少对应的动作实例")
  }

  /** How initialize_game_actions registers each game action: under "game",
      enabled, with a hotkey and a sort order. */
  function GameRegistration(displayName: string, description: string, hotkey: string, order: int): Registration
  {
    Registration(Some(displayName), Some(description), "game", Some(hotkey), None, order, true)
  }

  const MeditateEntry := GameRegistration("打坐", "进入冥想状态，恢复仙力并获得少量经验", "1", 1)
  const ConsumePillEntry := GameRegistration("吃丹药", "服用丹药快速恢复生命力和仙力", "2", 2)
  const CultivateEntry := GameRegistration("修炼", "运转心法，大量提升修为", "3", 3)
  const WaitEntry := GameRegistration("等待", "静心养神，缓慢恢复状态", "4", 4)

  /** The four game actions registered in turn, as initialize_game_actions
      does before it reports the count. */
  function GameRegistered(r: RegistryState): RegistryState
  {
    var r1 := RegisteredAsWritten(r, "meditate", Meditate, MeditateEntry);
    var r2 := RegisteredAsWritten(r1, "consume_pill", ConsumePill, ConsumePillEntry);
    var r3 := RegisteredAsWritten(r2, "cultivate", Cultivate, CultivateEntry);
    RegisteredAsWritten(r3, "wait", Wait, WaitEntry)
  }

  /** initialize_game_actions: the four registrations, then the listing of
      "game" whose length is printed; that listing sorts the stored list in
      place. */
  function GameActions(r: RegistryState): RegistryState
  {
    ByCategory(GameRegistered(r), "game").0
  }

  // --------------------------------------------------------------- lemmas

  lemma RemovedStaysDistinct(r: RegistryState, c: string, id: string)
    requires c in r.categories && Distinct(r.categories[c])
    ensures Distinct(RemoveFirst(r.categories[c], id))
  {
    DistinctAfterRemove(r.categories[c], id);
  }

  /** Leaving the old category keeps every list free of repeats and filed
      correctly, drops `id` from every category but `category`, and keeps every
      other id where it was. */
  lemma LeavingOldFacts(r: RegistryState, id: string, category: string)
    requires Linked(r)
    ensures var left := LeavingOld(r, id, category);
              && left.Keys == r.categories.Keys
              && (forall c :: c in left ==> Distinct(left[c]))
              && (forall c, x :: c in left && x in left[c] ==>
                    x in r.info && r.info[x].category == c && (x == id ==> c == category))
              && (forall c, x :: c in left && x != id && x in r.categories[c] ==> x in left[c])
  {
    var left := LeavingOld(r, id, category);
    forall c | c in left
      ensures Distinct(left[c])
      ensures forall x :: x in left[c] ==> x in r.info && r.info[x].category == c && (x == id ==> c == category)
      ensures forall x :: x != id && x in r.categories[c] ==> x in left[c]
    {
      if id in r.info && r.info[id].category != category && c == r.info[id].category {
        DistinctAfterRemove(r.categories[c], id);
      }
    }
  }

  /** Filing `id` under `category` lists it there exactly once. */
  lemma FiledOnce(categories: map<string, seq<string>>, category: string, id: string)
    requires category in categories ==> Distinct(categories[category])
    ensures var filed := FiledUnder(categories, category, id);
              && Distinct(filed[category]) && multiset(filed[category])[id] == 1
              && (forall x :: x in filed[category] <==> x == id || (category in categories && x in categories[category]))
  {
    var list := if category in categories then categories[category] else [];
    if id !in list {
      assert multiset(list + [id]) == multiset(list) + multiset{id};
    }
  }

  /** After registration every category list is free of repeats. */
  lemma RegisteredDistinct(r: RegistryState, id: string, a: Action, reg: Registration)
    requires Linked(r)
    ensures var n := Registered(r, id, a, reg);
              && (forall c :: c in n.categories ==> Distinct(n.categories[c]))
              && multiset(n.categories[reg.category])[id] == 1
  {
    var left := LeavingOld(r, id, reg.category);
    var n := Registered(r, id, a, reg);
    LeavingOldFacts(r, id, reg.category);
    FiledOnce(left, reg.category, id);
    forall c | c in n.categories ensures Distinct(n.categories[c]) {
      if c != reg.category {
        assert n.categories[c] == left[c];
      }
    }
  }

  /** After registration every id with info is listed under its category. */
  lemma RegisteredFiled(r: RegistryState, id: string, a: Action, reg: Registration)
    requires Linked(r)
    ensures var n := Registered(r, id, a, reg);
              forall x :: x in n.info ==>
                n.info[x].category in n.categories && x in n.categories[n.info[x].category]
  {
    var left := LeavingOld(r, id, reg.category);
    var n := Registered(r, id, a, reg);
    LeavingOldFacts(r, id, reg.category);
    FiledOnce(left, reg.category, id);
    forall x | x in n.info
      ensures n.info[x].category in n.categories && x in n.categories[n.info[x].category]
    {
      if x != id {
        var c := r.info[x].category;
        assert x in left[c];
      }
    }
  }

  /** After registration every listed id has info naming that category. */
  lemma RegisteredListed(r: RegistryState, id: string, a: Action, reg: Registration)
    requires Linked(r)
    ensures var n := Registered(r, id, a, reg);
              forall c, x :: c in n.categories && x in n.categories[c] ==>
                x in n.info && n.info[x].category == c
  {
    var left := LeavingOld(r, id, reg.category);
    var n := Registered(r, id, a, reg);
    LeavingOldFacts(r, id, reg.category);
    FiledOnce(left, reg.category, id);
    forall c, x | c in n.categories && x in n.categories[c]
      ensures x in n.info && n.info[x].category == c
    {
      if c != reg.category {
        assert x in left[c];
      }
    }
  }

  /** Registration keeps the dictionaries linked: the new info is filed under
      exactly its category, once, and every other id stays where it was. */
  lemma RegisterKeepsLinked(r: RegistryState, id: string, a: Action, reg: Registration)
    requires Linked(r)
    ensures Linked(Registered(r, id, a, reg))
    ensures var n := Registered(r, id, a, reg);
              && n.actions[id] == a && n.info[id] == InfoFor(id, a, reg)
              && multiset(n.categories[reg.category])[id] == 1
  {
    RegisteredDistinct(r, id, a, reg);
    RegisteredFiled(r, id, a, reg);
    RegisteredListed(r, id, a, reg);
  }

  /** The register as written and as intended agree exactly when the id is new
      or keeps its category. An id that moves stays listed under its old
      category as written, and the dictionaries are then no longer linked. */
  lemma {:induction false} AsWrittenAgreesUnlessMoved(r: RegistryState, id: string, a: Action, reg: Registration)
    requires Linked(r)
    ensures RegisteredAsWritten(r, id, a, reg) == Registered(r, id, a, reg) <==>
              id !in r.info || r.info[id].category == reg.category
    ensures id in r.info && r.info[id].category != reg.category ==>
              && id in RegisteredAsWritten(r, id, a, reg).categories[r.info[id].category]
              && !Linked(RegisteredAsWritten(r, id, a, reg))
  {
    if id in r.info && r.info[id].category != reg.category {
      var c := r.info[id].category;
      var written := RegisteredAsWritten(r, id, a, reg);
      assert written.categories[c] == r.categories[c];
      DistinctAfterRemove(r.categories[c], id);
      assert id !in Registered(r, id, a, reg).categories[c];
      assert written.info[id].category == reg.category;
    }
  }

  /** Unregistering a known id drops it from every category list and keeps
      every other listed id. */
  lemma UnregisteredMembers(r: RegistryState, id: string)
    requires r.actions.Keys == r.info.Keys && NoRepeats(r) && OnlyFiled(r) && id in r.actions
    ensures var n := Unregistered(r, id).1;
              && n.categories.Keys == r.categories.Keys
              && forall c, x :: c in n.categories ==>
                   (x in n.categories[c] <==> x in r.categories[c] && x != id)
  {
    var c0 := r.info[id].category;
    if c0 in r.categories {
      DistinctAfterRemove(r.categories[c0], id);
    }
  }

  /** Unregistering keeps every category list free of repeats. */
  lemma UnregisteredDistinct(r: RegistryState, id: string)
    requires Linked(r) && id in r.actions
    ensures NoRepeats(Unregistered(r, id).1)
  {
    var c0 := r.info[id].category;
    RemovedStaysDistinct(r, c0, id);
  }

  /** An unknown id is refused with no change; a known one leaves all three
      dictionaries, and the links hold. */
  lemma UnregisterKeepsLinked(r: RegistryState, id: string)
    requires Linked(r)
    ensures var (ok, n) := Unregistered(r, id);
              && (ok <==> id in r.actions)
              && (!ok ==> n == r)
              && (ok ==> id !in n.actions && id !in n.info
                         && forall c :: c in n.categories ==> id !in n.categories[c])
              && Linked(n)
  {
    if id in r.actions {
      UnregisteredMembers(r, id);
      UnregisteredDistinct(r, id);
      UnregisteredFiled(r, id);
      UnregisteredListed(r, id);
    }
  }

  /** After unregistering, every remaining id is still listed under its category. */
  lemma UnregisteredFiled(r: RegistryState, id: string)
    requires Linked(r) && id in r.actions
    ensures AllFiled(Unregistered(r, id).1)
  {
    var n := Unregistered(r, id).1;
    UnregisteredMembers(r, id);
    forall x | x in n.info
      ensures n.info[x].category in n.categories && x in n.categories[n.info[x].category]
    {
      assert x in r.categories[r.info[x].category];
    }
  }

  /** After unregistering, every listed id still has info naming its category. */
  lemma UnregisteredListed(r: RegistryState, id: string)
    requires r.actions.Keys == r.info.Keys && NoRepeats(r) && OnlyFiled(r) && id in r.actions
    ensures OnlyFiled(Unregistered(r, id).1)
  {
    var n := Unregistered(r, id).1;
    UnregisteredMembers(r, id);
    forall c, x | c in n.categories && x in n.categories[c]
      ensures x in n.info && n.info[x].category == c
    {
      assert x in r.categories[c];
    }
  }

  /** Enabling or disabling answers whether the id is known, changes only that
      flag, and keeps the links. */
  lemma EnableKeepsLinked(r: RegistryState, id: string, flag: bool)
    requires Linked(r)
    ensures var (ok, n) := WithEnabled(r, id, flag);
              && (ok <==> id in r.info)
              && (!ok ==> n == r)
              && (ok ==> IsEnabled(n.info, id) == flag)
              && (forall x :: x != id ==> IsEnabled(n.info, x) == IsEnabled(r.info, x))
              && n.actions == r.actions && n.categories == r.categories
              && Linked(n)
  {
    var n := WithEnabled(r, id, flag).1;
    assert n.info.Keys == r.info.Keys;
    assert forall x :: x in n.info ==>
      n.info[x].actionId == r.info[x].actionId && n.info[x].category == r.info[x].category;
  }

  /** Two lists with the same multiset have the same members, and one lists
      no id twice when the other does not. */
  lemma SameMembers(a: seq<string>, b: seq<string>)
    requires multiset(a) == multiset(b)
    ensures forall id :: id in a <==> id in b
    ensures Distinct(a) ==> Distinct(b)
  {
    forall id ensures (id in a <==> id in b) && multiset(a)[id] == multiset(b)[id] {
      assert multiset(a)[id] == multiset(b)[id];
    }
  }

  /** The listing of a category list is ordered by sort_order. */
  lemma ListingIsSorted(list: seq<string>, info: map<string, ActionInfo>)
    ensures SortedBy(EnabledOnly(SortBy(list, SortKey(info)), info), SortKey(info))
  {
    SortByIsSorted(list, SortKey(info));
    EnabledOnlyKeepsOrder(SortBy(list, SortKey(info)), info, SortKey(info));
  }

  /** The listing of a category list holds its enabled ids, once each when the
      list holds them once each. */
  lemma ListingMembers(list: seq<string>, info: map<string, ActionInfo>)
    ensures var ids := EnabledOnly(SortBy(list, SortKey(info)), info);
              && (forall id :: id in ids <==> id in list && InfoOf(info, id).enabled)
              && (Distinct(list) ==> Distinct(ids))
  {
    var sorted := SortBy(list, SortKey(info));
    SortByIsPermutation(list, SortKey(info));
    SameMembers(list, sorted);
    EnabledOnlyMembers(sorted, info);
    var ids := EnabledOnly(sorted, info);
    if Distinct(list) {
      forall id ensures multiset(ids)[id] <= 1 {
        assert multiset(ids)[id] <= multiset(sorted)[id];
      }
    }
  }

  /** Sorting a category list in place keeps the registry linked. */
  lemma ListingKeepsLinked(r: RegistryState, category: string)
    requires Linked(r)
    ensures Linked(ByCategory(r, category).0)
  {
    if category in r.categories {
      var list := r.categories[category];
      SortByIsPermutation(list, SortKey(r.info));
      SameMembers(list, SortBy(list, SortKey(r.info)));
    }
  }

  /** get_actions_by_category returns its category's enabled ids in sort_order;
      in a linked registry these are exactly the enabled actions registered
      under it. The stored list keeps its ids and the links hold. */
  lemma CategoryListing(r: RegistryState, category: string)
    requires Linked(r)
    ensures var (n, ids) := ByCategory(r, category);
              && SortedBy(ids, SortKey(r.info))
              && (forall id :: id in ids <==>
                    id in r.info && r.info[id].category == category && r.info[id].enabled)
              && Distinct(ids)
              && n.actions == r.actions && n.info == r.info
              && Linked(n)
  {
    ListingKeepsLinked(r, category);
    if category in r.categories {
      ListingIsSorted(r.categories[category], r.info);
      ListingMembers(r.categories[category], r.info);
    } else {
      forall id | id in r.info ensures r.info[id].category != category {
      }
    }
  }

  /** Filtering keeps a sorted list sorted. */
  lemma {:induction false} EnabledOnlyKeepsOrder(ids: seq<string>, info: map<string, ActionInfo>, key: string -> int)
    requires SortedBy(ids, key)
    ensures SortedBy(EnabledOnly(ids, info), key)
  {
    if ids != [] {
      var rest := EnabledOnly(ids[1..], info);
      EnabledOnlyKeepsOrder(ids[1..], info, key);
      if InfoOf(info, ids[0]).enabled {
        var r := [ids[0]] + rest;
        forall i, j | 0 <= i < j < |r| ensures key(r[i]) <= key(r[j]) {
          if i == 0 {
            EnabledOnlyMembers(ids[1..], info);
            assert r[j] in ids[1..];
            var k :| 0 <= k < |ids[1..]| && ids[1..][k] == r[j];
            assert ids[k + 1] == r[j];
          } else {
            assert r[i] == rest[i - 1] && r[j] == rest[j - 1];
          }
        }
      }
    }
  }

  /** The statistics add up: in a linked registry the disabled count is the
      number of disabled actions, so it is never negative. */
  lemma {:induction false} StatsAddUp(r: RegistryState)
    requires r.actions.Keys == r.info.Keys
    ensures Stats(r).disabledActions == |DisabledIds(r.info)| >= 0
    ensures Stats(r).enabledActions + Stats(r).disabledActions == Stats(r).totalActions
  {
    var e, d := EnabledIds(r.info), DisabledIds(r.info);
    assert r.info.Keys == e + d;
    assert e * d == {};
    assert |r.info.Keys| == |e| + |d|;
    assert |r.actions| == |r.actions.Keys|;
  }

  /** validate_registry reports nothing exactly when the actions and infos have
      the same ids and every info has a display name and a description. */
  lemma {:induction false} ValidationFindsExactly(r: RegistryState)
    ensures Issues(r) == {} <==>
              && r.actions.Keys == r.info.Keys
              && forall id :: id in r.info ==> r.info[id].displayName != "" && r.info[id].description != ""
  {
    if Issues(r) == {} {
      forall id | id in r.info ensures r.info[id].displayName != "" && r.info[id].description != "" {
        assert "动作 " + id + " 缺少显示名称" !in Issues(r);
        assert "动作 " + id + " 缺少描述" !in Issues(r);
      }
      forall id | id in r.actions ensures id in r.info {
        assert "动作 " + id + " 缺少动作信息" !in Issues(r);
      }
      forall id | id in r.info ensures id in r.actions {
        assert "动作信息 " + id + " 缺少对应的动作实例" !in Issues(r);
      }
    }
  }

  /** As written, an id re-registered under another category and then
      unregistered is still listed under its first category: the listing falls
      back on the blank info, which is enabled. */
  lemma StaleCategoryEntry()
    ensures var first := RegisteredAsWritten(EmptyRegistry, "meditate", Meditate, Defaults);
            var moved := RegisteredAsWritten(first, "meditate", Meditate, Defaults.(category := "system"));
            var gone := Unregistered(moved, "meditate").1;
              && "meditate" !in gone.actions
              && ByCategory(gone, "game").1 == ["meditate"]
  {
    var first := RegisteredAsWritten(EmptyRegistry, "meditate", Meditate, Defaults);
    var moved := RegisteredAsWritten(first, "meditate", Meditate, Defaults.(category := "system"));
    assert moved.categories["game"] == ["meditate"];
    assert moved.categories["system"] == ["meditate"];
    var gone := Unregistered(moved, "meditate").1;
    assert gone.categories["game"] == ["meditate"];
    assert gone.info == map[];
  }

  // ---------------------------------------------------------------- class

  /** Initialization keeps the registry linked when none of the four ids is
      already filed under a category other than "game"; each step is then the
      intended register. */
  lemma GameActionsLinked(r: RegistryState)
    requires Linked(r)
    requires forall id :: id in GameIds && id in r.info ==> r.info[id].category == "game"
    ensures Linked(GameActions(r))
  {
    var r1 := Registered(r, "meditate", Meditate, MeditateEntry);
    var r2 := Registered(r1, "consume_pill", ConsumePill, ConsumePillEntry);
    var r3 := Registered(r2, "cultivate", Cultivate, CultivateEntry);
    AsWrittenAgreesUnlessMoved(r, "meditate", Meditate, MeditateEntry);
    RegisterKeepsLinked(r, "meditate", Meditate, MeditateEntry);
    AsWrittenAgreesUnlessMoved(r1, "consume_pill", ConsumePill, ConsumePillEntry);
    RegisterKeepsLinked(r1, "consume_pill", ConsumePill, ConsumePillEntry);
    AsWrittenAgreesUnlessMoved(r2, "cultivate", Cultivate, CultivateEntry);
    RegisterKeepsLinked(r2, "cultivate", Cultivate, CultivateEntry);
    AsWrittenAgreesUnlessMoved(r3, "wait", Wait, WaitEntry);
    RegisterKeepsLinked(r3, "wait", Wait, WaitEntry);
    ListingKeepsLinked(GameRegistered(r), "game");
  }

  const GameIds: seq<string> := ["meditate", "consume_pill", "cultivate", "wait"]

  /** The four game actions are filed in registration order, each with its sort
      order and enabled. */
  lemma GameFiling()
    ensures var g := GameRegistered(EmptyRegistry);
              && "game" in g.categories && g.categories["game"] == GameIds
              && forall k :: 0 <= k < |GameIds| ==>
                   GameIds[k] in g.info && g.info[GameIds[k]].sortOrder == k + 1 && g.info[GameIds[k]].enabled
  {
    var g := GameRegistered(EmptyRegistry);
    assert g.categories["game"] == GameIds;
    forall k | 0 <= k < |GameIds|
      ensures GameIds[k] in g.info && g.info[GameIds[k]].sortOrder == k + 1 && g.info[GameIds[k]].enabled
    {
      if k == 0 {
        assert GameIds[k] == "meditate";
      } else if k == 1 {
        assert GameIds[k] == "consume_pill";
      } else if k == 2 {
        assert GameIds[k] == "cultivate";
      } else {
        assert GameIds[k] == "wait";
      }
    }
  }

  /** A list whose ids carry increasing sort orders and are all enabled is
      listed as it stands. */
  lemma ListingInOrder(r: RegistryState, category: string)
    requires category in r.categories
    requires var list := r.categories[category];
               forall k :: 0 <= k < |list| ==>
                 list[k] in r.info && r.info[list[k]].sortOrder == k + 1 && r.info[list[k]].enabled
    ensures ByCategory(r, category).0 == r
    ensures ByCategory(r, category).1 == r.categories[category]
  {
    var list := r.categories[category];
    var key := SortKey(r.info);
    assert forall k :: 0 <= k < |list| ==> key(list[k]) == k + 1;
    SortBySorted(list, key);
    assert r.categories[category := list] == r.categories;
    EnabledOnlyAll(list, r.info);
  }

  /** On a fresh registry, initialization files the four game actions in
      registration order, which is also their sort order, so the in-place sort
      of its final listing changes nothing and listing "game" returns all four
      in that order. */
  lemma GameListing()
    ensures GameActions(EmptyRegistry) == GameRegistered(EmptyRegistry)
    ensures var g := GameActions(EmptyRegistry);
              && g.categories["game"] == GameIds
              && ByCategory(g, "game").1 == GameIds
  {
    GameFiling();
    ListingInOrder(GameRegistered(EmptyRegistry), "game");
  }

  class ActionRegistry {
    var actions: map<string, Action>
    var actionInfo: map<string, ActionInfo>
    var categories: map<string, seq<string>>

    function State(): RegistryState
      reads this
    {
      RegistryState(actions, actionInfo, categories)
    }

    constructor ()
      ensures State() == EmptyRegistry && Linked(State())
    {
      actions, actionInfo, categories := map[], map[], map[];
    }

    /** register_action; creating the instance cannot fail for the four
        actions, so it always reports success. */
    method RegisterAction(id: string, a: Action, reg: Registration) returns (ok: bool)
      modifies this
      ensures ok && State() == RegisteredAsWritten(old(State()), id, a, reg)
    {
      var info := InfoFor(id, a, reg);
      var list := if reg.category in categories then categories[reg.category] else [];
      if id !in list {
        list := list + [id];
      }
      actions := actions[id := a];
      actionInfo := actionInfo[id := info];
      categories := categories[reg.category := list];
      return true;
    }

    method UnregisterAction(id: string) returns (ok: bool)
      requires actions.Keys == actionInfo.Keys
      modifies this
      ensures (ok, State()) == Unregistered(old(State()), id)
    {
      if id !in actions {
        return false;
      }
      var category := actionInfo[id].category;
      actions := actions - {id};
      actionInfo := actionInfo - {id};
      if category in categories && id in categories[category] {
        categories := categories[category := RemoveFirst(categories[category], id)];
      }
      return true;
    }

    method GetActionsByCategory(category: string) returns (ids: seq<string>)
      modifies this
      ensures actions == old(actions) && actionInfo == old(actionInfo)
      ensures categories == ByCategory(old(State()), category).0.categories
      ensures ids == ByCategory(old(State()), category).1
    {
      if category !in categories {
        return [];
      }
      var sorted := SortBy(categories[category], SortKey(actionInfo));
      categories := categories[category := sorted];
      ids := EnabledOnly(sorted, actionInfo);
    }

    method EnableAction(id: string) returns (ok: bool)
      modifies this
      ensures (ok, State()) == WithEnabled(old(State()), id, true)
    {
      if id !in actionInfo {
        return false;
      }
      actionInfo := actionInfo[id := actionInfo[id].(enabled := true)];
      return true;
    }

    method DisableAction(id: string) returns (ok: bool)
      modifies this
      ensures (ok, State()) == WithEnabled(old(State()), id, false)
    {
      if id !in actionInfo {
        return false;
      }
      actionInfo := actionInfo[id := actionInfo[id].(enabled := false)];
      return true;
    }

    function IsActionEnabled(id: string): (enabled: bool)
      reads this
      ensures enabled ==> id in actionInfo
    {
      IsEnabled(actionInfo, id)
    }

    function GetRegistryStats(): (st: RegistryStats)
      reads this
      ensures st == Stats(State())
      ensures st.totalActions == |actions| && st.categoriesCount == |categories|
      ensures st.categoryStats.Keys == categories.Keys
    {
      Stats(State())
    }

    function ValidateRegistry(): (issues: set<string>)
      reads this
      ensures issues == Issues(State())
    {
      Issues(State())
    }
  }

  /** execute_action_safely: an unknown id and a disabled id are refused with
      their messages and nothing runs; otherwise the registered action executes. */
  method ExecuteActionSafely(registry: ActionRegistry, id: string, c: CharacterStats, log: GameLog)
    returns (r: ActionResult)
    modifies c, c.health, c.mana, c.experience, c.inventory, log
    ensures id !in registry.actions ==>
              r == ActionResult(false, "未找到动作: " + id, map[], map[])
              && c.State() == old(c.State()) && log.entries == old(log.entries)
    ensures id in registry.actions && !registry.IsActionEnabled(id) ==>
              r == ActionResult(false, "动作已禁用: " + id, map[], map[])
              && c.State() == old(c.State()) && log.entries == old(log.entries)
    ensures id in registry.actions && registry.IsActionEnabled(id) ==>
              var o := Perform(registry.actions[id], old(c.State()));
              c.State() == o.after && r == o.result
              && log.entries == Logged(old(log.entries), log.maxEntries, o.logLine)
  {
    if id !in registry.actions {
      return ActionResult(false, "未找到动作: " + id, map[], map[]);
    }
    if !registry.IsActionEnabled(id) {
      return ActionResult(false, "动作已禁用: " + id, map[], map[]);
    }
    r := registry.actions[id].Execute(c, log);
  }
}

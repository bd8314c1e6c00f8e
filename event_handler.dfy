/** Game events. An EventHandler keeps, per event type, a list of listeners
    ordered by priority (highest first, registration order among equals), a
    bounded history of dispatched events and an on/off switch; dispatching
    records the event and asks every listener of its type to handle it. An
    AchievementTracker unlocks named achievements, each at most once. The
    callbacks are code the handler cannot see: whether a listener's callback
    raises is given to dispatch as the set of listener keys that do. */
module Events {
  import opened Builtins
  import opened Models
  import opened Sorting

  datatype EventType =
    | GameStart | GameOver | ActionExecuted | LevelUp | CharacterDied | PillObtained
    | MeditationStreak | ErrorOccurred | SaveGame | LoadGame | ResetGame
  {
    function Value(): string
    {
      match this
      case GameStart => "game_start"
      case GameOver => "game_over"
      case ActionExecuted => "action_executed"
      case LevelUp => "level_up"
      case CharacterDied => "character_died"
      case PillObtained => "pill_obtained"
      case MeditationStreak => "meditation_streak"
      case ErrorOccurred => "error_occurred"
      case SaveGame => "save_game"
      case LoadGame => "load_game"
      case ResetGame => "reset_game"
    }
  }

  const AllEventTypes: seq<EventType> :=
    [GameStart, GameOver, ActionExecuted, LevelUp, CharacterDied, PillObtained,
     MeditationStreak, ErrorOccurred, SaveGame, LoadGame, ResetGame]

  /** A value in an event's data dictionary. */
  datatype Datum = Number(n: int) | Text(s: string)

  /** A dispatched event; its timestamp is not modelled. */
  datatype GameEvent = GameEvent(eventType: EventType, data: map<string, Datum>, source: string)

  /** A listener. `key` stands for the object identity its id is made from. */
  datatype Listener = Listener(key: nat, priority: int, enabled: bool)

  const MaxHistory := 100

  function ListenerId(l: Listener): string
  {
    "listener_" + NatToString(l.key)
  }

  /** The sort key of register_listener: priority, reversed. */
  function ByPriority(): Listener -> int
  {
    (l: Listener) => -l.priority
  }

  datatype Handler = Handler(
    listeners: map<EventType, seq<Listener>>, history: seq<GameEvent>, enabled: bool, nextKey: nat)

  /** Every listener list is ordered by priority, highest first, and every
      listener key was handed out before `nextKey`. */
  ghost predicate HandlerValid(h: Handler)
  {
    && |h.history| <= MaxHistory
    && (forall t :: t in h.listeners ==> SortedBy(h.listeners[t], ByPriority()))
    && (forall t, i :: t in h.listeners && 0 <= i < |h.listeners[t]| ==> h.listeners[t][i].key < h.nextKey)
  }

  function ListenersOf(listeners: map<EventType, seq<Listener>>, t: EventType): seq<Listener>
  {
    if t in listeners then listeners[t] else []
  }

  /** register_listener: a new enabled listener joins the list of its type,
      which is then sorted by priority, highest first and stably; its id is
      returned. */
  function WithListener(h: Handler, t: EventType, priority: int): (Handler, string)
  {
    var l := Listener(h.nextKey, priority, true);
    var list := SortBy(ListenersOf(h.listeners, t) + [l], ByPriority());
    (h.(listeners := h.listeners[t := list], nextKey := h.nextKey + 1), ListenerId(l))
  }

  /** The listeners whose id is not `id`, in order. */
  function Without(list: seq<Listener>, id: string): (r: seq<Listener>)
    ensures |r| <= |list|
  {
    if list == [] then []
    else (if ListenerId(list[0]) != id then [list[0]] else []) + Without(list[1..], id)
  }

  /** unregister_listener: true, and the listener with that id gone, when the
      type has a list at all; false and no change otherwise. */
  function WithoutListener(h: Handler, t: EventType, id: string): (bool, Handler)
  {
    if t in h.listeners then (true, h.(listeners := h.listeners[t := Without(h.listeners[t], id)]))
    else (false, h)
  }

  /** handle_event: an enabled listener whose callback does not raise. */
  predicate Handles(l: Listener, raising: set<nat>)
  {
    l.enabled && l.key !in raising
  }

  predicate AnyHandles(list: seq<Listener>, raising: set<nat>)
  {
    exists i :: 0 <= i < |list| && Handles(list[i], raising)
  }

  /** dispatch_event: a disabled handler refuses with no change; otherwise the
      event is recorded and the answer is whether any listener of its type
      handled it. */
  function Dispatched(h: Handler, t: EventType, data: map<string, Datum>, source: string, raising: set<nat>): (bool, Handler)
  {
    if !h.enabled then (false, h)
    else (AnyHandles(ListenersOf(h.listeners, t), raising),
          h.(history := Appended(h.history, MaxHistory, GameEvent(t, data, source))))
  }

  /** The events of one type, in order. */
  function OfType(events: seq<GameEvent>, t: EventType): (r: seq<GameEvent>)
    ensures |r| <= |events|
  {
    if events == [] then []
    else (if events[0].eventType == t then [events[0]] else []) + OfType(events[1..], t)
  }

  /** get_event_history: the events of the given type (all without one), of
      which `events[-limit:]` when there are more than `limit`. */
  function EventHistory(history: seq<GameEvent>, filter: Option<EventType>, limit: int): seq<GameEvent>
  {
    var events := if filter.Some? then OfType(history, filter.value) else history;
    if |events| > limit then SliceFrom(events, -limit) else events
  }

  function TotalFrom(listeners: map<EventType, seq<Listener>>, types: seq<EventType>): nat
  {
    if types == [] then 0 else |ListenersOf(listeners, types[0])| + TotalFrom(listeners, types[1..])
  }

  /** get_listener_count: the listeners of one type, or of all types. */
  function ListenerCount(listeners: map<EventType, seq<Listener>>, t: Option<EventType>): nat
  {
    if t.Some? then |ListenersOf(listeners, t.value)| else TotalFrom(listeners, AllEventTypes)
  }

  // ----------------------------------------------------------- lemmas

  /** Registration keeps every list ordered by priority, highest first, and
      every key below `nextKey`. */
  lemma RegisterKeepsValid(h: Handler, t: EventType, priority: int)
    requires HandlerValid(h)
    ensures HandlerValid(WithListener(h, t, priority).0)
  {
    var l := Listener(h.nextKey, priority, true);
    var old_ := ListenersOf(h.listeners, t);
    var n := WithListener(h, t, priority).0;
    SortByIsSorted(old_ + [l], ByPriority());
    SortByIsPermutation(old_ + [l], ByPriority());
    forall i | 0 <= i < |n.listeners[t]| ensures n.listeners[t][i].key < n.nextKey {
      var x := n.listeners[t][i];
      assert x in multiset(old_ + [l]);
      assert x in old_ + [l];
    }
  }

  /** The new list holds the old listeners and the new one, and for each
      priority the listeners carrying it keep their registration order, the
      new one last: the sort is stable. */
  lemma RegisterIsStable(h: Handler, t: EventType, priority: int, v: int)
    ensures var (n, id) := WithListener(h, t, priority);
              var l := Listener(h.nextKey, priority, true);
              && id == ListenerId(l)
              && multiset(n.listeners[t]) == multiset(ListenersOf(h.listeners, t)) + multiset{l}
              && WithKey(n.listeners[t], ByPriority(), v)
                   == WithKey(ListenersOf(h.listeners, t), ByPriority(), v) + (if -priority == v then [l] else [])
  {
    var l := Listener(h.nextKey, priority, true);
    var old_ := ListenersOf(h.listeners, t);
    SortByIsPermutation(old_ + [l], ByPriority());
    SortByIsStable(old_ + [l], ByPriority(), v);
    WithKeyConcat(old_, [l], ByPriority(), v);
  }

  /** The filter keeps exactly the listeners whose id differs, in order. */
  lemma {:induction false} WithoutKeeps(list: seq<Listener>, id: string)
    ensures forall x :: x in Without(list, id) <==> x in list && ListenerId(x) != id
    ensures SortedBy(list, ByPriority()) ==> SortedBy(Without(list, id), ByPriority())
  {
    if list != [] {
      WithoutKeeps(list[1..], id);
      assert list == [list[0]] + list[1..];
      var r := Without(list, id);
      var rest := Without(list[1..], id);
      if SortedBy(list, ByPriority()) {
        assert SortedBy(list[1..], ByPriority());
        if ListenerId(list[0]) != id {
          forall i, j | 0 <= i < j < |r| ensures ByPriority()(r[i]) <= ByPriority()(r[j]) {
            if i == 0 {
              assert r[j] in list[1..];
            } else {
              assert r[i] == rest[i - 1] && r[j] == rest[j - 1];
            }
          }
        }
      }
    }
  }

  /** Unregistering answers whether the type has a list, keeps the handler
      valid, and leaves in that list exactly the listeners with another id. */
  lemma UnregisterKeeps(h: Handler, t: EventType, id: string)
    requires HandlerValid(h)
    ensures var (ok, n) := WithoutListener(h, t, id);
              && (ok <==> t in h.listeners)
              && (!ok ==> n == h)
              && HandlerValid(n)
              && (ok ==> forall x :: x in n.listeners[t] <==> x in h.listeners[t] && ListenerId(x) != id)
  {
    if t in h.listeners {
      WithoutKeeps(h.listeners[t], id);
      var n := WithoutListener(h, t, id).1;
      forall i | 0 <= i < |n.listeners[t]| ensures n.listeners[t][i].key < n.nextKey {
        assert n.listeners[t][i] in h.listeners[t];
      }
    }
  }

  /** A dispatch on a disabled handler answers false and records nothing; on an
      enabled one it answers whether a listener of the type handled the event,
      records the event as the newest and keeps the history bounded. */
  lemma DispatchRecords(h: Handler, t: EventType, data: map<string, Datum>, source: string, raising: set<nat>)
    requires HandlerValid(h)
    ensures var (handled, n) := Dispatched(h, t, data, source, raising);
              && (!h.enabled ==> !handled && n == h)
              && (h.enabled ==> (handled <==> exists l :: l in ListenersOf(h.listeners, t) && l.enabled && l.key !in raising))
              && (h.enabled ==> n.history[|n.history| - 1] == GameEvent(t, data, source))
              && n.listeners == h.listeners && HandlerValid(n)
  {
    AppendedEndsWith(h.history, MaxHistory, GameEvent(t, data, source));
  }

  /** The filter keeps exactly the events of the type, in order. */
  lemma {:induction false} OfTypeKeeps(events: seq<GameEvent>, t: EventType)
    ensures forall e :: e in OfType(events, t) <==> e in events && e.eventType == t
  {
    if events != [] {
      OfTypeKeeps(events[1..], t);
      assert events == [events[0]] + events[1..];
    }
  }

  /** With a positive limit the history query returns the newest `limit`
      matching events (all of them when fewer), oldest first. */
  lemma HistoryQuery(history: seq<GameEvent>, t: EventType, limit: int)
    requires limit > 0
    ensures var events := OfType(history, t);
              var r := EventHistory(history, Some(t), limit);
              && |r| == Min(limit, |events|)
              && r == events[|events| - |r|..]
              && forall e :: e in r ==> e in history && e.eventType == t
  {
    OfTypeKeeps(history, t);
  }

  /** The total over all types counts every listener list of the table. */
  lemma {:induction false} TotalFromSplit(listeners: map<EventType, seq<Listener>>, types: seq<EventType>, t: EventType, list: seq<Listener>)
    requires forall i, j :: 0 <= i < j < |types| ==> types[i] != types[j]
    ensures t in types ==>
              TotalFrom(listeners[t := list], types) + |ListenersOf(listeners, t)| == TotalFrom(listeners, types) + |list|
    ensures t !in types ==> TotalFrom(listeners[t := list], types) == TotalFrom(listeners, types)
  {
    if types != [] {
      TotalFromSplit(listeners, types[1..], t, list);
      if types[0] == t {
        assert t !in types[1..];
      }
    }
  }

  /** The list of all event types holds each type once. */
  lemma AllEventTypesListed(t: EventType)
    ensures t in AllEventTypes
    ensures forall i, j :: 0 <= i < j < |AllEventTypes| ==> AllEventTypes[i] != AllEventTypes[j]
  {
    match t
    case GameStart => assert AllEventTypes[0] == t;
    case GameOver => assert AllEventTypes[1] == t;
    case ActionExecuted => assert AllEventTypes[2] == t;
    case LevelUp => assert AllEventTypes[3] == t;
    case CharacterDied => assert AllEventTypes[4] == t;
    case PillObtained => assert AllEventTypes[5] == t;
    case MeditationStreak => assert AllEventTypes[6] == t;
    case ErrorOccurred => assert AllEventTypes[7] == t;
    case SaveGame => assert AllEventTypes[8] == t;
    case LoadGame => assert AllEventTypes[9] == t;
    case ResetGame => assert AllEventTypes[10] == t;
  }

  /** Registering a listener adds one to its type's count and to the total. */
  lemma RegisterCounts(h: Handler, t: EventType, priority: int)
    ensures var n := WithListener(h, t, priority).0;
              && ListenerCount(n.listeners, Some(t)) == ListenerCount(h.listeners, Some(t)) + 1
              && ListenerCount(n.listeners, None) == ListenerCount(h.listeners, None) + 1
  {
    var l := Listener(h.nextKey, priority, true);
    var list := SortBy(ListenersOf(h.listeners, t) + [l], ByPriority());
    AllEventTypesListed(t);
    TotalFromSplit(h.listeners, AllEventTypes, t, list);
  }

  // ----------------------------------------------------- achievements

  /** unlock_achievement: a locked (or unknown) achievement becomes unlocked
      and is announced; an unlocked one is left alone. */
  function Unlocked(achievements: map<string, bool>, id: string): (map<string, bool>, bool)
  {
    if id in achievements && achievements[id] then (achievements, false)
    else (achievements[id := true], true)
  }

  /** Unlocking is idempotent: the achievement is unlocked afterwards, only the
      first unlock announces it, and no other entry changes. */
  lemma UnlockIdempotent(achievements: map<string, bool>, id: string)
    ensures var (a, announced) := Unlocked(achievements, id);
              && id in a && a[id]
              && (announced <==> !(id in achievements && achievements[id]))
              && Unlocked(a, id) == (a, false)
              && (forall k :: k != id ==> (k in a <==> k in achievements) && (k in a ==> a[k] == achievements[k]))
  {
  }

  /** Handlers only ever unlock: what was unlocked stays unlocked. */
  ghost predicate Grows(before: map<string, bool>, after: map<string, bool>)
  {
    forall k :: k in before && before[k] ==> k in after && after[k]
  }

  lemma UnlockGrows(achievements: map<string, bool>, id: string)
    ensures Grows(achievements, Unlocked(achievements, id).0)
    ensures Unlocked(achievements, id).0.Keys == achievements.Keys + {id}
  {
  }

  // ---------------------------------------------------------- classes

  class EventHandler {
    var listeners: map<EventType, seq<Listener>>
    var eventHistory: seq<GameEvent>
    const maxHistory: int
    var enabled: bool
    /** The next object identity to hand out. */
    var nextKey: nat

    function Value(): Handler
      reads this
    {
      Handler(listeners, eventHistory, enabled, nextKey)
    }

    constructor ()
      ensures Value() == Handler(map[], [], true, 0) && maxHistory == MaxHistory
      ensures HandlerValid(Value())
    {
      listeners, eventHistory, enabled, nextKey := map[], [], true, 0;
      maxHistory := MaxHistory;
    }

    method RegisterListener(t: EventType, priority: int) returns (id: string)
      modifies this
      ensures (Value(), id) == WithListener(old(Value()), t, priority)
    {
      var listener := Listener(nextKey, priority, true);
      nextKey := nextKey + 1;
      var list := if t in listeners then listeners[t] else [];
      listeners := listeners[t := SortBy(list + [listener], ByPriority())];
      return ListenerId(listener);
    }

    method UnregisterListener(t: EventType, id: string) returns (ok: bool)
      modifies this
      ensures (ok, Value()) == WithoutListener(old(Value()), t, id)
    {
      if t !in listeners {
        return false;
      }
      listeners := listeners[t := Without(listeners[t], id)];
      return true;
    }

    method DispatchEvent(t: EventType, data: map<string, Datum>, source: string, raising: set<nat>)
      returns (handled: bool)
      requires maxHistory == MaxHistory
      modifies this
      ensures (handled, Value()) == Dispatched(old(Value()), t, data, source, raising)
    {
      if !enabled {
        return false;
      }
      AddToHistory(GameEvent(t, data, source));
      handled := false;
      if t in listeners {
        var list := listeners[t];
        for i := 0 to |list|
          invariant handled <==> exists j :: 0 <= j < i && Handles(list[j], raising)
        {
          if Handles(list[i], raising) {
            handled := true;
          }
        }
      }
    }

    method AddToHistory(event: GameEvent)
      modifies this
      ensures eventHistory == Appended(old(eventHistory), maxHistory, event)
      ensures listeners == old(listeners) && enabled == old(enabled) && nextKey == old(nextKey)
    {
      eventHistory := eventHistory + [event];
      if |eventHistory| > maxHistory {
        eventHistory := eventHistory[1..];
      }
    }

    function GetEventHistory(filter: Option<EventType>, limit: int): (events: seq<GameEvent>)
      reads this
      ensures events == EventHistory(eventHistory, filter, limit)
      ensures |events| <= |eventHistory|
      ensures filter.None? && limit > 0 ==> events == eventHistory[|eventHistory| - |events|..]
    {
      EventHistory(eventHistory, filter, limit)
    }

    method ClearHistory()
      modifies this
      ensures Value() == old(Value()).(history := [])
    {
      eventHistory := [];
    }

    method Enable()
      modifies this
      ensures Value() == old(Value()).(enabled := true)
    {
      enabled := true;
    }

    method Disable()
      modifies this
      ensures Value() == old(Value()).(enabled := false)
    {
      enabled := false;
    }

    function GetListenerCount(t: Option<EventType>): (n: nat)
      reads this
      ensures n == ListenerCount(listeners, t)
      ensures t.Some? ==> n == |ListenersOf(listeners, t.value)|
    {
      ListenerCount(listeners, t)
    }

    /** remove_all_listeners: one type's list emptied (the original raises
      KeyError for a type without a list), or every list dropped. */
    method RemoveAllListeners(t: Option<EventType>)
      requires t.Some? ==> t.value in listeners
      modifies this
      ensures Value() == old(Value()).(listeners := if t.Some? then old(listeners)[t.value := []] else map[])
    {
      if t.Some? {
        listeners := listeners[t.value := []];
      } else {
        listeners := map[];
      }
    }
  }

  class AchievementTracker {
    var achievements: map<string, bool>

    constructor ()
      ensures achievements == map[]
    {
      achievements := map[];
    }

    method UnlockAchievement(id: string) returns (announced: bool)
      modifies this
      ensures (achievements, announced) == Unlocked(old(achievements), id)
    {
      if !(id in achievements && achievements[id]) {
        achievements := achievements[id := true];
        return true;
      }
      return false;
    }

    /** _on_level_up, given the event's "new_level". */
    method OnLevelUp(newLevel: Option<string>)
      modifies this
      ensures achievements == if newLevel == Some("筑基期")
                              then Unlocked(old(achievements), "first_breakthrough").0
                              else old(achievements)
    {
      if newLevel == Some("筑基期") {
        var _ := UnlockAchievement("first_breakthrough");
      }
    }

    /** _on_meditation_streak, given the event's "streak" (0 when absent). */
    method OnMeditationStreak(streak: int)
      modifies this
      ensures var a := if streak >= 5 then Unlocked(old(achievements), "meditation_beginner").0 else old(achievements);
              achievements == if streak >= 10 then Unlocked(a, "meditation_master").0 else a
    {
      if streak >= 5 {
        var _ := UnlockAchievement("meditation_beginner");
      }
      if streak >= 10 {
        var _ := UnlockAchievement("meditation_master");
      }
    }

    method OnCharacterDied()
      modifies this
      ensures achievements == Unlocked(old(achievements), "first_death").0
    {
      var _ := UnlockAchievement("first_death");
    }

    /** _on_pill_obtained, given the event's "amount" (0 when absent). */
    method OnPillObtained(amount: int)
      modifies this
      ensures achievements == if amount >= 1 then Unlocked(old(achievements), "first_pill").0 else old(achievements)
    {
      if amount >= 1 {
        var _ := UnlockAchievement("first_pill");
      }
    }

    /** _on_action_executed, given the event's "action" and the character
        state's "total_actions" (defaults "" and 0). */
    method OnActionExecuted(action: string, totalActions: int)
      modifies this
      ensures var a1 := if totalActions == 1 then Unlocked(old(achievements), "first_action").0 else old(achievements);
              var a2 := if totalActions >= 10 then Unlocked(a1, "persistent_cultivator").0 else a1;
              achievements == if action == "修炼" && totalActions >= 5 then Unlocked(a2, "cultivation_enthusiast").0 else a2
    {
      if totalActions == 1 {
        var _ := UnlockAchievement("first_action");
      }
      if totalActions >= 10 {
        var _ := UnlockAchievement("persistent_cultivator");
      }
      if action == "修炼" && totalActions >= 5 {
        var _ := UnlockAchievement("cultivation_enthusiast");
      }
    }

    function GetAchievements(): map<string, bool>
      reads this
    {
      achievements
    }
  }
}

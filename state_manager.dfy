/** Saving and restoring game states. A StateManager keeps the current state
    dictionary and a bounded history of earlier ones, can step back and roll
    back, compares two states key by key and validates a state; a
    SnapshotManager keeps a bounded list of described snapshots. The
    dictionaries are values (`map`s, copied on every read and write in the
    original) and the managers are proved against functions on them. */
module States {
  import opened Builtins
  import opened Models

  /** What a state dictionary holds under a key: the character object, or any
      other value, standing in for the game log, the action table and the rest. */
  datatype StateValue = CharacterValue(character: CharacterState) | Data(text: string)

  type GameState = map<string, StateValue>

  const MaxHistorySize := 50

  /** The current state and the earlier states, oldest first. */
  datatype Manager = Manager(current: GameState, history: seq<GameState>)

  /** Only non-empty states are saved, and at most MaxHistorySize of them. */
  ghost predicate HistoryValid(m: Manager)
  {
    |m.history| <= MaxHistorySize && forall i :: 0 <= i < |m.history| ==> |m.history[i]| > 0
  }

  /** update_state: a non-empty current state goes to the history, then the
      new state becomes current. */
  function Updated(m: Manager, state: GameState): Manager
  {
    if |m.current| > 0 then Manager(state, Appended(m.history, MaxHistorySize, m.current))
    else Manager(state, m.history)
  }

  /** get_previous_state: `history[-steps]` when the history holds at least
      `steps` entries. A positive `steps` counts back from the newest entry;
      0 and negative values are Python indices from the front, which must
      exist (the original raises IndexError otherwise). */
  function StepsBack(history: seq<GameState>, steps: int): (r: Option<GameState>)
    requires steps > 0 || -steps < |history|
    ensures r.Some? <==> |history| >= steps
    ensures r.Some? && steps > 0 ==> r.value == history[|history| - steps]
    ensures steps <= 0 ==> r == Some(history[-steps])
  {
    if |history| >= steps then Some(history[if steps > 0 then |history| - steps else -steps]) else None
  }

  /** The history after rollback_state pops `steps` times, each pop only while
      entries remain. */
  function DropNewest(history: seq<GameState>, steps: int): (r: seq<GameState>)
    ensures |r| == |history| - Max(0, Min(steps, |history|))
    ensures r == history[..|r|]
  {
    if steps <= 0 then history else history[..|history| - Min(steps, |history|)]
  }

  /** rollback_state: when the state `steps` back exists and is non-empty, it
      becomes current and the newest `steps` entries go; otherwise nothing
      changes. */
  function RolledBack(m: Manager, steps: int): (bool, Manager)
    requires steps > 0 || -steps < |m.history|
  {
    var previous := StepsBack(m.history, steps);
    if previous.Some? && |previous.value| > 0 then (true, Manager(previous.value, DropNewest(m.history, steps)))
    else (false, m)
  }

  // ------------------------------------------------------------- diff

  /** A differing key: its value in the old state and in the new one, absent
      values being None (Python's `dict.get`). */
  datatype Change = Change(before: Option<StateValue>, after: Option<StateValue>)

  function Get(state: GameState, key: string): Option<StateValue>
  {
    if key in state then Some(state[key]) else None
  }

  /** get_state_diff over the keys in `keys`. */
  function DiffOver(before: GameState, after: GameState, keys: set<string>): map<string, Change>
  {
    map k | k in keys && Get(before, k) != Get(after, k) :: Change(Get(before, k), Get(after, k))
  }

  /** Comparing no keys finds no change. */
  lemma DiffOverNone(before: GameState, after: GameState)
    ensures DiffOver(before, after, {}) == map[]
  {
  }

  /** Taking one more key into the comparison adds its change, if any. */
  lemma DiffOverAdd(before: GameState, after: GameState, keys: set<string>, key: string)
    ensures DiffOver(before, after, keys + {key}) ==
              if Get(before, key) != Get(after, key)
              then DiffOver(before, after, keys)[key := Change(Get(before, key), Get(after, key))]
              else DiffOver(before, after, keys)
  {
  }

  /** get_state_diff: every key of either state whose values differ. */
  function Diff(before: GameState, after: GameState): map<string, Change>
  {
    DiffOver(before, after, before.Keys + after.Keys)
  }

  /** A state with the new value of each differing key written over it, a
      key whose new value is missing being removed. */
  function Patched(state: GameState, diff: map<string, Change>): GameState
  {
    map k | k in state.Keys + diff.Keys && (k in diff ==> diff[k].after.Some?) ::
      if k in diff then diff[k].after.value else state[k]
  }

  // ------------------------------------------------------- validation

  const RequiredFields: seq<string> := ["character", "game_log", "actions"]

  /** The range checks validate_state makes on the character's status summary. */
  predicate StatusInRange(status: StatusSummary)
  {
    && 0 <= status.hp <= status.maxHp
    && 0 <= status.mp <= status.maxMp
    && 1 <= status.talent <= 10
  }

  /** validate_state: the three required fields are present and, when the
      character is a character object, its hp, mp and talent are in range. */
  predicate ValidState(state: GameState)
  {
    && (forall i :: 0 <= i < |RequiredFields| ==> RequiredFields[i] in state)
    && (var character := Get(state, "character");
        character.Some? && character.value.CharacterValue? ==> StatusInRange(Summary(character.value.character)))
  }

  // -------------------------------------------------------- snapshots

  /** A snapshot keeps a copy of the state and its description; the creation
      time is not modelled. */
  datatype Snapshot = Snapshot(state: GameState, description: string)

  function Latest(snapshots: seq<Snapshot>): (r: Option<Snapshot>)
    ensures r.Some? <==> |snapshots| > 0
  {
    if snapshots == [] then None else Some(snapshots[|snapshots| - 1])
  }

  /** The first snapshot from index `i` on with the description. */
  function FirstFrom(snapshots: seq<Snapshot>, description: string, i: nat): Option<Snapshot>
    decreases |snapshots| - i
  {
    if i >= |snapshots| then None
    else if snapshots[i].description == description then Some(snapshots[i])
    else FirstFrom(snapshots, description, i + 1)
  }

  /** get_snapshot_by_description: the first snapshot in insertion order
      carrying the description. */
  function FirstWithDescription(snapshots: seq<Snapshot>, description: string): Option<Snapshot>
  {
    FirstFrom(snapshots, description, 0)
  }

  // ----------------------------------------------------------- lemmas

  /** Updating keeps the history bounded and free of empty states. */
  lemma UpdateKeepsValid(m: Manager, state: GameState)
    requires HistoryValid(m)
    ensures HistoryValid(Updated(m, state))
    ensures Updated(m, state).current == state
  {
    if |m.current| > 0 {
      var h := Appended(m.history, MaxHistorySize, m.current);
      AppendedKeepsNewest(m.history, MaxHistorySize, m.current);
      forall i | 0 <= i < |h| ensures |h[i]| > 0 {
        if |m.history| + 1 > MaxHistorySize {
          assert h[i] == (m.history + [m.current])[i + 1];
        } else {
          assert h[i] == (m.history + [m.current])[i];
        }
      }
    }
  }

  /** The state that was current before an update is one step back after it. */
  lemma UpdateSavesCurrent(m: Manager, state: GameState)
    requires |m.current| > 0
    ensures StepsBack(Updated(m, state).history, 1) == Some(m.current)
  {
    AppendedEndsWith(m.history, MaxHistorySize, m.current);
  }

  /** Rolling back one step undoes an update while the history has room. */
  lemma RollbackUndoesUpdate(m: Manager, state: GameState)
    requires |m.current| > 0 && |m.history| < MaxHistorySize
    ensures RolledBack(Updated(m, state), 1) == (true, m)
  {
    var h := Appended(m.history, MaxHistorySize, m.current);
    assert h == m.history + [m.current];
    assert DropNewest(h, 1) == m.history;
  }

  /** In a valid history, rollback succeeds exactly when the state `steps` back
      exists; it then keeps the history valid and, for a positive `steps`,
      removes exactly `steps` entries. */
  lemma RollbackSucceedsIff(m: Manager, steps: int)
    requires HistoryValid(m) && (steps > 0 || -steps < |m.history|)
    ensures var (ok, n) := RolledBack(m, steps);
              && (ok <==> |m.history| >= steps)
              && (ok ==> Some(n.current) == StepsBack(m.history, steps) && HistoryValid(n))
              && (ok && steps > 0 ==> |n.history| == |m.history| - steps)
              && (!ok ==> n == m)
  {
    if |m.history| >= steps {
      var i := if steps > 0 then |m.history| - steps else -steps;
      assert |m.history[i]| > 0;
      var n := RolledBack(m, steps).1;
      forall j | 0 <= j < |n.history| ensures |n.history[j]| > 0 {
        assert n.history[j] == m.history[j];
      }
    }
  }

  /** get_state_diff compares by value: the diff is empty exactly when the two
      states are equal. */
  lemma DiffEmptyIffEqual(before: GameState, after: GameState)
    ensures Diff(before, after) == map[] <==> before == after
  {
    if Diff(before, after) == map[] {
      forall k ensures (k in before <==> k in after) && (k in before ==> before[k] == after[k]) {
        if k in before || k in after {
          assert k !in Diff(before, after);
        }
      }
    }
  }

  /** Writing the diff's new values over the old state gives the new state. */
  lemma PatchRoundTrip(before: GameState, after: GameState)
    ensures Patched(before, Diff(before, after)) == after
  {
    var d := Diff(before, after);
    var p := Patched(before, d);
    forall k ensures (k in p <==> k in after) && (k in p ==> p[k] == after[k]) {
      if k in before || k in after {
        if Get(before, k) != Get(after, k) {
          assert k in d && d[k].after == Get(after, k);
        }
      }
    }
  }

  /** Comparing the other way round swaps the two sides of every change. */
  lemma DiffSwaps(before: GameState, after: GameState)
    ensures Diff(after, before).Keys == Diff(before, after).Keys
    ensures forall k :: k in Diff(after, before) ==>
              Diff(after, before)[k] == Change(Diff(before, after)[k].after, Diff(before, after)[k].before)
  {
    assert after.Keys + before.Keys == before.Keys + after.Keys;
  }

  /** A state missing a required field is invalid. */
  lemma MissingFieldInvalid(state: GameState, field: string)
    requires field in RequiredFields && field !in state
    ensures !ValidState(state)
  {
    var i :| 0 <= i < |RequiredFields| && RequiredFields[i] == field;
  }

  /** A consistent character passes the range checks. */
  lemma ConsistentCharacterValid(state: GameState, c: CharacterState)
    requires "game_log" in state && "actions" in state
    requires Consistent(c)
    ensures ValidState(state["character" := CharacterValue(c)])
  {
  }

  /** The latest snapshot after creating one is that snapshot, when the
      manager keeps any at all. */
  lemma LatestAfterCreate(snapshots: seq<Snapshot>, maxSnapshots: int, s: Snapshot)
    requires maxSnapshots > 0
    ensures Latest(Appended(snapshots, maxSnapshots, s)) == Some(s)
  {
    AppendedEndsWith(snapshots, maxSnapshots, s);
  }

  /** The search finds a snapshot with the description before which none has
      it, and finds nothing exactly when no snapshot has it. */
  lemma {:induction false} FirstFromFinds(snapshots: seq<Snapshot>, description: string, i: nat)
    requires i <= |snapshots|
    ensures var r := FirstFrom(snapshots, description, i);
              && (r.None? <==> forall j :: i <= j < |snapshots| ==> snapshots[j].description != description)
              && (r.Some? ==> exists j :: i <= j < |snapshots| && snapshots[j] == r.value
                                && r.value.description == description
                                && forall k :: i <= k < j ==> snapshots[k].description != description)
    decreases |snapshots| - i
  {
    if i < |snapshots| && snapshots[i].description != description {
      FirstFromFinds(snapshots, description, i + 1);
      var r := FirstFrom(snapshots, description, i);
      if r.Some? {
        var j :| i + 1 <= j < |snapshots| && snapshots[j] == r.value
                 && r.value.description == description
                 && forall k :: i + 1 <= k < j ==> snapshots[k].description != description;
        assert forall k :: i <= k < j ==> snapshots[k].description != description;
      }
    }
  }

  // ---------------------------------------------------------- classes

  class StateManager {
    var currentState: GameState
    var stateHistory: seq<GameState>
    const maxHistorySize: int

    function Value(): Manager
      reads this
    {
      Manager(currentState, stateHistory)
    }

    constructor ()
      ensures Value() == Manager(map[], []) && maxHistorySize == MaxHistorySize
      ensures HistoryValid(Value())
    {
      currentState := map[];
      stateHistory := [];
      maxHistorySize := MaxHistorySize;
    }

    method UpdateState(newState: GameState)
      requires maxHistorySize == MaxHistorySize
      modifies this
      ensures Value() == Updated(old(Value()), newState)
    {
      if |currentState| > 0 {
        AddToHistory(currentState);
      }
      currentState := newState;
    }

    function GetCurrentState(): GameState
      reads this
    {
      currentState
    }

    /** _add_to_history; the timestamp it records is not modelled. */
    method AddToHistory(state: GameState)
      modifies this
      ensures stateHistory == Appended(old(stateHistory), maxHistorySize, state)
      ensures currentState == old(currentState)
    {
      stateHistory := stateHistory + [state];
      if |stateHistory| > maxHistorySize {
        stateHistory := stateHistory[1..];
      }
    }

    function GetPreviousState(steps: int): (r: Option<GameState>)
      reads this
      requires steps > 0 || -steps < |stateHistory|
      ensures r == StepsBack(stateHistory, steps)
      ensures r.Some? && steps > 0 ==> r.value == stateHistory[|stateHistory| - steps]
    {
      StepsBack(stateHistory, steps)
    }

    method RollbackState(steps: int) returns (ok: bool)
      requires steps > 0 || -steps < |stateHistory|
      modifies this
      ensures (ok, Value()) == RolledBack(old(Value()), steps)
    {
      var previous := GetPreviousState(steps);
      if previous.None? || |previous.value| == 0 {
        return false;
      }
      currentState := previous.value;
      var i := 0;
      while i < steps
        invariant steps <= 0 ==> i == 0
        invariant steps > 0 ==> 0 <= i <= steps
        invariant stateHistory == DropNewest(old(stateHistory), i)
        invariant currentState == previous.value
      {
        if |stateHistory| > 0 {
          stateHistory := stateHistory[..|stateHistory| - 1];
        }
        i := i + 1;
      }
      assert stateHistory == DropNewest(old(stateHistory), steps);
      return true;
    }

    method ClearHistory()
      modifies this
      ensures stateHistory == [] && currentState == old(currentState)
    {
      stateHistory := [];
    }

    /** get_state_diff, key by key over the union of the keys. */
    method GetStateDiff(before: GameState, after: GameState) returns (diff: map<string, Change>)
      ensures diff == Diff(before, after)
    {
      var keys := before.Keys + after.Keys;
      var done: set<string> := {};
      diff := map[];
      DiffOverNone(before, after);
      while keys != {}
        invariant done + keys == before.Keys + after.Keys
        invariant diff == DiffOver(before, after, done)
        decreases |keys|
      {
        var key :| key in keys;
        var beforeValue, afterValue := Get(before, key), Get(after, key);
        DiffOverAdd(before, after, done, key);
        if beforeValue != afterValue {
          diff := diff[key := Change(beforeValue, afterValue)];
        }
        done := done + {key};
        keys := keys - {key};
      }
    }

    /** validate_state: the required fields in turn, then the character's ranges. */
    method ValidateState(state: GameState) returns (valid: bool)
      ensures valid == ValidState(state)
    {
      for i := 0 to |RequiredFields|
        invariant forall j :: 0 <= j < i ==> RequiredFields[j] in state
      {
        if RequiredFields[i] !in state {
          return false;
        }
      }
      assert RequiredFields[0] in state;
      var character := state["character"];
      if character.CharacterValue? {
        var status := Summary(character.character);
        if !(0 <= status.hp <= status.maxHp) || !(0 <= status.mp <= status.maxMp) {
          return false;
        }
        if status.talent < 1 || status.talent > 10 {
          return false;
        }
      }
      return true;
    }
  }

  class SnapshotManager {
    var snapshots: seq<Snapshot>
    const maxSnapshots: int

    constructor (maxSnapshots: int)
      ensures snapshots == [] && this.maxSnapshots == maxSnapshots
    {
      snapshots := [];
      this.maxSnapshots := maxSnapshots;
    }

    method CreateSnapshot(state: GameState, description: string)
      modifies this
      ensures snapshots == Appended(old(snapshots), maxSnapshots, Snapshot(state, description))
    {
      snapshots := snapshots + [Snapshot(state, description)];
      if |snapshots| > maxSnapshots {
        snapshots := snapshots[1..];
      }
    }

    function GetLatestSnapshot(): (r: Option<Snapshot>)
      reads this
      ensures r == Latest(snapshots)
      ensures r.Some? ==> r.value == snapshots[|snapshots| - 1]
    {
      Latest(snapshots)
    }

    method GetSnapshotByDescription(description: string) returns (r: Option<Snapshot>)
      ensures r == FirstWithDescription(snapshots, description)
    {
      for i := 0 to |snapshots|
        invariant FirstFrom(snapshots, description, i) == FirstWithDescription(snapshots, description)
      {
        if snapshots[i].description == description {
          return Some(snapshots[i]);
        }
      }
      return None;
    }

    method ClearSnapshots()
      modifies this
      ensures snapshots == []
    {
      snapshots := [];
    }
  }
}

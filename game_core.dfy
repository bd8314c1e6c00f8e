/** The turn engine. A GameCore holds the character, its log, the game-over
    flag, the difficulty and the dashboard `game_state`; a turn looks an action
    up by display name, executes it and then runs the game-over check. `Turn`
    says on values what execute_action does and the class is proved against it;
    GameStateManager is the bounded history kept beside the engine. */
module Core {
  import opened Builtins
  import opened Models
  import opened Actions
  import opened Rules

  /** GameLog() is created with its default capacity. */
  const LogCapacity := 100

  const DefaultName := "无名修士"
  const GameOverMessage := "游戏已结束"
  const DeathLine := "修炼失败，游戏结束。"
  const VictoryLine := "恭喜！你已成功飞升，达成完美结局！"

  /** The values _update_game_state copies into game_state. Its "character",
      "game_log" and "actions" entries are references to the live objects and
      are not repeated here. */
  datatype Dashboard = Dashboard(isGameOver: bool, difficulty: string,
                                 powerLevel: int, recommendation: Advice)

  /** A GameCore object as a value; before the first initialize_game there is
      no character and no log. */
  datatype Game = Game(character: Option<CharacterState>, log: seq<string>,
                       isGameOver: bool, difficulty: string, dashboard: Option<Dashboard>)

  /** What every turn keeps: the character invariants and the log bound. */
  ghost predicate GameConsistent(g: Game)
  {
    (g.character.Some? ==> Consistent(g.character.value)) && |g.log| <= LogCapacity
  }

  /** The dictionary every rejection returns. */
  function Failure(message: string): ActionResult
  {
    ActionResult(false, message, map[], map[])
  }

  function NotFoundMessage(name: string): string
  {
    "未找到动作: " + name
  }

  /** get_action_cost's dictionary for a cost. */
  function CostMap(c: Cost): map<string, int>
  {
    map["hp" := c.hp, "mp" := c.mp, "pills" := c.pills, "time" := c.time]
  }

  // ------------------------------------------------------------------ turn

  /** _update_game_state: a new dashboard from the character, with the flag as
      it stands at that moment; nothing happens without a character. */
  function Refreshed(g: Game): Game
    requires g.character.Some? ==> g.character.value.maxHp > 0 && g.character.value.maxMp > 0
  {
    match g.character
    case None => g
    case Some(s) =>
      g.(dashboard := Some(Dashboard(g.isGameOver, g.difficulty, PowerLevel(s), Recommendation(s))))
  }

  /** _check_game_over: death ends the game with the failure line, reaching
      Ascension with the victory line; otherwise nothing changes. */
  function CheckedForGameOver(g: Game): (n: Game)
    ensures n.character == g.character && n.difficulty == g.difficulty && n.dashboard == g.dashboard
    ensures n.isGameOver <==>
              g.isGameOver || (g.character.Some? &&
                               (!Alive(g.character.value) || g.character.value.exp.realm == Ascension))
  {
    match g.character
    case None => g
    case Some(s) =>
      if !Alive(s) then g.(isGameOver := true, log := Appended(g.log, LogCapacity, DeathLine))
      else if s.exp.realm == Ascension then
        g.(isGameOver := true, log := Appended(g.log, LogCapacity, VictoryLine))
      else g
  }

  /** A successful execution: the action is performed, its line logged, the
      dashboard refreshed and the game-over check run. */
  function Played(g: Game, a: Action): Game
    requires GameConsistent(g) && g.character.Some?
  {
    var s := g.character.value;
    var o := Perform(a, s);
    PerformKeepsConsistent(a, s);
    CheckedForGameOver(Refreshed(g.(character := Some(o.after),
                                    log := Logged(g.log, LogCapacity, o.logLine))))
  }

  /** execute_action on values: the game afterwards and the returned result.
      Three rejections come first (game over or no character, unknown name,
      ineligible action) and change nothing. */
  function Turn(g: Game, name: string): (res: (Game, ActionResult))
    requires GameConsistent(g)
    ensures res.0.difficulty == g.difficulty
    ensures g.isGameOver ==> res.0.isGameOver
  {
    if g.isGameOver || g.character.None? then (g, Failure(GameOverMessage))
    else
      match FindByName(Catalog, name)
      case None => (g, Failure(NotFoundMessage(name)))
      case Some(a) =>
        var s := g.character.value;
        if !a.CanExecute(s) then (g, Failure(a.FailureMessage(s)))
        else (Played(g, a), Perform(a, s).result)
  }

  /** The game after turns named in order. */
  function PlayAll(g: Game, names: seq<string>): Game
    requires GameConsistent(g)
    decreases |names|
  {
    if names == [] then g
    else
      TurnKeepsConsistent(g, names[0]);
      PlayAll(Turn(g, names[0]).0, names[1..])
  }

  /** simulate_action on values: the same three rejections, and otherwise the
      expected message and the action's cost, with no effects. */
  function Simulated(g: Game, name: string): (r: ActionResult)
    ensures r.effects == map[]
    ensures r.success <==> IsActionAvailable(g, name)
  {
    if g.isGameOver || g.character.None? then Failure(GameOverMessage)
    else
      match FindByName(Catalog, name)
      case None => Failure(NotFoundMessage(name))
      case Some(a) =>
        var s := g.character.value;
        if !a.CanExecute(s) then Failure(a.FailureMessage(s))
        else ActionResult(true, "预期执行: " + a.Name(), map[], CostMap(a.GetCost()))
  }

  /** is_action_available on values. */
  predicate IsActionAvailable(g: Game, name: string)
  {
    && !g.isGameOver && g.character.Some?
    && FindByName(Catalog, name).Some?
    && FindByName(Catalog, name).value.CanExecute(g.character.value)
  }

  /** The names of the first k actions of `actions` that can execute, in their order. */
  function ExecutableNames(actions: seq<Action>, s: CharacterState, k: nat): (names: seq<string>)
    requires k <= |actions|
    ensures |names| <= k
  {
    if k == 0 then []
    else ExecutableNames(actions, s, k - 1) + (if actions[k - 1].CanExecute(s) then [actions[k - 1].Name()] else [])
  }

  /** A name is listed exactly when one of the first k actions carrying it can
      execute. */
  lemma {:induction false} ExecutableNamesMembers(actions: seq<Action>, s: CharacterState, k: nat)
    requires k <= |actions|
    ensures forall i :: 0 <= i < k && actions[i].CanExecute(s) ==> actions[i].Name() in ExecutableNames(actions, s, k)
    ensures forall n :: n in ExecutableNames(actions, s, k) ==>
              exists i :: 0 <= i < k && actions[i].CanExecute(s) && actions[i].Name() == n
  {
    if k > 0 {
      ExecutableNamesMembers(actions, s, k - 1);
    }
  }

  /** get_available_actions on values: nothing once the game is over or before
      there is a character. */
  function AvailableActions(g: Game): seq<string>
  {
    if g.isGameOver || g.character.None? then [] else ExecutableNames(Catalog, g.character.value, |Catalog|)
  }

  /** The name initialize_game uses: `character_name or "无名修士"`. */
  function DisplayName(name: Option<string>): (r: string)
    ensures r != ""
  {
    if name.Some? && name.value != "" then name.value else DefaultName
  }

  function WelcomeLine(name: string): string
  {
    "欢迎来到极简修仙世界，" + name + "！"
  }

  function TalentLine(talent: int): string
  {
    "你的资质为 " + IntToString(talent) + "，开始你的修仙之旅。"
  }

  /** initialize_game on values: a new character with the difficulty's starting
      pills, a new log with the two opening lines, a dashboard refreshed while
      the old flag still stands, and then the flag cleared. */
  function Initialized(g: Game, name: Option<string>, difficulty: string, talent: int): (n: Game)
    ensures !n.isGameOver && n.difficulty == difficulty
    ensures n.character.Some? && n.character.value.name == DisplayName(name)
    ensures n.character.value.talent == talent && Alive(n.character.value)
    ensures n.log == [WelcomeLine(DisplayName(name)), TalentLine(talent)]
  {
    var s := WithDifficulty(NewCharacter(DisplayName(name), talent), difficulty);
    var log := Appended(Appended([], LogCapacity, WelcomeLine(DisplayName(name))),
                        LogCapacity, TalentLine(talent));
    Refreshed(Game(Some(s), log, g.isGameOver, difficulty, g.dashboard)).(isGameOver := false)
  }

  /** The difficulty reset_game passes on: `difficulty or self.difficulty`. */
  function ResetDifficulty(current: string, requested: Option<string>): (d: string)
    ensures requested.Some? && requested.value != "" ==> d == requested.value
    ensures requested.None? || requested == Some("") ==> d == current
  {
    if requested.Some? && requested.value != "" then requested.value else current
  }

  // ---------------------------------------------------------------- lemmas

  /** A turn keeps the character invariants and the log bound. */
  lemma {:induction false} TurnKeepsConsistent(g: Game, name: string)
    requires GameConsistent(g)
    ensures GameConsistent(Turn(g, name).0)
  {
    if !g.isGameOver && g.character.Some? {
      var found := FindByName(Catalog, name);
      if found.Some? && found.value.CanExecute(g.character.value) {
        var a, s := found.value, g.character.value;
        PerformKeepsConsistent(a, s);
        var o := Perform(a, s);
        var logged := Logged(g.log, LogCapacity, o.logLine);
        assert |logged| <= LogCapacity;
        var refreshed := Refreshed(g.(character := Some(o.after), log := logged));
        assert GameConsistent(refreshed);
      }
    }
  }

  /** A turn succeeds exactly when the game is running, the name is found and
      the action can execute; every other turn returns its rejection message
      with empty effects and costs and leaves the game as it was. */
  lemma {:induction false} RejectedTurnsChangeNothing(g: Game, name: string)
    requires GameConsistent(g)
    ensures var (after, r) := Turn(g, name);
              && (r.success <==> IsActionAvailable(g, name))
              && (!r.success ==> after == g && r.effects == map[] && r.costs == map[])
              && ((g.isGameOver || g.character.None?) ==> r.message == GameOverMessage)
              && (!g.isGameOver && g.character.Some? && FindByName(Catalog, name).None? ==>
                    r.message == NotFoundMessage(name))
              && (!r.success && !g.isGameOver && g.character.Some? && FindByName(Catalog, name).Some? ==>
                    r.message == FindByName(Catalog, name).value.FailureMessage(g.character.value))
  {
    if !g.isGameOver && g.character.Some? {
      var found := FindByName(Catalog, name);
      if found.Some? {
        FailureChangesNothing(found.value, g.character.value);
      }
    }
  }

  /** After a successful turn the character is the executed one, and the game
      is over exactly when it died or reached Ascension. The dashboard was
      refreshed before the check, so it still says the game is running. */
  lemma {:induction false} GameOverAfterSuccess(g: Game, name: string)
    requires GameConsistent(g) && IsActionAvailable(g, name)
    ensures var (after, r) := Turn(g, name);
            var s := Perform(FindByName(Catalog, name).value, g.character.value).after;
              && r.success && after.character == Some(s)
              && (after.isGameOver <==> !Alive(s) || s.exp.realm == Ascension)
              && after.dashboard.Some? && !after.dashboard.value.isGameOver
              && after.difficulty == g.difficulty
  {
    var a, s0 := FindByName(Catalog, name).value, g.character.value;
    FailureChangesNothing(a, s0);
    PerformKeepsConsistent(a, s0);
  }

  /** The game-over check appends the ending line when it ends the game and
      leaves the log alone otherwise. */
  lemma {:induction false} CheckedLastLine(g: Game)
    requires g.character.Some? && |g.log| > 0
    ensures var c := CheckedForGameOver(g); var s := g.character.value;
              && |c.log| > 0
              && c.log[|c.log| - 1] == (if !Alive(s) then DeathLine
                                        else if s.exp.realm == Ascension then VictoryLine
                                        else g.log[|g.log| - 1])
  {
    var s := g.character.value;
    if !Alive(s) {
      AppendedEndsWith(g.log, LogCapacity, DeathLine);
    } else if s.exp.realm == Ascension {
      AppendedEndsWith(g.log, LogCapacity, VictoryLine);
    }
  }

  /** The last log line of a successful execution is the ending line when the
      game ended, and the action's own message otherwise. */
  lemma {:induction false} PlayedLastLine(g: Game, a: Action)
    requires GameConsistent(g) && g.character.Some? && a.CanExecute(g.character.value)
    ensures var p := Played(g, a); var o := Perform(a, g.character.value);
              && |p.log| > 0
              && p.log[|p.log| - 1] ==
                   (if !Alive(o.after) then DeathLine
                    else if o.after.exp.realm == Ascension then VictoryLine
                    else o.result.message)
  {
    var s0 := g.character.value;
    SuccessLogsMessage(a, s0);
    PerformKeepsConsistent(a, s0);
    var o := Perform(a, s0);
    var logged := Appended(g.log, LogCapacity, o.result.message);
    AppendedEndsWith(g.log, LogCapacity, o.result.message);
    var refreshed := Refreshed(g.(character := Some(o.after), log := logged));
    CheckedLastLine(refreshed);
  }

  /** A turn whose action is available is that action's execution. */
  lemma TurnOnSuccess(g: Game, name: string)
    requires GameConsistent(g) && IsActionAvailable(g, name)
    ensures var a := FindByName(Catalog, name).value;
              Turn(g, name) == (Played(g, a), Perform(a, g.character.value).result)
  {
  }

  /** The last log line of a successful turn is the ending line when the game
      ended, and the action's own message otherwise. */
  lemma {:induction false} LastLineOfSuccess(g: Game, name: string)
    requires GameConsistent(g) && IsActionAvailable(g, name)
    ensures var (after, r) := Turn(g, name);
            var s := Perform(FindByName(Catalog, name).value, g.character.value).after;
              && |after.log| > 0
              && after.log[|after.log| - 1] ==
                   (if !Alive(s) then DeathLine
                    else if s.exp.realm == Ascension then VictoryLine
                    else r.message)
  {
    TurnOnSuccess(g, name);
    PlayedLastLine(g, FindByName(Catalog, name).value);
  }

  /** Game over is final: once the flag is set, any sequence of turns leaves the
      game exactly as it is. */
  lemma {:induction false} GameOverIsFinal(g: Game, names: seq<string>)
    requires GameConsistent(g) && g.isGameOver
    ensures PlayAll(g, names) == g
  {
    if names != [] {
      assert Turn(g, names[0]).0 == g;
      GameOverIsFinal(g, names[1..]);
    }
  }

  /** simulate_action agrees with execute_action: it succeeds on the same turns,
      rejects the others with the same result, and reports the action's cost. */
  lemma {:induction false} SimulationMatchesTurn(g: Game, name: string)
    requires GameConsistent(g)
    ensures var r := Simulated(g, name);
              && (r.success <==> Turn(g, name).1.success)
              && (!r.success ==> r == Turn(g, name).1)
              && (r.success ==> forall a: Action {:trigger a.Name()} :: a.Name() == name ==>
                    r.message == "预期执行: " + name && r.costs == CostMap(a.GetCost()))
  {
    RejectedTurnsChangeNothing(g, name);
    if Simulated(g, name).success {
      forall a: Action | a.Name() == name ensures FindByName(Catalog, name) == Some(a) {
        LookupByDisplayName(a);
      }
    }
  }

  /** The available list names exactly the actions is_action_available accepts. */
  lemma {:induction false} AvailableMeansExecutable(g: Game, name: string)
    ensures name in AvailableActions(g) <==> IsActionAvailable(g, name)
  {
    if !g.isGameOver && g.character.Some? {
      var s := g.character.value;
      ExecutableNamesMembers(Catalog, s, |Catalog|);
      if name in AvailableActions(g) {
        var j :| 0 <= j < |AvailableActions(g)| && AvailableActions(g)[j] == name;
        var i :| 0 <= i < |Catalog| && Catalog[i].CanExecute(s) && Catalog[i].Name() == name;
        LookupByDisplayName(Catalog[i]);
      }
      if IsActionAvailable(g, name) {
        var a := FindByName(Catalog, name).value;
        var i :| 0 <= i < |Catalog| && Catalog[i] == a;
        assert Catalog[i].CanExecute(s);
      }
    }
  }

  /** initialize_game starts a running game: the new character with the starting
      pills, the two opening lines and the chosen difficulty. The dashboard
      keeps the flag from before the call. */
  lemma {:induction false} InitializedStartsFresh(g: Game, name: Option<string>, difficulty: string, talent: int)
    requires 1 <= talent <= 10
    ensures var n := Initialized(g, name, difficulty, talent);
              && !n.isGameOver && n.difficulty == difficulty
              && n.character == Some(WithDifficulty(NewCharacter(DisplayName(name), talent), difficulty))
              && n.log == [WelcomeLine(DisplayName(name)), TalentLine(talent)]
              && n.dashboard.Some? && n.dashboard.value.isGameOver == g.isGameOver
              && GameConsistent(n)
  {
    NewCharacterConsistent(DisplayName(name), talent);
    assert Appended([], LogCapacity, WelcomeLine(DisplayName(name))) == [WelcomeLine(DisplayName(name))];
  }

  // ----------------------------------------------------------------- class

  class GameCore {
    var character: CharacterStats?
    var gameLog: GameLog?
    var gameState: Option<Dashboard>
    var isGameOver: bool
    var difficulty: string

    ghost function Repr(): set<object>
      reads this
    {
      {this} + (if character != null then character.Repr() else {})
      + (if gameLog != null then {gameLog} else {})
    }

    function Value(): Game
      reads this, Repr()
    {
      Game(if character != null then Some(character.State()) else None,
           if gameLog != null then gameLog.entries else [],
           isGameOver, difficulty, gameState)
    }

    ghost predicate Valid()
      reads this, Repr()
    {
      && (character == null <==> gameLog == null)
      && (gameLog != null ==> gameLog.maxEntries == LogCapacity)
      && GameConsistent(Value())
    }

    constructor ()
      ensures Valid() && Value() == Game(None, [], false, "normal", None)
    {
      character := null;
      gameLog := null;
      gameState := None;
      isGameOver := false;
      difficulty := "normal";
    }

    /** initialize_game. The talent is a parameter; the source draws it at random.
        No step can fail, so the call always reports success. */
    method InitializeGame(characterName: Option<string>, difficultyName: string, talent: int)
      returns (ok: bool)
      requires 1 <= talent <= 10
      modifies this
      ensures ok && Valid()
      ensures Value() == Initialized(old(Value()), characterName, difficultyName, talent)
    {
      InitializedStartsFresh(old(Value()), characterName, difficultyName, talent);
      difficulty := difficultyName;
      var c, log := NewGameObjects(characterName, difficultyName, talent);
      character, gameLog := c, log;
      UpdateGameState();
      isGameOver := false;
      return true;
    }

    /** The objects initialize_game creates, in its order: the character, its
        difficulty pills, the log and its two opening lines. */
    static method NewGameObjects(characterName: Option<string>, difficultyName: string, talent: int)
      returns (c: CharacterStats, log: GameLog)
      requires 1 <= talent <= 10
      ensures fresh(c.Repr()) && fresh(log)
      ensures c.State() == WithDifficulty(NewCharacter(DisplayName(characterName), talent), difficultyName)
      ensures log.maxEntries == LogCapacity
      ensures log.entries == Appended(Appended([], LogCapacity, WelcomeLine(DisplayName(characterName))),
                                      LogCapacity, TalentLine(talent))
    {
      var name := if characterName.Some? && characterName.value != "" then characterName.value
                  else DefaultName;
      c := new CharacterStats(name, talent);
      ApplyDifficultyToCharacter(c, difficultyName);
      log := new GameLog(LogCapacity);
      log.AddEntry(WelcomeLine(name));
      log.AddEntry(TalentLine(talent));
    }

    /** reset_game: a new game under the given difficulty, or the current one. */
    method ResetGame(characterName: Option<string>, difficultyName: Option<string>, talent: int)
      returns (ok: bool)
      requires 1 <= talent <= 10
      modifies this
      ensures ok && Valid()
      ensures Value() == Initialized(old(Value()), characterName,
                                     ResetDifficulty(old(difficulty), difficultyName), talent)
    {
      var d := if difficultyName.Some? && difficultyName.value != "" then difficultyName.value
               else difficulty;
      ok := InitializeGame(characterName, d, talent);
    }

    /** execute_action. */
    method ExecuteAction(name: string) returns (r: ActionResult)
      requires Valid()
      modifies Repr()
      ensures Valid() && character == old(character) && gameLog == old(gameLog)
      ensures (Value(), r) == Turn(old(Value()), name)
    {
      TurnKeepsConsistent(Value(), name);
      if isGameOver || character == null {
        return Failure(GameOverMessage);
      }
      var found := GetActionByName(name);
      if found.None? {
        return Failure(NotFoundMessage(name));
      }
      var action := found.value;
      if !action.CanExecute(character.State()) {
        return Failure(action.FailureMessage(character.State()));
      }
      PerformKeepsConsistent(action, character.State());
      r := action.Execute(character, gameLog);
      UpdateGameState();
      CheckGameOver();
    }

    /** _update_game_state. */
    method UpdateGameState()
      requires character != null ==> character.State().maxHp > 0 && character.State().maxMp > 0
      modifies this
      ensures character == old(character) && gameLog == old(gameLog)
      ensures Value() == Refreshed(old(Value()))
    {
      if character == null {
        return;
      }
      var s := character.State();
      gameState := Some(Dashboard(isGameOver, difficulty, PowerLevel(s), Recommendation(s)));
    }

    /** _check_game_over. */
    method CheckGameOver()
      requires character != null ==> gameLog != null && gameLog.maxEntries == LogCapacity
      modifies this, gameLog
      ensures character == old(character) && gameLog == old(gameLog)
      ensures gameLog != null ==> gameLog.maxEntries == old(gameLog.maxEntries)
      ensures Value() == CheckedForGameOver(old(Value()))
    {
      if character == null {
        return;
      }
      if !character.IsAlive() {
        isGameOver := true;
        gameLog.AddEntry(DeathLine);
      } else if character.experience.currentRealm == Ascension {
        isGameOver := true;
        gameLog.AddEntry(VictoryLine);
      }
    }

    /** get_available_actions: the catalog filtered by can_execute. */
    method GetAvailableActions() returns (names: seq<string>)
      requires Valid()
      ensures names == AvailableActions(Value())
    {
      if isGameOver || character == null {
        return [];
      }
      var s := character.State();
      names := [];
      var k := 0;
      while k < |Catalog|
        invariant 0 <= k <= |Catalog|
        invariant names == ExecutableNames(Catalog, s, k)
      {
        if Catalog[k].CanExecute(s) {
          names := names + [Catalog[k].Name()];
        }
        k := k + 1;
      }
    }

    /** is_action_available. */
    method IsActionAvailableNow(name: string) returns (available: bool)
      requires Valid()
      ensures available == IsActionAvailable(Value(), name)
      ensures available <==> name in AvailableActions(Value())
    {
      AvailableMeansExecutable(Value(), name);
      if isGameOver || character == null {
        return false;
      }
      var found := GetActionByName(name);
      if found.None? {
        return false;
      }
      return found.value.CanExecute(character.State());
    }

    /** simulate_action: execute_action's checks without executing anything. */
    method SimulateAction(name: string) returns (r: ActionResult)
      requires Valid()
      ensures r == Simulated(Value(), name)
    {
      if isGameOver || character == null {
        return Failure(GameOverMessage);
      }
      var found := GetActionByName(name);
      if found.None? {
        return Failure(NotFoundMessage(name));
      }
      var action := found.value;
      if !action.CanExecute(character.State()) {
        return Failure(action.FailureMessage(character.State()));
      }
      var cost := action.GetCost();
      return ActionResult(true, "预期执行: " + action.Name(), map[], CostMap(cost));
    }
  }

  // ------------------------------------------------------- catalog queries

  /** get_action_description: the description of the action with that display
      name, or "未知动作". */
  method GetActionDescription(name: string) returns (d: string)
    ensures FindByName(Catalog, name).None? ==> d == "未知动作"
    ensures forall a: Action {:trigger a.Name()} :: a.Name() == name ==> d == a.Description()
  {
    var found := GetActionByName(name);
    if found.None? {
      forall a: Action | a.Name() == name ensures false {
        LookupByDisplayName(a);
      }
      return "未知动作";
    }
    forall a: Action | a.Name() == name ensures a == found.value {
      LookupByDisplayName(a);
    }
    return found.value.Description();
  }

  /** get_action_cost: the cost dictionary of the action with that display
      name, or an empty one. */
  method GetActionCost(name: string) returns (costs: map<string, int>)
    ensures FindByName(Catalog, name).None? ==> costs == map[]
    ensures forall a: Action {:trigger a.Name()} :: a.Name() == name ==> costs == CostMap(a.GetCost())
  {
    var found := GetActionByName(name);
    if found.None? {
      forall a: Action | a.Name() == name ensures false {
        LookupByDisplayName(a);
      }
      return map[];
    }
    forall a: Action | a.Name() == name ensures a == found.value {
      LookupByDisplayName(a);
    }
    var cost := found.value.GetCost();
    return CostMap(cost);
  }

  // ---------------------------------------------------------------- history

  /** Python's index `-steps - 1`, counted from the end when negative. */
  function PreviousIndex(length: nat, steps: int): int
  {
    if -steps - 1 < 0 then length - steps - 1 else -steps - 1
  }

  /** get_previous_state: `history[-steps - 1]` when the history is longer than
      `steps`, else None. A negative `steps` indexes from the front, and the
      source fails when that runs past the end. */
  function PreviousState<T>(history: seq<T>, steps: int): (r: Option<T>)
    requires steps >= 0 || -steps - 1 < |history|
    ensures r.Some? <==> |history| > steps
    ensures r.Some? && steps >= 0 ==> r.value == history[|history| - 1 - steps]
    ensures r.Some? && steps < 0 ==> r.value == history[-steps - 1]
  {
    if |history| > steps then Some(history[PreviousIndex(|history|, steps)]) else None
  }

  /** A saved state is the most recent one, and each older state moves one step
      further back, while the history is below its bound. */
  lemma {:induction false} PreviousAfterSave<T>(history: seq<T>, maxHistory: int, state: T, steps: nat)
    requires |history| < maxHistory
    ensures PreviousState(Appended(history, maxHistory, state), 0) == Some(state)
    ensures PreviousState(Appended(history, maxHistory, state), steps + 1) == PreviousState(history, steps)
  {
    var h := Appended(history, maxHistory, state);
    assert h == history + [state];
    if |history| > steps {
      assert h[|h| - 1 - (steps + 1)] == history[|history| - 1 - steps];
    }
  }

  class GameStateManager<T> {
    var history: seq<T>
    const maxHistory: int

    constructor ()
      ensures history == [] && maxHistory == 100
    {
      history := [];
      maxHistory := 100;
    }

    /** save_state: a copy goes to the end; the oldest is dropped past the bound. */
    method SaveState(state: T)
      modifies this
      ensures history == Appended(old(history), maxHistory, state)
    {
      history := history + [state];
      if |history| > maxHistory {
        history := history[1..];
      }
    }

    function GetPreviousState(steps: int): (r: Option<T>)
      reads this
      requires steps >= 0 || -steps - 1 < |history|
      ensures r == PreviousState(history, steps)
      ensures r.Some? <==> |history| > steps
    {
      PreviousState(history, steps)
    }

    method ClearHistory()
      modifies this
      ensures history == []
    {
      history := [];
    }
  }
}

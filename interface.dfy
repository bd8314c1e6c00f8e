/** What the game state renderer turns the character, the actions and the log
    into for display: the character panel, the action buttons, the log tail,
    the status advice, text progress bars and the experience counter, plus the
    hit test of a UI component. Percentages are exact ratios. */
module Interface {
  import opened Builtins
  import opened Models
  import opened Actions
  import opened Rules

  const GameActionButton := "game_action"
  const JourneyStart := "开始你的修仙之旅..."
  const NotReady := "条件不足"

  // ---------------------------------------------------------- game log

  /** Each entry as the log panel shows it. */
  function Prefixed(entries: seq<string>): (r: seq<string>)
    ensures |r| == |entries|
  {
    seq(|entries|, i requires 0 <= i < |entries| => "> " + entries[i])
  }

  /** The entries format_game_log shows: `entries[-maxEntries:]` when there are
      more than `maxEntries`, else all of them. */
  function RecentLog(entries: seq<string>, maxEntries: int): seq<string>
  {
    if |entries| > maxEntries then SliceFrom(entries, -maxEntries) else entries
  }

  /** format_game_log: the opening line for an empty log, else the recent
      entries, each prefixed. */
  function GameLogLines(entries: seq<string>, maxEntries: int): (lines: seq<string>)
    ensures entries == [] ==> lines == [JourneyStart]
    ensures entries != [] && maxEntries > 0 ==> |lines| == Min(maxEntries, |entries|)
    ensures entries != [] ==>
              |lines| <= |entries| && forall i :: 0 <= i < |lines| ==> |lines[i]| >= 2 && lines[i][..2] == "> "
  {
    if entries == [] then [JourneyStart] else Prefixed(RecentLog(entries, maxEntries))
  }

  /** format_game_log, entry by entry. */
  method FormatGameLog(entries: seq<string>, maxEntries: int) returns (lines: seq<string>)
    ensures lines == GameLogLines(entries, maxEntries)
  {
    if entries == [] {
      return [JourneyStart];
    }
    var recent := if |entries| > maxEntries then SliceFrom(entries, -maxEntries) else entries;
    lines := [];
    for i := 0 to |recent|
      invariant lines == Prefixed(recent[..i])
    {
      lines := lines + ["> " + recent[i]];
    }
    assert recent[..|recent|] == recent;
  }

  /** With a positive limit the panel shows the newest `maxEntries` entries
      (all when fewer), oldest first, each prefixed; a limit of 0 or below
      keeps Python's slice meaning, and 0 shows the whole log. */
  lemma GameLogTail(entries: seq<string>, maxEntries: int)
    requires entries != []
    ensures var lines := GameLogLines(entries, maxEntries);
              && (maxEntries > 0 ==> |lines| == Min(maxEntries, |entries|))
              && (maxEntries == 0 ==> |lines| == |entries|)
              && forall i :: 0 <= i < |lines| ==> lines[i] == "> " + entries[|entries| - |lines| + i]
  {
  }

  // ----------------------------------------------------------- buttons

  datatype ButtonState = ButtonState(
    name: string, action: string, buttonType: string, enabled: bool, visible: bool, tooltip: string)

  /** The action's class name, lower-cased, with "action" removed. */
  function ClassKey(a: Action): string
  {
    match a
    case Meditate => "meditate"
    case ConsumePill => "consumepill"
    case Cultivate => "cultivate"
    case Wait => "wait"
  }

  /** The button of one action: enabled when it can execute and the character
      lives; the tooltip is its description or "条件不足". */
  function ButtonFor(a: Action, s: CharacterState): ButtonState
  {
    var can := a.CanExecute(s);
    ButtonState(a.Name(), ClassKey(a), GameActionButton, can && Alive(s), true,
                if can then a.Description() else NotReady)
  }

  function Buttons(actions: seq<Action>, s: CharacterState): (r: seq<ButtonState>)
    ensures |r| == |actions|
  {
    seq(|actions|, i requires 0 <= i < |actions| => ButtonFor(actions[i], s))
  }

  /** format_action_buttons, one button per action. */
  method FormatActionButtons(s: CharacterState, actions: seq<Action>) returns (buttons: seq<ButtonState>)
    ensures buttons == Buttons(actions, s)
  {
    buttons := [];
    for i := 0 to |actions|
      invariant buttons == Buttons(actions[..i], s)
    {
      buttons := buttons + [ButtonFor(actions[i], s)];
    }
    assert actions[..|actions|] == actions;
  }

  /** Every action gets a visible button in order; since each action already
      needs a living character, a button is enabled exactly when its action can
      execute, and then its tooltip is the action's description. */
  lemma ButtonsFollowEligibility(actions: seq<Action>, s: CharacterState)
    ensures var buttons := Buttons(actions, s);
              forall i :: 0 <= i < |actions| ==>
                && buttons[i].name == actions[i].Name() && buttons[i].visible
                && (buttons[i].enabled <==> actions[i].CanExecute(s))
                && buttons[i].tooltip == (if buttons[i].enabled then actions[i].Description() else NotReady)
  {
    forall i | 0 <= i < |actions| ensures actions[i].CanExecute(s) ==> Alive(s) {
      match actions[i]
      case Meditate =>
      case ConsumePill =>
      case Cultivate =>
      case Wait =>
    }
  }

  // ---------------------------------------------------- character panel

  datatype CharacterDisplayInfo = CharacterDisplayInfo(
    name: string, talent: int, realm: string, exp: int, expThreshold: Bound,
    hp: int, maxHp: int, mp: int, maxMp: int, pills: int, meditationStreak: int,
    hpPercentage: Ratio, mpPercentage: Ratio, expPercentage: Ratio)

  /** The realm_map of format_character_info: a realm by its display name,
      Qi Refining for any other name. */
  function RealmFromName(name: string): Realm
  {
    if name == "炼气期" then QiRefining
    else if name == "筑基期" then Foundation
    else if name == "结丹期" then CoreFormation
    else if name == "元婴期" then NascentSoul
    else if name == "化神期" then SpiritualTransformation
    else if name == "飞升" then Ascension
    else QiRefining
  }

  /** format_character_info: the status summary, the current realm's threshold
      and the three ratios (hp and mp over their maxima, progress over 100). */
  function CharacterInfo(s: CharacterState): (info: CharacterDisplayInfo)
    requires s.maxHp != 0 && s.maxMp != 0
    ensures info.name == s.name && info.talent == s.talent && info.pills == Pills(s)
    ensures info.hp == s.hp && info.maxHp == s.maxHp && info.mp == s.mp && info.maxMp == s.maxMp
    ensures info.hpPercentage == Ratio(s.hp, s.maxHp) && info.mpPercentage == Ratio(s.mp, s.maxMp)
  {
    var status := Summary(s);
    CharacterDisplayInfo(
      status.name, status.talent, status.realm, status.exp,
      GetRealmThreshold(RealmFromName(status.realm)),
      status.hp, status.maxHp, status.mp, status.maxMp, status.pills, status.meditationStreak,
      Ratio(status.hp, status.maxHp), Ratio(status.mp, status.maxMp),
      Ratio(status.expProgress.num, 100 * status.expProgress.den))
  }

  /** The name lookup inverts RealmName, so the panel shows the threshold of the
      character's own realm; any other name falls back to Qi Refining. */
  lemma CharacterInfoThreshold(s: CharacterState)
    requires s.maxHp != 0 && s.maxMp != 0
    ensures CharacterInfo(s).expThreshold == RealmThreshold(s.exp.realm)
    ensures CharacterInfo(s).realm == RealmName(s.exp.realm)
  {
    assert RealmFromName(RealmName(s.exp.realm)) == s.exp.realm by {
      match s.exp.realm
      case QiRefining =>
      case Foundation =>
      case CoreFormation =>
      case NascentSoul =>
      case SpiritualTransformation =>
      case Ascension =>
    }
  }

  lemma UnknownRealmNameFallsBack(name: string)
    requires forall r: Realm :: RealmName(r) != name
    ensures RealmFromName(name) == QiRefining
  {
    assert RealmName(QiRefining) != name && RealmName(Foundation) != name;
    assert RealmName(CoreFormation) != name && RealmName(NascentSoul) != name;
    assert RealmName(SpiritualTransformation) != name && RealmName(Ascension) != name;
  }

  /** format_status_recommendation: the restart advice for a dead character,
      else the rule engine's advice. */
  function StatusRecommendation(s: CharacterState): (text: string)
    requires s.maxHp > 0 && s.maxMp > 0
    ensures !Alive(s) ==> text == Restart.Text()
  {
    if !Alive(s) then "修炼失败，请重新开始" else Recommendation(s).Text()
  }

  /** The renderer's own death check says what the rule engine says. */
  lemma StatusRecommendationAgrees(s: CharacterState)
    requires s.maxHp > 0 && s.maxMp > 0
    ensures StatusRecommendation(s) == Recommendation(s).Text()
  {
    RecommendationCases(s);
  }

  // ------------------------------------------------------ progress bar

  /** `int(n / d)` for a positive d: the quotient truncated toward zero. */
  function TruncQuotient(n: int, d: int): int
    requires d > 0
  {
    if n >= 0 then n / d else -((-n) / d)
  }

  /** format_progress_bar: `width` light blocks when the maximum is not
      positive; otherwise int(current / maximum * width) full blocks, then
      light blocks for the rest of the width. */
  function ProgressBar(current: int, maximum: int, width: int): (bar: string)
    ensures forall i :: 0 <= i < |bar| ==> bar[i] == '█' || bar[i] == '░'
    ensures maximum <= 0 ==> |bar| == Max(0, width) && forall i :: 0 <= i < |bar| ==> bar[i] == '░'
  {
    if maximum <= 0 then Repeat('░', width)
    else
      var filled := TruncQuotient(current * width, maximum);
      Repeat('█', filled) + Repeat('░', width - filled)
  }

  /** For a value between 0 and the maximum the bar is exactly `width` long:
      `current * width / maximum` full blocks, rounded down, then light ones. */
  lemma ProgressBarShape(current: int, maximum: int, width: int)
    requires 0 <= current <= maximum && maximum > 0 && width >= 0
    ensures var bar := ProgressBar(current, maximum, width);
              var filled := current * width / maximum;
              && 0 <= filled <= width
              && |bar| == width
              && (forall i :: 0 <= i < filled ==> bar[i] == '█')
              && (forall i :: filled <= i < width ==> bar[i] == '░')
  {
    var filled := current * width / maximum;
    assert current * width <= maximum * width by {
      assert (maximum - current) * width >= 0;
    }
    DivBelow(current * width, maximum, width);
    var full, light := Repeat('█', filled), Repeat('░', width - filled);
    assert ProgressBar(current, maximum, width) == full + light;
  }

  /** n <= d * k gives n / d <= k for a positive d. */
  lemma DivBelow(n: int, d: int, k: int)
    requires d > 0 && 0 <= n <= d * k
    ensures 0 <= n / d <= k
  {
  }

  /** With no maximum the bar is all light blocks. */
  lemma EmptyBar(current: int, maximum: int, width: int)
    requires maximum <= 0 && width >= 0
    ensures |ProgressBar(current, maximum, width)| == width
    ensures forall i :: 0 <= i < width ==> ProgressBar(current, maximum, width)[i] == '░'
  {
  }

  // ------------------------------------------------- experience display

  /** str() of a realm threshold; Python prints float('inf') as "inf". */
  function BoundText(b: Bound): string
  {
    if b.Finite? then IntToString(b.n) else "inf"
  }

  /** The realm whose display name is `name`, searching the realms in
      declaration order from index `i`. */
  function RealmNamedFrom(name: string, i: nat): Option<Realm>
    decreases |Ladder| - i
  {
    if i >= |Ladder| then None
    else if RealmName(Ladder[i]) == name then Some(Ladder[i])
    else RealmNamedFrom(name, i + 1)
  }

  /** format_exp_display on the summary's "exp" and "realm": exp over the
      realm's threshold, or exp over "∞" when no realm has that name. */
  function ExpText(exp: int, realm: string): (text: string)
    ensures |text| > |IntToString(exp)| + 1
    ensures text[..|IntToString(exp)| + 1] == IntToString(exp) + "/"
  {
    var found := RealmNamedFrom(realm, 0);
    if found.Some? then IntToString(exp) + "/" + BoundText(GetRealmThreshold(found.value))
    else IntToString(exp) + "/∞"
  }

  /** format_exp_display: the realm looked up by a loop over the realms. */
  method FormatExpDisplay(s: CharacterState) returns (text: string)
    ensures text == ExpText(Summary(s).exp, Summary(s).realm)
  {
    var status := Summary(s);
    var found: Option<Realm> := None;
    var i := 0;
    while i < |Ladder|
      invariant 0 <= i <= |Ladder|
      invariant RealmNamedFrom(status.realm, 0) == RealmNamedFrom(status.realm, i)
    {
      if RealmName(Ladder[i]) == status.realm {
        found := Some(Ladder[i]);
        break;
      }
      i := i + 1;
    }
    if found.Some? {
      return IntToString(status.exp) + "/" + BoundText(GetRealmThreshold(found.value));
    }
    return IntToString(status.exp) + "/∞";
  }

  /** For any character the realm is found, so the display is its level
      experience over its realm's threshold: "inf" at Ascension, never "∞". */
  lemma ExpTextOfCharacter(s: CharacterState)
    ensures ExpText(Summary(s).exp, Summary(s).realm)
              == IntToString(s.exp.level) + "/" + BoundText(RealmThreshold(s.exp.realm))
  {
    var r := s.exp.realm;
    var i := RealmIndex(r);
    forall j | 0 <= j < i ensures RealmName(Ladder[j]) != RealmName(r) {
      RealmNameInjective(Ladder[j], r);
    }
    RealmNamedFromSkips(RealmName(r), 0, i);
  }

  lemma {:induction false} RealmNamedFromSkips(name: string, i: nat, k: nat)
    requires i <= k < |Ladder| && RealmName(Ladder[k]) == name
    requires forall j :: i <= j < k ==> RealmName(Ladder[j]) != name
    ensures RealmNamedFrom(name, i) == Some(Ladder[k])
    decreases k - i
  {
    if i < k {
      RealmNamedFromSkips(name, i + 1, k);
    }
  }

  // ------------------------------------------------------- hit testing

  /** is_point_inside: inside the component's rectangle, edges included. */
  predicate PointInside(px: int, py: int, pw: int, ph: int, x: int, y: int)
  {
    px <= x <= px + pw && py <= y <= py + ph
  }

  /** All four corners count as inside, the points one step beyond each edge
      do not, and moving the component and the point together does not change
      the answer. */
  lemma HitTestEdges(px: int, py: int, pw: int, ph: int, dx: int, dy: int, x: int, y: int)
    requires pw >= 0 && ph >= 0
    ensures PointInside(px, py, pw, ph, px, py) && PointInside(px, py, pw, ph, px + pw, py + ph)
    ensures PointInside(px, py, pw, ph, px + pw, py) && PointInside(px, py, pw, ph, px, py + ph)
    ensures !PointInside(px, py, pw, ph, px - 1, py) && !PointInside(px, py, pw, ph, px + pw + 1, py)
    ensures !PointInside(px, py, pw, ph, px, py - 1) && !PointInside(px, py, pw, ph, px, py + ph + 1)
    ensures PointInside(px + dx, py + dy, pw, ph, x + dx, y + dy) == PointInside(px, py, pw, ph, x, y)
  {
  }
}

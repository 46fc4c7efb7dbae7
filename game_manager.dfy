/**
 * The chapter-graph walker of the narrative game (Lab3/domain/game_manager.py).
 *
 * A story maps chapter names to chapters; the walk shows a chapter, reads
 * raw choices until one is in range, applies the chosen result's updates to
 * the player, decodes and runs the result's command, autosaves, and goes on
 * to the next chapter if the result names one. "ENDING" ends the game.
 *
 * The bodies of the five commands live in code this model does not contain,
 * so their effect on the player is the parameter `exec`.
 */
module Game {
  import opened Wrappers
  import opened Json
  import opened Players

  // ---------------------------------------------------------------------
  // The story file
  // ---------------------------------------------------------------------

  /** What choosing an option does: its text, stat/inventory updates, command and continuation. */
  datatype ChoiceResult = ChoiceResult(
    description: string,
    updates: seq<(string, Json)>,          // the `updates` dictionary, in its key order
    command: Option<map<string, Json>>,    // the `command` description, if any
    nextChapter: Option<Json>)             // the `next_chapter` value, if the key is present

  datatype Choice = Choice(text: string, result: ChoiceResult)

  datatype Chapter = Chapter(title: string, description: string, choices: seq<Choice>)

  type Story = map<string, Chapter>

  /** The chapter name that ends the game. */
  const Ending := "ENDING"

  /** The chapter `start_game` begins with. */
  const FirstChapter := "Chapter 1"

  // ---------------------------------------------------------------------
  // Commands
  // ---------------------------------------------------------------------

  datatype Strategy = Aggressive | Defensive | Balanced

  /** The five commands with the arguments their constructors receive. */
  datatype Command =
    | Search(itemsFound: Json)
    | Trade(item: Json, price: Json)
    | Fight(enemy: Json, enemyHp: Json, enemyAttack: Json, strategy: Strategy)
    | Rest(staminaGain: Json)
    | Hide(staminaLoss: Json, itemFound: Json)

  /** What a command description decodes to. */
  datatype Decoded =
    | Known(command: Command)
    | Unknown                  // an unrecognised `type` or `combat_type`
    | KeyMissing(key: string)  // a required key is absent (a KeyError)

  const SearchTag := JStr("search")
  const TradeTag := JStr("trade")
  const CombatTag := JStr("combat")
  const RestTag := JStr("rest")
  const HideTag := JStr("hide")

  const DefaultPrice := JInt(0)
  const DefaultEnemyHp := JInt(50)
  const DefaultEnemyAttack := JInt(10)
  const DefaultStaminaGain := JInt(10)
  const DefaultStaminaLoss := JInt(5)

  /** The `type` tag of each command. */
  function Tag(c: Command): Json {
    match c
    case Search(_) => SearchTag
    case Trade(_, _) => TradeTag
    case Fight(_, _, _, _) => CombatTag
    case Rest(_) => RestTag
    case Hide(_, _) => HideTag
  }

  /** The strategy a `combat_type` value names, if any. */
  function StrategyNamed(v: Json): Option<Strategy> {
    if v == JStr("aggressive") then Some(Aggressive)
    else if v == JStr("defensive") then Some(Defensive)
    else if v == JStr("balanced") then Some(Balanced)
    else None
  }

  /** The if/elif chain of `execute_choice` that turns a command description into a command. */
  function DecodeCommand(d: map<string, Json>): (r: Decoded)
    ensures r.KeyMissing? ==> r.key !in d
    ensures "type" !in d ==> r == KeyMissing("type")
    ensures r.Unknown? <==>
      && "type" in d
      && (d["type"] !in {SearchTag, TradeTag, CombatTag, RestTag, HideTag}
          || (d["type"] == CombatTag && "combat_type" in d && StrategyNamed(d["combat_type"]).None?))
    ensures r.Known? <==>
      && "type" in d
      && (|| (d["type"] == SearchTag && "items_found" in d)
          || (d["type"] == TradeTag && "item" in d)
          || (d["type"] == CombatTag && "combat_type" in d && StrategyNamed(d["combat_type"]).Some? && "enemy" in d)
          || d["type"] == RestTag
          || d["type"] == HideTag)
    ensures "type" in d && d["type"] == SearchTag && "items_found" !in d ==> r == KeyMissing("items_found")
    ensures "type" in d && d["type"] == TradeTag && "item" !in d ==> r == KeyMissing("item")
    ensures "type" in d && d["type"] == CombatTag && "combat_type" !in d ==> r == KeyMissing("combat_type")
    ensures "type" in d && d["type"] == CombatTag && "combat_type" in d && StrategyNamed(d["combat_type"]).Some? && "enemy" !in d
      ==> r == KeyMissing("enemy")
    ensures r.Known? ==> "type" in d && d["type"] == Tag(r.command)
    ensures r.Known? ==> match r.command
      case Search(items) => "items_found" in d && items == d["items_found"]
      case Trade(item, price) => "item" in d && item == d["item"] && price == Get(d, "price", DefaultPrice)
      case Fight(enemy, hp, attack, strategy) =>
        && "combat_type" in d && StrategyNamed(d["combat_type"]) == Some(strategy)
        && "enemy" in d && enemy == d["enemy"]
        && hp == Get(d, "enemy_hp", DefaultEnemyHp) && attack == Get(d, "enemy_attack", DefaultEnemyAttack)
      case Rest(gain) => gain == Get(d, "stamina_gain", DefaultStaminaGain)
      case Hide(loss, found) => loss == Get(d, "stamina_loss", DefaultStaminaLoss) && found == Get(d, "item_found")
  {
    if "type" !in d then KeyMissing("type")
    else
      var t := d["type"];
      if t == SearchTag then
        if "items_found" in d then Known(Search(d["items_found"])) else KeyMissing("items_found")
      else if t == TradeTag then
        if "item" in d then Known(Trade(d["item"], Get(d, "price", DefaultPrice))) else KeyMissing("item")
      else if t == CombatTag then
        if "combat_type" !in d then KeyMissing("combat_type")
        else match StrategyNamed(d["combat_type"])
          case None => Unknown
          case Some(strategy) =>
            if "enemy" in d then
              Known(Fight(d["enemy"], Get(d, "enemy_hp", DefaultEnemyHp), Get(d, "enemy_attack", DefaultEnemyAttack), strategy))
            else KeyMissing("enemy")
      else if t == RestTag then
        Known(Rest(Get(d, "stamina_gain", DefaultStaminaGain)))
      else if t == HideTag then
        Known(Hide(Get(d, "stamina_loss", DefaultStaminaLoss), Get(d, "item_found")))
      else Unknown
  }

  // ---------------------------------------------------------------------
  // Applying a result's updates
  // ---------------------------------------------------------------------

  /** Why a walk stops abnormally (a Python exception). */
  datatype GameError =
    | MissingKey(key: string)    // a required key of a command description is absent
    | BadOperand(key: string)    // a stat update whose value is not a number
    | MissingChapter(name: Json) // a chapter name the story does not contain
    | EndOfInput                 // the input ran out while a choice was awaited

  /** The vitals after some updates, and the error that interrupted them, if one did. */
  datatype Applied = Applied(vitals: Vitals, error: Option<GameError>)

  predicate IsItemKey(key: string) { key == "items" || key == "item" }

  /** The items an `item`/`items` value adds: each element of a list, or the value itself. */
  function ItemsOf(value: Json): seq<Json> {
    if value.JList? then value.elems else [value]
  }

  /** One entry of the updates loop. */
  function ApplyUpdate(v: Vitals, key: string, value: Json): (r: Applied)
    ensures IsItemKey(key) ==> r == Applied(v.(inventory := v.inventory + ItemsOf(value)), None)
    ensures !IsItemKey(key) && StatNamed(key).None? ==> r == Applied(v, None)
    ensures !IsItemKey(key) && StatNamed(key).Some? ==>
      var s := StatNamed(key).value;
      if value.JInt? then
        && r.error.None?
        && r.vitals.Get(s) == v.Get(s) + value.n
        && (forall t :: t != s ==> r.vitals.Get(t) == v.Get(t))
        && r.vitals.inventory == v.inventory
      else r == Applied(v, Some(BadOperand(key)))
  {
    if IsItemKey(key) then Applied(v.(inventory := v.inventory + ItemsOf(value)), None)
    else match StatNamed(key)
      case None => Applied(v, None)
      case Some(s) =>
        if value.JInt? then Applied(v.With(s, v.Get(s) + value.n), None)
        else Applied(v, Some(BadOperand(key)))
  }

  /** The items a sequence of updates adds, in order. */
  function AddedItems(updates: seq<(string, Json)>): seq<Json>
  {
    if updates == [] then []
    else
      var last := updates[|updates| - 1];
      AddedItems(updates[..|updates| - 1]) + (if IsItemKey(last.0) then ItemsOf(last.1) else [])
  }

  /** The updates loop of `execute_choice`, one entry after another; an error stops it. */
  function ApplyUpdates(v: Vitals, updates: seq<(string, Json)>): (r: Applied)
    ensures r.error.Some? ==> r.error.value.BadOperand? && StatNamed(r.error.value.key).Some?
    decreases |updates|
  {
    if updates == [] then Applied(v, None)
    else
      var prev := ApplyUpdates(v, updates[..|updates| - 1]);
      var last := updates[|updates| - 1];
      if prev.error.Some? then prev else ApplyUpdate(prev.vitals, last.0, last.1)
  }

  /** The updates only ever append to the inventory; when none fails, they append exactly the added items. */
  lemma {:induction false} UpdatesAppendItems(v: Vitals, updates: seq<(string, Json)>)
    ensures v.inventory <= ApplyUpdates(v, updates).vitals.inventory
    ensures ApplyUpdates(v, updates).error.None? ==>
      ApplyUpdates(v, updates).vitals.inventory == v.inventory + AddedItems(updates)
  {
    if updates != [] {
      UpdatesAppendItems(v, updates[..|updates| - 1]);
    }
  }

  /** Updates whose keys name neither an item key nor a stat change nothing. */
  lemma {:induction false} IgnoredKeysChangeNothing(v: Vitals, updates: seq<(string, Json)>)
    requires forall i :: 0 <= i < |updates| ==> !IsItemKey(updates[i].0) && StatNamed(updates[i].0).None?
    ensures ApplyUpdates(v, updates) == Applied(v, None)
  {
    if updates != [] {
      IgnoredKeysChangeNothing(v, updates[..|updates| - 1]);
    }
  }

  /** A stat that no update names keeps its value, whatever else the updates do. */
  lemma {:induction false} UnnamedStatUnchanged(v: Vitals, updates: seq<(string, Json)>, s: Stat)
    requires forall i :: 0 <= i < |updates| ==> updates[i].0 != StatName(s)
    ensures ApplyUpdates(v, updates).vitals.Get(s) == v.Get(s)
  {
    if updates != [] {
      UnnamedStatUnchanged(v, updates[..|updates| - 1], s);
    }
  }

  /** Updates applied one batch after another are the updates applied together. */
  lemma {:induction false} ApplyUpdatesAppend(v: Vitals, first: seq<(string, Json)>, second: seq<(string, Json)>)
    requires ApplyUpdates(v, first).error.None?
    ensures ApplyUpdates(v, first + second) == ApplyUpdates(ApplyUpdates(v, first).vitals, second)
    decreases |second|
  {
    if second == [] {
      assert first + second == first;
    } else {
      var all := first + second;
      var init := second[..|second| - 1];
      assert all[..|all| - 1] == first + init;
      assert all[|all| - 1] == second[|second| - 1];
      ApplyUpdatesAppend(v, first, init);
      var mid := ApplyUpdates(v, first + init);
      assert ApplyUpdates(v, all) == if mid.error.Some? then mid else ApplyUpdate(mid.vitals, all[|all| - 1].0, all[|all| - 1].1);
    }
  }

  /** Once an update fails, the rest of the updates are not applied. */
  lemma {:induction false} ErrorStopsUpdates(v: Vitals, updates: seq<(string, Json)>, k: nat)
    requires k <= |updates| && ApplyUpdates(v, updates[..k]).error.Some?
    ensures ApplyUpdates(v, updates) == ApplyUpdates(v, updates[..k])
    decreases |updates| - k
  {
    if k < |updates| {
      var n := |updates|;
      assert updates[..n - 1][..k] == updates[..k];
      ErrorStopsUpdates(v, updates[..n - 1], k);
    } else {
      assert updates[..k] == updates;
    }
  }

  /** Unlike `update_stat`, a story update is not clamped: it can drive a stat below zero. */
  lemma StoryUpdateIsNotClamped()
    ensures ApplyUpdates(FreshVitals, [("hp", JInt(-150))]).vitals.hp == -50
    ensures UpdatedStat(FreshVitals, "hp", -150).hp == 0
  {
    var u := [("hp", JInt(-150))];
    assert u[..0] == [];
  }

  // ---------------------------------------------------------------------
  // Executing a choice
  // ---------------------------------------------------------------------

  /** What `execute_choice` returns: the choice's result, `{}`, or an exception. */
  datatype ChoiceOutcome = Returned(result: ChoiceResult) | EmptyResult | Raised(error: GameError)

  /** `execute_choice` on values: the player's new vitals and the outcome. */
  function ChoiceStep(exec: (Command, Vitals) -> Vitals, v: Vitals, choice: Choice): (r: (Vitals, ChoiceOutcome))
    ensures r.1.Returned? ==> r.1.result == choice.result
  {
    var applied := ApplyUpdates(v, choice.result.updates);
    if applied.error.Some? then (applied.vitals, Raised(applied.error.value))
    else match choice.result.command
      case None => (applied.vitals, Returned(choice.result))
      case Some(d) => match DecodeCommand(d)
        case KeyMissing(k) => (applied.vitals, Raised(MissingKey(k)))
        case Unknown => (applied.vitals, EmptyResult)
        case Known(c) => (exec(c, applied.vitals), Returned(choice.result))
  }

  /**
   * The cases of `execute_choice`: the updates come first; an error stops
   * it; a recognised command runs exactly once on the updated player; an
   * unknown one yields the empty result and runs nothing.
   */
  lemma ChoiceStepCases(exec: (Command, Vitals) -> Vitals, v: Vitals, choice: Choice)
    ensures var r := ChoiceStep(exec, v, choice);
      var applied := ApplyUpdates(v, choice.result.updates);
      if applied.error.Some? then r == (applied.vitals, Raised(applied.error.value))
      else match choice.result.command
        case None => r == (applied.vitals, Returned(choice.result))
        case Some(d) => match DecodeCommand(d)
          case KeyMissing(k) => r == (applied.vitals, Raised(MissingKey(k)))
          case Unknown => r == (applied.vitals, EmptyResult)
          case Known(c) => r == (exec(c, applied.vitals), Returned(choice.result))
  {
  }

  /** With no command, the option returns its own result and the inventory gains exactly the items its updates add. */
  lemma NoCommandAddsItems(exec: (Command, Vitals) -> Vitals, v: Vitals, choice: Choice)
    requires choice.result.command.None?
    requires ApplyUpdates(v, choice.result.updates).error.None?
    ensures ChoiceStep(exec, v, choice).1 == Returned(choice.result)
    ensures ChoiceStep(exec, v, choice).0.inventory == v.inventory + AddedItems(choice.result.updates)
  {
    UpdatesAppendItems(v, choice.result.updates);
  }

  /** `result.get("next_chapter")` when it is truthy: where the walk goes next. */
  function NextChapter(out: ChoiceOutcome): (r: Option<Json>)
    ensures r.Some? <==> out.Returned? && out.result.nextChapter.Some? && Truthy(out.result.nextChapter.value)
    ensures r.Some? ==> r.value == out.result.nextChapter.value
  {
    if out.Returned? && out.result.nextChapter.Some? && Truthy(out.result.nextChapter.value)
    then out.result.nextChapter
    else None
  }

  /** An unknown command or combat type leaves no next chapter. */
  lemma UnknownCommandEndsWalk(exec: (Command, Vitals) -> Vitals, v: Vitals, choice: Choice)
    requires choice.result.command.Some? && DecodeCommand(choice.result.command.value).Unknown?
    requires ApplyUpdates(v, choice.result.updates).error.None?
    ensures ChoiceStep(exec, v, choice) == (ApplyUpdates(v, choice.result.updates).vitals, EmptyResult)
    ensures NextChapter(ChoiceStep(exec, v, choice).1).None?
  {
  }

  // ---------------------------------------------------------------------
  // Choosing an option
  // ---------------------------------------------------------------------

  /** A line of console input: a number, or text `int` rejects. */
  datatype RawInput = Number(n: int) | NotANumber

  /** The 0-based index a raw choice selects among `count` options, if it is in range. */
  function ChoiceIndex(raw: RawInput, count: nat): (r: Option<nat>)
    ensures r.Some? <==> raw.Number? && 1 <= raw.n <= count
    ensures r.Some? ==> r.value == raw.n - 1 && r.value < count
  {
    if raw.Number? && 0 <= raw.n - 1 < count then Some(raw.n - 1) else None
  }

  /** Whether no raw input of `inputs` selects one of `count` options. */
  predicate AllRejected(inputs: seq<RawInput>, count: nat) {
    forall j :: 0 <= j < |inputs| ==> ChoiceIndex(inputs[j], count).None?
  }

  /** The position of the first raw input that selects an option; those before it are re-prompted. */
  function FirstAccepted(inputs: seq<RawInput>, count: nat): (r: Option<nat>)
    ensures r.Some? ==> r.value < |inputs| && ChoiceIndex(inputs[r.value], count).Some?
    ensures r.Some? ==> AllRejected(inputs[..r.value], count)
    ensures r.None? ==> AllRejected(inputs, count)
    decreases |inputs|
  {
    if inputs == [] then None
    else if ChoiceIndex(inputs[0], count).Some? then Some(0)
    else match FirstAccepted(inputs[1..], count)
      case None => None
      case Some(k) =>
        assert inputs[..k + 1] == [inputs[0]] + inputs[1..][..k];
        Some(k + 1)
  }

  /** The re-prompt loop running out of input: when every input is rejected, none is accepted. */
  lemma NoneAccepted(inputs: seq<RawInput>, count: nat)
    requires AllRejected(inputs, count)
    ensures FirstAccepted(inputs, count).None?
  {
  }

  /** The re-prompt loop's exit: the first accepted input is at `i` when all before it are rejected. */
  lemma FirstAcceptedAt(inputs: seq<RawInput>, count: nat, i: nat)
    requires i < |inputs| && ChoiceIndex(inputs[i], count).Some?
    requires AllRejected(inputs[..i], count)
    ensures FirstAccepted(inputs, count) == Some(i)
  {
  }

  // ---------------------------------------------------------------------
  // The walk
  // ---------------------------------------------------------------------

  /** How a walk ends: at "ENDING", at a result with no next chapter, or by an error. */
  datatype Status = Ended | Stopped | Failed(error: GameError)

  /** The game manager's state as the walk changes it: the player, the current chapter, the autosaves. */
  datatype Session = Session(vitals: Vitals, current: Option<Chapter>, saves: seq<Snapshot>)

  /** One chapter of the walk: where the walk stops, or the state, chapter name and input it goes on with. */
  datatype Step =
    | Done(session: Session, status: Status)
    | Next(session: Session, name: Json, rest: seq<RawInput>)

  /**
   * The body of `play_chapter` for one chapter: re-prompt until an option is
   * chosen, execute it, autosave unless it raised, and name the next chapter.
   */
  function ChapterStep(exec: (Command, Vitals) -> Vitals, s: Session, chapter: Chapter, inputs: seq<RawInput>): (r: Step)
    ensures r.session.current == Some(chapter)
    ensures r.Done? ==> !r.status.Ended?
    ensures r.Done? && r.status.Failed? ==> r.session.saves == s.saves
    ensures !(r.Done? && r.status.Failed?) ==> |inputs| >= 1 && r.session.saves == s.saves + [SnapshotOf(r.session.vitals)]
    ensures r.Next? ==> |r.rest| < |inputs|
  {
    var s1 := s.(current := Some(chapter));
    match FirstAccepted(inputs, |chapter.choices|)
    case None => Done(s1, Failed(EndOfInput))
    case Some(k) =>
      var (v, out) := ChoiceStep(exec, s.vitals, chapter.choices[inputs[k].n - 1]);
      if out.Raised? then Done(s1.(vitals := v), Failed(out.error))
      else
        var s2 := Session(v, Some(chapter), s.saves + [SnapshotOf(v)]);
        match NextChapter(out)
        case None => Done(s2, Stopped)
        case Some(next) => Next(s2, next, inputs[k + 1..])
  }

  /** `play_chapter(name)` on values, reading choices from `inputs`. */
  function Walk(story: Story, exec: (Command, Vitals) -> Vitals, s: Session, name: Json, inputs: seq<RawInput>): (r: (Session, Status))
    ensures name == JStr(Ending) ==> r == (s, Ended)
    ensures name != JStr(Ending) && !(name.JStr? && name.s in story) ==> r == (s, Failed(MissingChapter(name)))
    ensures s.saves <= r.0.saves
    ensures |r.0.saves| - |s.saves| <= |inputs|
    decreases |inputs|
  {
    if name == JStr(Ending) then (s, Ended)
    else if !(name.JStr? && name.s in story) then (s, Failed(MissingChapter(name)))
    else match ChapterStep(exec, s, story[name.s], inputs)
      case Done(s', status) => (s', status)
      case Next(s', next, rest) => Walk(story, exec, s', next, rest)
  }

  /** A chapter step whose chosen option returns: one autosave of the new player, then `next_chapter` if it is truthy. */
  lemma ChapterStepChosen(exec: (Command, Vitals) -> Vitals, s: Session, chapter: Chapter, inputs: seq<RawInput>, k: nat)
    requires FirstAccepted(inputs, |chapter.choices|) == Some(k)
    requires !ChoiceStep(exec, s.vitals, chapter.choices[inputs[k].n - 1]).1.Raised?
    ensures var (v, out) := ChoiceStep(exec, s.vitals, chapter.choices[inputs[k].n - 1]);
      var s2 := Session(v, Some(chapter), s.saves + [SnapshotOf(v)]);
      ChapterStep(exec, s, chapter, inputs) ==
        if NextChapter(out).Some? then Next(s2, NextChapter(out).value, inputs[k + 1..]) else Done(s2, Stopped)
  {
  }

  /**
   * A recognised command runs once, on the player as the updates left it;
   * that player is what the autosave records, and the walk then follows the
   * option's own `next_chapter`.
   */
  lemma KnownCommandIsAutosaved(exec: (Command, Vitals) -> Vitals, s: Session, chapter: Chapter, inputs: seq<RawInput>, k: nat, c: Command)
    requires FirstAccepted(inputs, |chapter.choices|) == Some(k)
    requires ApplyUpdates(s.vitals, chapter.choices[inputs[k].n - 1].result.updates).error.None?
    requires chapter.choices[inputs[k].n - 1].result.command.Some?
    requires DecodeCommand(chapter.choices[inputs[k].n - 1].result.command.value) == Known(c)
    ensures var result := chapter.choices[inputs[k].n - 1].result;
      var after := exec(c, ApplyUpdates(s.vitals, result.updates).vitals);
      var step := ChapterStep(exec, s, chapter, inputs);
      && step.session == Session(after, Some(chapter), s.saves + [SnapshotOf(after)])
      && (step.Next? <==> result.nextChapter.Some? && Truthy(result.nextChapter.value))
      && (step.Next? ==> step.name == result.nextChapter.value && step.rest == inputs[k + 1..])
  {
    ChoiceStepCases(exec, s.vitals, chapter.choices[inputs[k].n - 1]);
    ChapterStepChosen(exec, s, chapter, inputs, k);
  }

  /** `play_chapter` on a chapter that exists: the chapter's step, then the walk from where it leads. */
  lemma WalkUnfolds(story: Story, exec: (Command, Vitals) -> Vitals, s: Session, name: string, inputs: seq<RawInput>)
    requires name != Ending && name in story
    ensures match ChapterStep(exec, s, story[name], inputs)
      case Done(s', status) => Walk(story, exec, s, JStr(name), inputs) == (s', status)
      case Next(s', next, rest) => Walk(story, exec, s, JStr(name), inputs) == Walk(story, exec, s', next, rest)
  {
  }

  /** A rejected input is re-prompted within one chapter: the step is the same without it. */
  lemma RejectedInputStep(exec: (Command, Vitals) -> Vitals, s: Session, chapter: Chapter, bad: RawInput, inputs: seq<RawInput>)
    requires ChoiceIndex(bad, |chapter.choices|).None?
    ensures ChapterStep(exec, s, chapter, [bad] + inputs) == ChapterStep(exec, s, chapter, inputs)
  {
    var all := [bad] + inputs;
    assert all[1..] == inputs;
    match FirstAccepted(inputs, |chapter.choices|) {
      case None =>
        assert FirstAccepted(all, |chapter.choices|).None?;
      case Some(k) =>
        assert FirstAccepted(all, |chapter.choices|) == Some(k + 1);
        assert all[k + 1] == inputs[k];
        assert all[k + 2..] == inputs[k + 1..];
    }
  }

  /** An input that selects no option is re-prompted: dropping it changes neither the final state nor the outcome. */
  lemma RejectedInputIsSkipped(story: Story, exec: (Command, Vitals) -> Vitals, s: Session, name: string, bad: RawInput, inputs: seq<RawInput>)
    requires name != Ending && name in story
    requires ChoiceIndex(bad, |story[name].choices|).None?
    ensures Walk(story, exec, s, JStr(name), [bad] + inputs) == Walk(story, exec, s, JStr(name), inputs)
  {
    RejectedInputStep(exec, s, story[name], bad, inputs);
    WalkUnfolds(story, exec, s, name, [bad] + inputs);
    WalkUnfolds(story, exec, s, name, inputs);
  }

  /** After a chosen option returns, the walk goes on to `next_chapter` if it is present and truthy, and stops otherwise. */
  lemma ContinuesIffNextChapter(story: Story, exec: (Command, Vitals) -> Vitals, s: Session, name: string, inputs: seq<RawInput>, k: nat)
    requires name != Ending && name in story
    requires FirstAccepted(inputs, |story[name].choices|) == Some(k)
    requires !ChoiceStep(exec, s.vitals, story[name].choices[inputs[k].n - 1]).1.Raised?
    ensures var (v, out) := ChoiceStep(exec, s.vitals, story[name].choices[inputs[k].n - 1]);
      var s2 := Session(v, Some(story[name]), s.saves + [SnapshotOf(v)]);
      match NextChapter(out)
      case None => Walk(story, exec, s, JStr(name), inputs) == (s2, Stopped)
      case Some(next) => Walk(story, exec, s, JStr(name), inputs) == Walk(story, exec, s2, next, inputs[k + 1..])
  {
  }

  /** Reaching "ENDING" changes nothing and reads no input. */
  lemma EndingTerminatesImmediately(story: Story, exec: (Command, Vitals) -> Vitals, s: Session, inputs: seq<RawInput>)
    ensures Walk(story, exec, s, JStr(Ending), inputs) == (s, Ended)
  {
  }

  /** Whether the last autosave, if there is one, is a snapshot of the current player. */
  predicate SavedLast(s: Session) {
    s.saves != [] ==> s.saves[|s.saves| - 1] == SnapshotOf(s.vitals)
  }

  /** When a walk ends normally, its last autosave is a snapshot of the final player. */
  lemma {:induction false} LastSaveIsFinalPlayer(story: Story, exec: (Command, Vitals) -> Vitals, s: Session, name: Json, inputs: seq<RawInput>)
    requires SavedLast(s)
    ensures !Walk(story, exec, s, name, inputs).1.Failed? ==> SavedLast(Walk(story, exec, s, name, inputs).0)
    decreases |inputs|
  {
    if name != JStr(Ending) && name.JStr? && name.s in story {
      var step := ChapterStep(exec, s, story[name.s], inputs);
      match step
      case Done(s', status) =>
        assert Walk(story, exec, s, name, inputs) == (s', status);
      case Next(s', next, rest) =>
        LastSaveIsFinalPlayer(story, exec, s', next, rest);
        assert Walk(story, exec, s, name, inputs) == Walk(story, exec, s', next, rest);
    }
  }

  /** "ENDING" is a truthy `next_chapter` value, so a result naming it is followed. */
  lemma EndingIsTruthy()
    ensures Truthy(JStr(Ending))
  {
    assert Ending[0] == 'E';
  }

  /** Choosing the only option of a chapter, one with no updates and no command that names "ENDING", autosaves once and goes there. */
  lemma OnlyOptionToEnding(exec: (Command, Vitals) -> Vitals, s: Session, chapter: Chapter)
    requires |chapter.choices| == 1
    requires chapter.choices[0].result.updates == [] && chapter.choices[0].result.command.None?
    requires chapter.choices[0].result.nextChapter == Some(JStr(Ending))
    ensures ChapterStep(exec, s, chapter, [Number(1)])
      == Next(Session(s.vitals, Some(chapter), s.saves + [SnapshotOf(s.vitals)]), JStr(Ending), [])
  {
    var result := chapter.choices[0].result;
    assert ApplyUpdates(s.vitals, []) == Applied(s.vitals, None);
    assert ChoiceStep(exec, s.vitals, chapter.choices[0]) == (s.vitals, Returned(result));
    assert FirstAccepted([Number(1)], 1) == Some(0);
    EndingIsTruthy();
    assert NextChapter(Returned(result)) == Some(JStr(Ending));
    assert [Number(1)][0 + 1..] == [];
  }

  /** A first chapter whose first option leads to "ENDING" ends the game after one choice and one autosave. */
  lemma OneChoiceToEnding(exec: (Command, Vitals) -> Vitals, v: Vitals, title: string, description: string, text: string, outcome: string)
    ensures var result := ChoiceResult(outcome, [], None, Some(JStr(Ending)));
      var chapter := Chapter(title, description, [Choice(text, result)]);
      var story := map[FirstChapter := chapter];
      Walk(story, exec, Session(v, None, []), JStr(FirstChapter), [NotANumber, Number(2), Number(1)])
        == (Session(v, Some(chapter), [SnapshotOf(v)]), Ended)
  {
    var result := ChoiceResult(outcome, [], None, Some(JStr(Ending)));
    var chapter := Chapter(title, description, [Choice(text, result)]);
    var story := map[FirstChapter := chapter];
    var start := Session(v, None, []);
    assert FirstChapter != Ending by {
      assert FirstChapter[0] != Ending[0];
    }
    assert [NotANumber, Number(2), Number(1)] == [NotANumber] + [Number(2), Number(1)];
    assert [Number(2), Number(1)] == [Number(2)] + [Number(1)];
    RejectedInputIsSkipped(story, exec, start, FirstChapter, NotANumber, [Number(2), Number(1)]);
    RejectedInputIsSkipped(story, exec, start, FirstChapter, Number(2), [Number(1)]);
    OnlyOptionToEnding(exec, start, chapter);
    assert [] + [SnapshotOf(v)] == [SnapshotOf(v)];
    WalkUnfolds(story, exec, start, FirstChapter, [Number(1)]);
    EndingTerminatesImmediately(story, exec, Session(v, Some(chapter), [SnapshotOf(v)]), []);
  }

  /** What `GameManager.__init__` gives the player: the saved one if it loads, else a new one. */
  function InitialVitals(saved: Option<Snapshot>): (v: Vitals)
    ensures saved.None? ==> v == FreshVitals
    ensures saved.Some? && FromSnapshot(saved.value).Success? ==> v == FromSnapshot(saved.value).value
    ensures saved.Some? && FromSnapshot(saved.value).Failure? ==> v == FreshVitals
  {
    if saved.Some? && FromSnapshot(saved.value).Success? then FromSnapshot(saved.value).value else FreshVitals
  }

  // ---------------------------------------------------------------------
  // The game manager object
  // ---------------------------------------------------------------------

  class GameManager {
    const player: Player
    /** The effect of running a command on the player (`command.execute(player)`). */
    const exec: (Command, Vitals) -> Vitals
    var storyData: Story
    var currentChapter: Option<Chapter>
    /** The snapshots the autosave has written, oldest first. */
    var autosaves: seq<Snapshot>

    function SessionState(): Session
      reads this, player
    {
      Session(player.State(), currentChapter, autosaves)
    }

    /** `GameManager(...)`: `saved` is what reading the save file gave, `None` if it could not be read. */
    constructor (saved: Option<Snapshot>, exec: (Command, Vitals) -> Vitals)
      ensures fresh(player)
      ensures player.State() == InitialVitals(saved)
      ensures this.exec == exec && storyData == map[] && currentChapter == None && autosaves == []
    {
      var p: Player;
      if saved.None? {
        p := new Player();
      } else {
        var loaded := Player.Load(saved.value);
        if loaded.Success? {
          p := loaded.value;
        } else {
          p := new Player();
        }
      }
      player := p;
      this.exec := exec;
      storyData := map[];
      currentChapter := None;
      autosaves := [];
    }

    /** `load_story`: `story` is what the story file holds. */
    method LoadStory(story: Story)
      modifies this
      ensures storyData == story
      ensures currentChapter == old(currentChapter) && autosaves == old(autosaves)
    {
      storyData := story;
    }

    /** `start_game`: load the story and play from the first chapter. */
    method StartGame(story: Story, inputs: seq<RawInput>) returns (status: Status)
      modifies this, player
      ensures storyData == story
      ensures (SessionState(), status) == Walk(story, exec, old(SessionState()), JStr(FirstChapter), inputs)
    {
      LoadStory(story);
      status := PlayChapter(JStr(FirstChapter), inputs);
    }

    /** `play_chapter`: play chapter `name` and, through the chosen result, the chapters after it. */
    method PlayChapter(name: Json, inputs: seq<RawInput>) returns (status: Status)
      modifies this, player
      ensures storyData == old(storyData)
      ensures (SessionState(), status) == Walk(storyData, exec, old(SessionState()), name, inputs)
      decreases |inputs|
    {
      if name == JStr(Ending) {
        return Ended;
      }
      if !(name.JStr? && name.s in storyData) {
        return Failed(MissingChapter(name));
      }
      var step := PlayStep(storyData[name.s], inputs);
      match step
      case Done(_, result) =>
        status := result;
      case Next(_, next, rest) =>
        status := PlayChapter(next, rest);
    }

    /** One chapter of `play_chapter`: show it, read choices until one is in range, execute it, autosave. */
    method PlayStep(chapter: Chapter, inputs: seq<RawInput>) returns (step: Step)
      modifies this, player
      ensures storyData == old(storyData)
      ensures step == ChapterStep(exec, old(SessionState()), chapter, inputs)
      ensures SessionState() == step.session
    {
      currentChapter := Some(chapter);
      var count := |chapter.choices|;
      // re-prompt until an option is chosen
      var i := 0;
      while i < |inputs| && ChoiceIndex(inputs[i], count).None?
        invariant i <= |inputs|
        invariant AllRejected(inputs[..i], count)
      {
        assert inputs[..i + 1] == inputs[..i] + [inputs[i]];
        i := i + 1;
      }
      if i == |inputs| {
        assert inputs[..i] == inputs;
        NoneAccepted(inputs, count);
        return Done(SessionState(), Failed(EndOfInput));
      }
      FirstAcceptedAt(inputs, count, i);
      var out := ExecuteChoice(chapter.choices[inputs[i].n - 1]);
      ghost var chosen := ChoiceStep(exec, old(player.State()), chapter.choices[inputs[i].n - 1]);
      assert (player.State(), out) == chosen;
      if out.Raised? {
        return Done(SessionState(), Failed(out.error));
      }
      autosaves := autosaves + [player.Save()];
      assert SessionState() == Session(chosen.0, Some(chapter), old(autosaves) + [SnapshotOf(chosen.0)]);
      ChapterStepChosen(exec, old(SessionState()), chapter, inputs, i);
      match NextChapter(out)
      case None =>
        step := Done(SessionState(), Stopped);
      case Some(next) =>
        step := Next(SessionState(), next, inputs[i + 1..]);
    }

    /** `execute_choice`: apply the result's updates, then decode and run its command. */
    method ExecuteChoice(choice: Choice) returns (out: ChoiceOutcome)
      modifies player
      ensures (player.State(), out) == ChoiceStep(exec, old(player.State()), choice)
    {
      ChoiceStepCases(exec, player.State(), choice);
      var error := ApplyChoiceUpdates(choice.result.updates);
      if error.Some? {
        return Raised(error.value);
      }
      match choice.result.command
      case None =>
        out := Returned(choice.result);
      case Some(d) =>
        match DecodeCommand(d)
        case KeyMissing(k) =>
          out := Raised(MissingKey(k));
        case Unknown =>
          out := EmptyResult;
        case Known(c) =>
          player.Become(exec(c, player.State()));
          out := Returned(choice.result);
    }

    /** The updates loop of `execute_choice`; `error` is the exception that stopped it, if any. */
    method ApplyChoiceUpdates(updates: seq<(string, Json)>) returns (error: Option<GameError>)
      modifies player
      ensures Applied(player.State(), error) == ApplyUpdates(old(player.State()), updates)
    {
      var i := 0;
      while i < |updates|
        invariant i <= |updates|
        invariant ApplyUpdates(old(player.State()), updates[..i]) == Applied(player.State(), None)
      {
        assert updates[..i + 1][..i] == updates[..i];
        assert ApplyUpdates(old(player.State()), updates[..i + 1]) == ApplyUpdate(player.State(), updates[i].0, updates[i].1);
        error := ApplyChoiceUpdate(updates[i].0, updates[i].1);
        if error.Some? {
          ErrorStopsUpdates(old(player.State()), updates, i + 1);
          return;
        }
        i := i + 1;
      }
      assert updates[..i] == updates;
      error := None;
    }

    /** One entry of the updates loop: add the items, add to a stat, or ignore the key. */
    method ApplyChoiceUpdate(key: string, value: Json) returns (error: Option<GameError>)
      modifies player
      ensures Applied(player.State(), error) == ApplyUpdate(old(player.State()), key, value)
    {
      error := None;
      if IsItemKey(key) {
        var items := ItemsOf(value);
        var j := 0;
        while j < |items|
          invariant j <= |items|
          invariant player.State() == old(player.State()).(inventory := old(player.inventory) + items[..j])
        {
          player.AddItem(items[j]);
          assert items[..j + 1] == items[..j] + [items[j]];
          j := j + 1;
        }
        assert items[..j] == items;
      } else if StatNamed(key).Some? {
        var s := StatNamed(key).value;
        if !value.JInt? {
          return Some(BadOperand(key));
        }
        player.SetStat(s, player.State().Get(s) + value.n);
      }
    }
  }
}

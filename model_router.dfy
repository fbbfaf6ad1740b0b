/** The model router: the task type guessed from a task's wording, the
    model configured for a type, and the spawn request built for one task or
    for a list of heartbeat tasks. Loading the configuration file is outside
    the model: the loaded configuration is a value. */
module ModelRouter {
  import opened Wrappers
  import opened Text

  /** One entry of `models`. */
  datatype ModelConfig = ModelConfig(model: string, costTier: string)

  /** The loaded configuration: `task_keywords` as (type, keywords) pairs in
      the file's order, and `models` by type. */
  datatype Config = Config(taskKeywords: seq<(string, seq<string>)>, models: map<string, ModelConfig>)

  // ---------------------------------------------------------------------
  // Task-type detection

  /** A keyword listed twice counts twice. */
  lemma ScoreDuplicates(words: seq<string>, text: string)
    ensures CountIn(words + words, text) == 2 * CountIn(words, text)
  {
    CountInAppend(words, words, text);
  }

  /** A keyword with an upper-case ASCII letter never occurs in the
      lower-cased task, so it never scores. */
  lemma UpperKeywordNeverMatches(task: string, w: string, i: nat)
    requires i < |w| && 'A' <= w[i] <= 'Z'
    ensures !Contains(Lower(task), w)
  {
    var s := Lower(task);
    forall j: nat | j + |w| <= |s|
      ensures !OccursAt(s, w, j)
    {
      assert s[j..j + |w|][i] == LowerChar(task[j + i]);
    }
    if Contains(s, w) {
      ContainsFromOccurrence(s, w, 0);
    }
  }

  /** The types whose score is positive, with their scores, in config order. */
  function Positive(keywords: seq<(string, seq<string>)>, text: string): seq<(string, nat)> {
    if keywords == [] then []
    else
      var last := keywords[|keywords| - 1];
      var score := CountIn(last.1, text);
      Positive(keywords[..|keywords| - 1], text) + (if score > 0 then [(last.0, score)] else [])
  }

  /** The entry at `i` has the highest score, and every entry before it
      scores strictly less. */
  predicate IsFirstMaxAt(scores: seq<(string, nat)>, i: int) {
    && 0 <= i < |scores|
    && (forall k :: 0 <= k < |scores| ==> scores[k].1 <= scores[i].1)
    && (forall k :: 0 <= k < i ==> scores[k].1 < scores[i].1)
  }

  /** One more entry: it becomes the maximum only when it scores strictly more. */
  lemma FirstMaxSnoc(init: seq<(string, nat)>, e: (string, nat), i: int)
    requires init == [] || IsFirstMaxAt(init, i)
    ensures IsFirstMaxAt(init + [e], if init == [] || e.1 > init[i].1 then |init| else i)
  {
    var scores := init + [e];
    assert forall k :: 0 <= k < |init| ==> scores[k] == init[k];
  }

  /** Python's `max` over scored types. */
  function FirstMax(scores: seq<(string, nat)>): Option<(string, nat)> {
    if scores == [] then None
    else
      var best := FirstMax(scores[..|scores| - 1]);
      var e := scores[|scores| - 1];
      if best.None? || e.1 > best.value.1 then Some(e) else best
  }

  /** `max` finds nothing only for no entries, and otherwise the first entry
      of highest score. */
  lemma {:induction false} FirstMaxIsFirst(scores: seq<(string, nat)>)
    ensures FirstMax(scores).None? <==> scores == []
    ensures FirstMax(scores).Some? ==> exists i :: IsFirstMaxAt(scores, i) && FirstMax(scores).value == scores[i]
  {
    if scores != [] {
      var init := scores[..|scores| - 1];
      var e := scores[|scores| - 1];
      FirstMaxIsFirst(init);
      assert init + [e] == scores;
      if init == [] {
        FirstMaxSnoc(init, e, 0);
      } else {
        var i :| IsFirstMaxAt(init, i) && FirstMax(init).value == init[i];
        FirstMaxSnoc(init, e, i);
      }
    }
  }

  /** Type `i` scores `s > 0`, no type scores more, and every type before
      it scores less. */
  predicate IsWinner(keywords: seq<(string, seq<string>)>, text: string, i: int, s: nat) {
    0 <= i < |keywords| && CountIn(keywords[i].1, text) == s > 0
    && (forall j :: 0 <= j < |keywords| ==> CountIn(keywords[j].1, text) <= s)
    && (forall j :: 0 <= j < i ==> CountIn(keywords[j].1, text) < s)
  }

  lemma WinnerKept(keywords: seq<(string, seq<string>)>, text: string, i: int, s: nat)
    requires keywords != [] && IsWinner(keywords[..|keywords| - 1], text, i, s)
    requires CountIn(keywords[|keywords| - 1].1, text) <= s
    ensures IsWinner(keywords, text, i, s) && keywords[i] == keywords[..|keywords| - 1][i]
  {
    var init := keywords[..|keywords| - 1];
    assert forall j :: 0 <= j < |init| ==> init[j] == keywords[j];
  }

  lemma WinnerLast(keywords: seq<(string, seq<string>)>, text: string, s: nat)
    requires keywords != [] && CountIn(keywords[|keywords| - 1].1, text) == s > 0
    requires forall j :: 0 <= j < |keywords| - 1 ==> CountIn(keywords[j].1, text) < s
    ensures IsWinner(keywords, text, |keywords| - 1, s)
  {
  }

  /** No type scores exactly when every score is zero. */
  lemma {:induction false} FirstMaxNone(keywords: seq<(string, seq<string>)>, text: string)
    ensures FirstMax(Positive(keywords, text)).None? <==> forall i :: 0 <= i < |keywords| ==> CountIn(keywords[i].1, text) == 0
  {
    if keywords != [] {
      var n := |keywords| - 1;
      var init := keywords[..n];
      FirstMaxNone(init, text);
      var p := Positive(init, text);
      var score := CountIn(keywords[n].1, text);
      assert forall i :: 0 <= i < n ==> init[i] == keywords[i];
      if score > 0 {
        var e := (keywords[n].0, score);
        assert Positive(keywords, text) == p + [e];
        assert (p + [e])[..|p|] == p;
      } else {
        assert Positive(keywords, text) == p;
      }
    }
  }

  /** One more configured type: `max` moves to it exactly when it scores
      and beats the best so far. */
  lemma FirstMaxStep(keywords: seq<(string, seq<string>)>, text: string)
    requires keywords != []
    ensures var n := |keywords| - 1;
            var best := FirstMax(Positive(keywords[..n], text));
            var score := CountIn(keywords[n].1, text);
            FirstMax(Positive(keywords, text))
              == if score > 0 && (best.None? || score > best.value.1) then Some((keywords[n].0, score)) else best
  {
    var n := |keywords| - 1;
    var p := Positive(keywords[..n], text);
    var score := CountIn(keywords[n].1, text);
    if score > 0 {
      var e := (keywords[n].0, score);
      assert Positive(keywords, text) == p + [e];
      assert (p + [e])[..|p|] == p;
    } else {
      assert Positive(keywords, text) == p;
    }
  }

  /** A last type that scores more than every earlier one is the winner. */
  lemma NewWinner(keywords: seq<(string, seq<string>)>, init: seq<(string, seq<string>)>, text: string, bound: int)
    requires keywords != [] && init == keywords[..|keywords| - 1]
    requires forall j :: 0 <= j < |init| ==> CountIn(init[j].1, text) <= bound
    requires CountIn(keywords[|keywords| - 1].1, text) > bound && CountIn(keywords[|keywords| - 1].1, text) > 0
    ensures IsWinner(keywords, text, |keywords| - 1, CountIn(keywords[|keywords| - 1].1, text))
  {
    var score := CountIn(keywords[|keywords| - 1].1, text);
    forall j | 0 <= j < |keywords| - 1
      ensures CountIn(keywords[j].1, text) < score
    {
      assert init[j] == keywords[j];
    }
    WinnerLast(keywords, text, score);
  }

  /** When some type scores, the chosen type has the highest score of all
      the configured types, and every type before it in config order scores
      strictly less. */
  lemma {:induction false} FirstMaxWinner(keywords: seq<(string, seq<string>)>, text: string)
    ensures FirstMax(Positive(keywords, text)).Some? ==>
              var e := FirstMax(Positive(keywords, text)).value;
              exists i :: IsWinner(keywords, text, i, e.1) && keywords[i].0 == e.0
  {
    if keywords != [] {
      var n := |keywords| - 1;
      var init := keywords[..n];
      FirstMaxWinner(init, text);
      FirstMaxNone(init, text);
      FirstMaxStep(keywords, text);
      var best := FirstMax(Positive(init, text));
      var score := CountIn(keywords[n].1, text);
      if score > 0 && (best.None? || score > best.value.1) {
        if best.Some? {
          var i :| IsWinner(init, text, i, best.value.1);
          NewWinner(keywords, init, text, best.value.1);
        } else {
          NewWinner(keywords, init, text, 0);
        }
      } else if best.Some? {
        var i :| IsWinner(init, text, i, best.value.1) && init[i].0 == best.value.0;
        WinnerKept(keywords, text, i, best.value.1);
      }
    }
  }

  /** The detected type of `task`: "default" when no configured type
      scores on the lower-cased task; otherwise the first type of highest
      score. */
  function DetectedType(keywords: seq<(string, seq<string>)>, task: string): (t: string)
    ensures (forall i :: 0 <= i < |keywords| ==> CountIn(keywords[i].1, Lower(task)) == 0) ==> t == "default"
    ensures (exists i :: 0 <= i < |keywords| && CountIn(keywords[i].1, Lower(task)) > 0) ==>
              exists i, s :: IsWinner(keywords, Lower(task), i, s) && keywords[i].0 == t
  {
    FirstMaxNone(keywords, Lower(task));
    FirstMaxWinner(keywords, Lower(task));
    match FirstMax(Positive(keywords, Lower(task)))
    case None => "default"
    case Some(e) => e.0
  }

  /** `detect_task_type`: every type is scored in config order, the types
      with a positive score are kept, and the first of highest score wins. */
  method DetectTaskType(config: Config, task: string) returns (taskType: string)
    ensures taskType == DetectedType(config.taskKeywords, task)
  {
    var taskLower := Lower(task);
    var keywords := config.taskKeywords;
    var scores: seq<(string, nat)> := [];
    for i := 0 to |keywords|
      invariant scores == Positive(keywords[..i], taskLower)
    {
      var (t, words) := keywords[i];
      var score := CountIn(words, taskLower);
      assert keywords[..i + 1][..i] == keywords[..i];
      if score > 0 {
        scores := scores + [(t, score)];
      }
    }
    assert keywords[..|keywords|] == keywords;
    if |scores| > 0 {
      var best := scores[0];
      assert scores[..1][..0] == [];
      for j := 1 to |scores|
        invariant FirstMax(scores[..j]) == Some(best)
      {
        assert scores[..j + 1][..j] == scores[..j];
        if scores[j].1 > best.1 {
          best := scores[j];
        }
      }
      assert scores[..|scores|] == scores;
      return best.0;
    }
    return "default";
  }

  // ---------------------------------------------------------------------
  // Model lookup and spawning

  /** `get_model`: the type's own entry, else the "default" entry, else
      nothing (Python's None). */
  function GetModel(config: Config, taskType: string): (r: Option<ModelConfig>)
    ensures taskType in config.models ==> r == Some(config.models[taskType])
    ensures taskType !in config.models && "default" in config.models ==> r == Some(config.models["default"])
    ensures r.None? <==> taskType !in config.models && "default" !in config.models
  {
    if taskType in config.models then Some(config.models[taskType])
    else if "default" in config.models then Some(config.models["default"])
    else None
  }

  /** The request `spawn_task` returns. */
  datatype SpawnResult = SpawnResult(
    task: string,
    taskType: string,
    model: string,
    costTier: string,
    timeout: int,
    spawnCommand: string)

  function SpawnCommand(task: string, model: string, timeout: int): string {
    "sessions_spawn --task \"" + task + "\" --model " + model + " --timeout " + IntToString(timeout)
  }

  /** The command quotes the task after `--task`, names the model after
      `--model`, and ends with the timeout in decimal. */
  lemma SpawnCommandFacts(task: string, model: string, timeout: int)
    ensures StartsWith(SpawnCommand(task, model, timeout), "sessions_spawn --task \"" + task + "\" --model " + model)
    ensures EndsWith(SpawnCommand(task, model, timeout), " --timeout " + IntToString(timeout))
  {
    var head := "sessions_spawn --task \"" + task + "\" --model " + model;
    var tail := " --timeout " + IntToString(timeout);
    AppendAssoc(head, " --timeout ", IntToString(timeout));
    AppendEnds(head, tail);
  }

  /** The type a task runs as: the explicit one when given, else the
      detected one. */
  function ChosenType(config: Config, task: string, taskType: Option<string>): string {
    if taskType.Some? then taskType.value else DetectedType(config.taskKeywords, task)
  }

  /** What `spawn_task` returns; None when no model entry applies, where the
      source fails on subscripting None. */
  function Spawned(config: Config, task: string, taskType: Option<string>, timeout: int): (r: Option<SpawnResult>)
    ensures r.Some? <==> GetModel(config, ChosenType(config, task, taskType)).Some?
    ensures r.Some? ==>
              var m := GetModel(config, ChosenType(config, task, taskType)).value;
              r.value.task == task && r.value.timeout == timeout
              && r.value.taskType == ChosenType(config, task, taskType)
              && r.value.model == m.model && r.value.costTier == m.costTier
              && r.value.spawnCommand == SpawnCommand(task, m.model, timeout)
  {
    var chosen := ChosenType(config, task, taskType);
    match GetModel(config, chosen)
    case None => None
    case Some(m) =>
      Some(SpawnResult(task, chosen, m.model, m.costTier, timeout, SpawnCommand(task, m.model, timeout)))
  }

  /** An explicit type is used as given, even when the wording points to
      another type; without one, the detected type is used. */
  lemma ExplicitTypeWins(config: Config, task: string, t: string, timeout: int)
    requires GetModel(config, t).Some?
    ensures Spawned(config, task, Some(t), timeout).value.taskType == t
    ensures Spawned(config, task, None, timeout).Some? ==>
              Spawned(config, task, None, timeout).value.taskType == DetectedType(config.taskKeywords, task)
  {
  }

  /** `spawn_task`. */
  method SpawnTask(config: Config, task: string, taskType: Option<string>, timeout: int) returns (r: Option<SpawnResult>)
    ensures r == Spawned(config, task, taskType, timeout)
  {
    var chosen: string;
    if taskType.None? {
      chosen := DetectTaskType(config, task);
    } else {
      chosen := taskType.value;
    }
    var modelConfig := GetModel(config, chosen);
    if modelConfig.None? {
      return None;
    }
    var model := modelConfig.value.model;
    var tier := modelConfig.value.costTier;
    r := Some(SpawnResult(task, chosen, model, tier, timeout, SpawnCommand(task, model, timeout)));
  }

  /** One heartbeat task definition; each key may be absent. */
  datatype TaskDef = TaskDef(task: Option<string>, taskType: Option<string>, timeout: Option<int>)

  /** The request for one definition: an absent task is empty and an absent
      timeout is 300. */
  function Routed(config: Config, d: TaskDef): Option<SpawnResult> {
    Spawned(config, d.task.GetOr(""), d.taskType, d.timeout.GetOr(300))
  }

  /** A definition without a type is routed by its wording, and one without
      a timeout runs with 300 seconds. */
  lemma RoutedDefaults(config: Config, d: TaskDef)
    requires Routed(config, d).Some?
    ensures d.taskType.None? ==> Routed(config, d).value.taskType == DetectedType(config.taskKeywords, d.task.GetOr(""))
    ensures d.timeout.None? ==> Routed(config, d).value.timeout == 300
    ensures d.task.None? ==> Routed(config, d).value.task == ""
  {
  }

  /** The request for one definition, with the defaults filled in. */
  method RouteOne(config: Config, d: TaskDef) returns (r: Option<SpawnResult>)
    ensures r == Routed(config, d)
  {
    r := SpawnTask(config, d.task.GetOr(""), d.taskType, d.timeout.GetOr(300));
  }

  /** `acc` holds, in order, the requests for the first `|acc|` definitions. */
  predicate RoutedPrefix(config: Config, tasks: seq<TaskDef>, acc: seq<SpawnResult>) {
    |acc| <= |tasks| && forall k :: 0 <= k < |acc| ==> Some(acc[k]) == Routed(config, tasks[k])
  }

  lemma RoutedPrefixSnoc(config: Config, tasks: seq<TaskDef>, acc: seq<SpawnResult>, r: SpawnResult)
    requires RoutedPrefix(config, tasks, acc) && |acc| < |tasks|
    requires Some(r) == Routed(config, tasks[|acc|])
    ensures RoutedPrefix(config, tasks, acc + [r])
  {
  }

  /** `route_heartbeat_tasks`: one request per definition, in order. A
      definition without a model entry stops the whole run (None). */
  method RouteHeartbeatTasks(config: Config, tasks: seq<TaskDef>) returns (routed: Option<seq<SpawnResult>>)
    ensures routed.None? ==> exists k :: 0 <= k < |tasks| && Routed(config, tasks[k]).None?
    ensures routed.Some? ==> |routed.value| == |tasks| && RoutedPrefix(config, tasks, routed.value)
  {
    var acc: seq<SpawnResult> := [];
    for i := 0 to |tasks|
      invariant |acc| == i && RoutedPrefix(config, tasks, acc)
    {
      var r := RouteOne(config, tasks[i]);
      if r.None? {
        assert Routed(config, tasks[i]).None?;
        return None;
      }
      RoutedPrefixSnoc(config, tasks, acc, r.value);
      acc := acc + [r.value];
    }
    routed := Some(acc);
  }
}

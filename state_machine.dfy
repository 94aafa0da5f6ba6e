/** The orchestration graph of the dubbing pipeline (the Step Functions state
    machine of src/stacks/visual_dubbing_lipsync_cdk_stack.py): eight Lambda tasks,
    three poll loops each made of a poll task, a Choice and a Wait, one Parallel
    state with the translate and voice-sample branches, and a single Succeed
    state. The Lambda handlers are parameters; each task's output is the
    handler's returned dictionary (`output_path="$.Payload"`). */
module StateMachine {
  import opened Values

  datatype State =
    | TranscribeTask
    | PollTranscribeTask
    | TranscriptionComplete          // Choice "Transcription Complete?"
    | WaitBeforeTranscribePollAgain
    | ParallelExecution              // branches: Translate Task, Voice Samples Task
    | InvokeTtsTask
    | PollTtsTask
    | TtsComplete                    // Choice "TTS Complete?"
    | WaitBeforeTtsPollAgain
    | InvokeRetalkingTask
    | PollRetalkingTask
    | RetalkingComplete              // Choice "Retalking Complete?"
    | WaitBeforeRetalkingPollAgain
    | Completed                      // Succeed

  /** The three poll loops. */
  datatype Loop = TranscribeLoop | TtsLoop | RetalkingLoop

  function PollOf(l: Loop): State {
    match l
    case TranscribeLoop => PollTranscribeTask
    case TtsLoop => PollTtsTask
    case RetalkingLoop => PollRetalkingTask
  }

  function ChoiceOf(l: Loop): State {
    match l
    case TranscribeLoop => TranscriptionComplete
    case TtsLoop => TtsComplete
    case RetalkingLoop => RetalkingComplete
  }

  function WaitOf(l: Loop): State {
    match l
    case TranscribeLoop => WaitBeforeTranscribePollAgain
    case TtsLoop => WaitBeforeTtsPollAgain
    case RetalkingLoop => WaitBeforeRetalkingPollAgain
  }

  /** Where a loop's Choice goes once the job is complete. */
  function AfterOf(l: Loop): State {
    match l
    case TranscribeLoop => ParallelExecution
    case TtsLoop => InvokeRetalkingTask
    case RetalkingLoop => Completed
  }

  predicate InLoop(s: State) {
    exists l: Loop :: s == PollOf(l) || s == ChoiceOf(l) || s == WaitOf(l)
  }

  /** The states that start a stage: the three submitting tasks and the Parallel
      state that runs translate and voice samples. */
  predicate IsSubmit(s: State) {
    s == TranscribeTask || s == ParallelExecution || s == InvokeTtsTask || s == InvokeRetalkingTask
  }

  /** The path `$.job_status` exists in the input. A Choice rule whose path is
      missing from its input fails the execution with `States.Runtime`. */
  predicate HasStatus(input: Value) {
    input.Obj? && "job_status" in input.fields
  }

  /** `sfn.Condition.string_equals("$.job_status", "COMPLETED")`. */
  predicate IsCompleted(input: Value) {
    HasStatus(input) && input.fields["job_status"] == Str("COMPLETED")
  }

  predicate IsChoice(s: State) {
    s == TranscriptionComplete || s == TtsComplete || s == RetalkingComplete
  }

  /** The graph's edges. A Choice looks at its input and has no successor when
      the input lacks `$.job_status`; every other state has one successor; the
      Succeed state has none. */
  function Next(s: State, input: Value): (r: Option<State>)
    ensures r.None? <==> s == Completed || (IsChoice(s) && !HasStatus(input))
  {
    if IsChoice(s) && !HasStatus(input) then None
    else
      match s
      case TranscribeTask => Some(PollTranscribeTask)
      case PollTranscribeTask => Some(TranscriptionComplete)
      case TranscriptionComplete =>
        Some(if IsCompleted(input) then ParallelExecution else WaitBeforeTranscribePollAgain)
      case WaitBeforeTranscribePollAgain => Some(PollTranscribeTask)
      case ParallelExecution => Some(InvokeTtsTask)
      case InvokeTtsTask => Some(PollTtsTask)
      case PollTtsTask => Some(TtsComplete)
      case TtsComplete => Some(if IsCompleted(input) then InvokeRetalkingTask else WaitBeforeTtsPollAgain)
      case WaitBeforeTtsPollAgain => Some(PollTtsTask)
      case InvokeRetalkingTask => Some(PollRetalkingTask)
      case PollRetalkingTask => Some(RetalkingComplete)
      case RetalkingComplete => Some(if IsCompleted(input) then Completed else WaitBeforeRetalkingPollAgain)
      case WaitBeforeRetalkingPollAgain => Some(PollRetalkingTask)
      case Completed => None
  }

  /** Every Choice advances exactly when `$.job_status` is the string "COMPLETED",
      goes to its Wait exactly when `$.job_status` is present and anything else,
      and has no successor exactly when `$.job_status` is missing. */
  lemma ChoiceAdvancesIffCompleted(l: Loop, input: Value)
    ensures Next(ChoiceOf(l), input) == Some(AfterOf(l)) <==> IsCompleted(input)
    ensures Next(ChoiceOf(l), input) == Some(WaitOf(l)) <==> HasStatus(input) && !IsCompleted(input)
    ensures Next(ChoiceOf(l), input) == None <==> !HasStatus(input)
  {
  }

  /** Every Wait goes back to the poll task of its own loop. */
  lemma WaitReturnsToPoll(l: Loop, input: Value)
    ensures Next(WaitOf(l), input) == Some(PollOf(l))
    ensures Next(PollOf(l), input) == Some(ChoiceOf(l))
  {
  }

  /** Statuses the handlers report that are not "COMPLETED" keep a loop polling;
      an envelope without `job_status` leaves the Choice without a successor. */
  lemma OtherStatusesWait(l: Loop, fields: map<string, Value>)
    ensures var with := (status: string) => Obj(fields["job_status" := Str(status)]);
      && Next(ChoiceOf(l), with("FAILED")) == Some(WaitOf(l))
      && Next(ChoiceOf(l), with("IN_PROGRESS")) == Some(WaitOf(l))
      && Next(ChoiceOf(l), with("IN PROGRESS")) == Some(WaitOf(l))
      && Next(ChoiceOf(l), Obj(fields - {"job_status"})) == None
  {
    var with := (status: string) => Obj(fields["job_status" := Str(status)]);
    assert with("FAILED").fields["job_status"] == Str("FAILED");
    assert with("IN_PROGRESS").fields["job_status"] == Str("IN_PROGRESS");
    assert with("IN PROGRESS").fields["job_status"] == Str("IN PROGRESS");
    assert Str("FAILED") != Str("COMPLETED");
    assert Str("IN_PROGRESS") != Str("COMPLETED");
    assert Str("IN PROGRESS") != Str("COMPLETED");
  }

  /** The stages in the order a run that never waits goes through them. */
  const MainLine: seq<State> := [
    TranscribeTask, PollTranscribeTask, TranscriptionComplete, ParallelExecution,
    InvokeTtsTask, PollTtsTask, TtsComplete,
    InvokeRetalkingTask, PollRetalkingTask, RetalkingComplete, Completed]

  /** Fed completed statuses, the graph goes along the main line, stage by stage. */
  lemma StageOrder(input: Value, k: nat)
    requires IsCompleted(input) && k + 1 < |MainLine|
    ensures Next(MainLine[k], input) == Some(MainLine[k + 1])
  {
  }

  /** The stage a state belongs to: the loop states of a stage share their poll
      task's rank. */
  function Rank(s: State): nat {
    match s
    case TranscribeTask => 0
    case PollTranscribeTask => 1
    case TranscriptionComplete => 1
    case WaitBeforeTranscribePollAgain => 1
    case ParallelExecution => 2
    case InvokeTtsTask => 3
    case PollTtsTask => 4
    case TtsComplete => 4
    case WaitBeforeTtsPollAgain => 4
    case InvokeRetalkingTask => 5
    case PollRetalkingTask => 6
    case RetalkingComplete => 6
    case WaitBeforeRetalkingPollAgain => 6
    case Completed => 7
  }

  /** No edge goes to an earlier stage; leaving a submitting state always goes
      to a later one; an edge stays within a stage only inside a poll loop. */
  lemma RankMonotone(s: State, input: Value)
    requires Next(s, input).Some?
    ensures Rank(Next(s, input).value) >= Rank(s)
    ensures IsSubmit(s) ==> Rank(Next(s, input).value) > Rank(s)
    ensures Rank(Next(s, input).value) == Rank(s) ==> InLoop(s)
  {
    match s
    case PollTranscribeTask => assert s == PollOf(TranscribeLoop);
    case TranscriptionComplete => assert s == ChoiceOf(TranscribeLoop);
    case WaitBeforeTranscribePollAgain => assert s == WaitOf(TranscribeLoop);
    case PollTtsTask => assert s == PollOf(TtsLoop);
    case TtsComplete => assert s == ChoiceOf(TtsLoop);
    case WaitBeforeTtsPollAgain => assert s == WaitOf(TtsLoop);
    case PollRetalkingTask => assert s == PollOf(RetalkingLoop);
    case RetalkingComplete => assert s == ChoiceOf(RetalkingLoop);
    case WaitBeforeRetalkingPollAgain => assert s == WaitOf(RetalkingLoop);
    case _ =>
  }

  /** A sequence of states each followed by the successor the graph gives it for
      the input it received. */
  predicate IsPath(states: seq<State>, inputs: seq<Value>) {
    && |states| == |inputs|
    && forall k :: 0 <= k < |states| - 1 ==> Next(states[k], inputs[k]) == Some(states[k + 1])
  }

  lemma {:induction false} RankAlongPath(states: seq<State>, inputs: seq<Value>, i: nat, j: nat)
    requires IsPath(states, inputs) && i <= j < |states|
    ensures Rank(states[i]) <= Rank(states[j])
    decreases j - i
  {
    if i < j {
      assert Next(states[i], inputs[i]) == Some(states[i + 1]);
      RankMonotone(states[i], inputs[i]);
      RankAlongPath(states, inputs, i + 1, j);
    }
  }

  /** Along any path a submitting state occurs at most once. */
  lemma {:induction false} SubmitNeverRevisited(states: seq<State>, inputs: seq<Value>, i: nat, j: nat)
    requires IsPath(states, inputs) && i < j < |states| && IsSubmit(states[i])
    ensures states[j] != states[i]
  {
    assert Next(states[i], inputs[i]) == Some(states[i + 1]);
    RankMonotone(states[i], inputs[i]);
    RankAlongPath(states, inputs, i + 1, j);
  }

  /** A state that occurs twice along a path belongs to a poll loop. */
  lemma {:induction false} OnlyPollLoopsRepeat(states: seq<State>, inputs: seq<Value>, i: nat, j: nat)
    requires IsPath(states, inputs) && i < j < |states| && states[i] == states[j]
    ensures InLoop(states[i])
  {
    assert Next(states[i], inputs[i]) == Some(states[i + 1]);
    RankMonotone(states[i], inputs[i]);
    RankAlongPath(states, inputs, i + 1, j);
  }

  /** The eight Lambda handlers, each from the event it receives to the
      dictionary it returns or the exception it raises. */
  datatype Handlers = Handlers(
    transcribe: Value -> Result<Value>,
    pollTranscribe: Value -> Result<Value>,
    translate: Value -> Result<Value>,
    voiceSamples: Value -> Result<Value>,
    invokeTts: Value -> Result<Value>,
    pollTts: Value -> Result<Value>,
    invokeRetalking: Value -> Result<Value>,
    pollRetalking: Value -> Result<Value>)

  function PollHandler(h: Handlers, l: Loop): Value -> Result<Value> {
    match l
    case TranscribeLoop => h.pollTranscribe
    case TtsLoop => h.pollTts
    case RetalkingLoop => h.pollRetalking
  }

  predicate IsTask(s: State) {
    s == TranscribeTask || s == PollTranscribeTask || s == InvokeTtsTask || s == PollTtsTask ||
    s == InvokeRetalkingTask || s == PollRetalkingTask
  }

  function TaskHandler(h: Handlers, s: State): Value -> Result<Value>
    requires IsTask(s)
  {
    match s
    case TranscribeTask => h.transcribe
    case PollTranscribeTask => h.pollTranscribe
    case InvokeTtsTask => h.invokeTts
    case PollTtsTask => h.pollTts
    case InvokeRetalkingTask => h.invokeRetalking
    case PollRetalkingTask => h.pollRetalking
  }

  datatype StepResult = Moved(next: State, output: Value) | Failed(error: Error)

  /** One state's work on its input. A task runs its handler and passes on the
      returned dictionary; a raised exception fails the execution (no Retry or
      Catch is configured). A Choice whose input lacks `$.job_status` fails the
      execution with `States.Runtime`; otherwise a Choice or a Wait passes its
      input on. The Parallel
      state runs both branches on the same input and passes on the list of
      their outputs, translate first; if a branch raises, the state fails. */
  function Step(h: Handlers, s: State, input: Value): (r: StepResult)
    requires s != Completed
    ensures r.Moved? ==> Next(s, input) == Some(r.next)
  {
    if IsTask(s) then
      match TaskHandler(h, s)(input)
      case Ok(out) => Moved(Next(s, input).value, out)
      case Raise(e) => Failed(e)
    else if s == ParallelExecution then
      match h.translate(input)
      case Raise(e) => Failed(e)
      case Ok(t) =>
        match h.voiceSamples(input)
        case Raise(e) => Failed(e)
        case Ok(vs) => Moved(InvokeTtsTask, List([t, vs]))
    else if IsChoice(s) && !HasStatus(input) then
      Failed(StatesRuntime)
    else
      Moved(Next(s, input).value, input)
  }

  /** A task's output is exactly the handler's returned dictionary: nothing of
      its input survives that the handler did not return. */
  lemma TaskOutputIsPayload(h: Handlers, s: State, input: Value)
    requires IsTask(s)
    ensures TaskHandler(h, s)(input).Ok? <==> Step(h, s, input).Moved?
    ensures Step(h, s, input).Moved? ==> Step(h, s, input).output == TaskHandler(h, s)(input).value
    ensures Step(h, s, input).Failed? ==> Step(h, s, input).error == TaskHandler(h, s)(input).error
  {
  }

  /** Choices and Waits hand on their input unchanged; a Choice fails the
      execution exactly when its input lacks `$.job_status`. */
  lemma ChoiceAndWaitPassInput(h: Handlers, l: Loop, input: Value)
    ensures Step(h, ChoiceOf(l), input).Moved? <==> HasStatus(input)
    ensures HasStatus(input) ==> Step(h, ChoiceOf(l), input).output == input
    ensures !HasStatus(input) ==> Step(h, ChoiceOf(l), input) == Failed(StatesRuntime)
    ensures Step(h, WaitOf(l), input) == Moved(PollOf(l), input)
  {
  }

  /** The Parallel state never looks at what its branches return: two returned
      envelopes, whatever their statusCode (400 included), go on to the TTS task
      as a two-element list with the translate result first. */
  lemma ParallelFlowsThrough(h: Handlers, input: Value, t: Value, vs: Value)
    requires h.translate(input) == Ok(t) && h.voiceSamples(input) == Ok(vs)
    ensures Step(h, ParallelExecution, input) == Moved(InvokeTtsTask, List([t, vs]))
  {
  }

  datatype Outcome = Succeeded(output: Value) | ExecutionFailed(error: Error) | TimedOut

  /** An execution: its outcome, and the states it entered together with the
      input each of them received. */
  datatype Execution = Execution(outcome: Outcome, states: seq<State>, inputs: seq<Value>)

  /** Running the machine from `s` on `input` for at most `fuel` transitions.
      Running out of fuel stands for the 60-minute execution timeout. The Succeed
      state's output is its input. */
  function Run(fuel: nat, h: Handlers, s: State, input: Value): (e: Execution)
    ensures |e.states| == |e.inputs| >= 1 && e.states[0] == s && e.inputs[0] == input
    decreases fuel
  {
    if s == Completed then Execution(Succeeded(input), [s], [input])
    else if fuel == 0 then Execution(TimedOut, [s], [input])
    else
      match Step(h, s, input)
      case Failed(err) => Execution(ExecutionFailed(err), [s], [input])
      case Moved(t, out) =>
        var rest := Run(fuel - 1, h, t, out);
        Execution(rest.outcome, [s] + rest.states, [input] + rest.inputs)
  }

  /** Every execution follows the graph. */
  lemma {:induction false} RunIsPath(fuel: nat, h: Handlers, s: State, input: Value)
    ensures IsPath(Run(fuel, h, s, input).states, Run(fuel, h, s, input).inputs)
    decreases fuel
  {
    if s != Completed && fuel > 0 && Step(h, s, input).Moved? {
      var t, out := Step(h, s, input).next, Step(h, s, input).output;
      RunIsPath(fuel - 1, h, t, out);
      var rest := Run(fuel - 1, h, t, out);
      var e := Run(fuel, h, s, input);
      assert e.states == [s] + rest.states && e.inputs == [input] + rest.inputs;
      forall k | 0 <= k < |e.states| - 1
        ensures Next(e.states[k], e.inputs[k]) == Some(e.states[k + 1])
      {
        if k > 0 {
          assert e.states[k] == rest.states[k - 1] && e.states[k + 1] == rest.states[k];
          assert e.inputs[k] == rest.inputs[k - 1];
        }
      }
    }
  }

  /** In any execution each submitting state runs at most once. */
  lemma SubmitRunsOnce(fuel: nat, h: Handlers, input: Value, i: nat, j: nat)
    requires i < j < |Run(fuel, h, TranscribeTask, input).states|
    requires IsSubmit(Run(fuel, h, TranscribeTask, input).states[i])
    ensures Run(fuel, h, TranscribeTask, input).states[j] != Run(fuel, h, TranscribeTask, input).states[i]
  {
    var e := Run(fuel, h, TranscribeTask, input);
    RunIsPath(fuel, h, TranscribeTask, input);
    SubmitNeverRevisited(e.states, e.inputs, i, j);
  }

  /** An execution succeeds only by reaching the Succeed state, and then its
      output is what that state received. */
  lemma {:induction false} SucceedOnlyAtCompleted(fuel: nat, h: Handlers, s: State, input: Value)
    requires Run(fuel, h, s, input).outcome.Succeeded?
    ensures var e := Run(fuel, h, s, input);
      Last(e.states) == Completed && e.outcome.output == Last(e.inputs)
    decreases fuel
  {
    if s != Completed {
      assert fuel > 0 && Step(h, s, input).Moved?;
      var t, out := Step(h, s, input).next, Step(h, s, input).output;
      SucceedOnlyAtCompleted(fuel - 1, h, t, out);
    }
  }

  function Last<T>(xs: seq<T>): T requires |xs| > 0 { xs[|xs| - 1] }

  /** A poll handler that always returns a status other than "COMPLETED" (a
      failed job, say) keeps its loop going until the run times out: there is no
      Fail state. */
  lemma {:induction false} NeverCompletedTimesOut(fuel: nat, h: Handlers, l: Loop, s: State, input: Value)
    requires forall x :: (PollHandler(h, l)(x).Ok? && HasStatus(PollHandler(h, l)(x).value) &&
                          !IsCompleted(PollHandler(h, l)(x).value))
    requires s == PollOf(l) || s == WaitOf(l) || (s == ChoiceOf(l) && HasStatus(input) && !IsCompleted(input))
    ensures Run(fuel, h, s, input).outcome == TimedOut
    decreases fuel
  {
    if fuel > 0 {
      if s == PollOf(l) {
        assert TaskHandler(h, s) == PollHandler(h, l);
        assert PollHandler(h, l)(input).Ok?;
      }
      var t, out := Step(h, s, input).next, Step(h, s, input).output;
      if s == PollOf(l) {
        assert t == ChoiceOf(l) && out == PollHandler(h, l)(input).value;
      } else if s == WaitOf(l) {
        assert t == PollOf(l);
      } else {
        assert t == WaitOf(l);
      }
      NeverCompletedTimesOut(fuel - 1, h, l, t, out);
    }
  }

  /** A poll that returns an envelope without `job_status` fails the execution
      at its Choice, one transition later, with `States.Runtime`. */
  lemma MissingStatusFails(fuel: nat, h: Handlers, l: Loop, input: Value)
    requires fuel >= 2 && PollHandler(h, l)(input).Ok? && !HasStatus(PollHandler(h, l)(input).value)
    ensures Run(fuel, h, PollOf(l), input).outcome == ExecutionFailed(StatesRuntime)
    ensures Run(fuel, h, PollOf(l), input).states == [PollOf(l), ChoiceOf(l)]
  {
    var out := PollHandler(h, l)(input).value;
    assert TaskHandler(h, PollOf(l)) == PollHandler(h, l);
    assert Step(h, PollOf(l), input) == Moved(ChoiceOf(l), out);
    assert Step(h, ChoiceOf(l), out) == Failed(StatesRuntime);
    RunMoved(fuel, h, PollOf(l), input, ChoiceOf(l), out);
  }

  /** When every handler returns and every poll reports "COMPLETED" at once, a run
      with room for ten transitions goes through the stages in order and
      succeeds. */
  lemma HappyPath(h: Handlers, input: Value, fuel: nat)
    requires AllSucceedAtOnce(h) && fuel >= 10
    ensures Run(fuel, h, TranscribeTask, input).outcome.Succeeded?
    ensures Run(fuel, h, TranscribeTask, input).states == MainLine
  {
    AllSucceedSteps(h);
    var outs := MovesTrace(h, MainLine, input);
    RunTrace(h, MainLine, outs, fuel);
  }

  /** Every handler returns, and every poll reports "COMPLETED". */
  ghost predicate AllSucceedAtOnce(h: Handlers) {
    && (forall x :: h.transcribe(x).Ok? && h.translate(x).Ok? && h.voiceSamples(x).Ok?)
    && (forall x :: h.invokeTts(x).Ok? && h.invokeRetalking(x).Ok?)
    && (forall x :: h.pollTranscribe(x).Ok? && IsCompleted(h.pollTranscribe(x).value))
    && (forall x :: h.pollTts(x).Ok? && IsCompleted(h.pollTts(x).value))
    && (forall x :: h.pollRetalking(x).Ok? && IsCompleted(h.pollRetalking(x).value))
  }

  /** On the happy path each main-line state moves to the next one. */
  lemma HappyStep(h: Handlers, k: nat, input: Value)
    requires AllSucceedAtOnce(h)
    requires k + 1 < |MainLine|
    requires IsChoice(MainLine[k]) ==> IsCompleted(input)
    ensures MainLine[k] != Completed
    ensures var r := Step(h, MainLine[k], input);
      r.Moved? && r.next == MainLine[k + 1] && (IsChoice(r.next) ==> IsCompleted(r.output))
  {
    var s := MainLine[k];
    assert s != Completed && !IsWait(s);
    HappyMove(h, s, input);
    var done := Obj(map["job_status" := Str("COMPLETED")]);
    StageOrder(done, k);
    assert !IsChoice(s) ==> Next(s, input) == Next(s, done);
  }

  predicate IsWait(s: State) {
    s == WaitBeforeTranscribePollAgain || s == WaitBeforeTtsPollAgain || s == WaitBeforeRetalkingPollAgain
  }

  /** With handlers that all succeed at once, a state that is not a Wait takes its
      transition, and a poll hands its Choice a completed status. */
  lemma HappyMove(h: Handlers, s: State, input: Value)
    requires AllSucceedAtOnce(h) && s != Completed && !IsWait(s)
    requires IsChoice(s) ==> IsCompleted(input)
    ensures var r := Step(h, s, input);
      r.Moved? && Some(r.next) == Next(s, input) && (IsChoice(r.next) ==> IsCompleted(r.output))
  {
    match s
    case PollTranscribeTask => assert IsCompleted(h.pollTranscribe(input).value);
    case PollTtsTask => assert IsCompleted(h.pollTts(input).value);
    case PollRetalkingTask => assert IsCompleted(h.pollRetalking(input).value);
    case ParallelExecution => assert h.translate(input).Ok? && h.voiceSamples(input).Ok?;
    case TranscribeTask => assert h.transcribe(input).Ok?;
    case InvokeTtsTask => assert h.invokeTts(input).Ok?;
    case InvokeRetalkingTask => assert h.invokeRetalking(input).Ok?;
    case _ =>
  }

  /** Each state of `line` but the last moves to the one after it on any input a
      Choice state accepts as completed, and hands the next Choice state a
      completed status. */
  ghost predicate Moves(h: Handlers, line: seq<State>) {
    forall j: nat, x: Value {:trigger Step(h, line[j], x)} :: j + 1 < |line| && (IsChoice(line[j]) ==> IsCompleted(x)) ==>
      line[j] != Completed && Step(h, line[j], x).Moved? && Step(h, line[j], x).next == line[j + 1] &&
      (IsChoice(line[j + 1]) ==> IsCompleted(Step(h, line[j], x).output))
  }

  /** Handlers that all succeed at once drive the main line. */
  lemma AllSucceedSteps(h: Handlers)
    requires AllSucceedAtOnce(h)
    ensures Moves(h, MainLine)
  {
    forall j: nat, x: Value | j + 1 < |MainLine| && (IsChoice(MainLine[j]) ==> IsCompleted(x))
      ensures MainLine[j] != Completed && Step(h, MainLine[j], x).Moved? && Step(h, MainLine[j], x).next == MainLine[j + 1]
      ensures IsChoice(MainLine[j + 1]) ==> IsCompleted(Step(h, MainLine[j], x).output)
    {
      HappyStep(h, j, x);
    }
  }

  /** The `j`-th move of a line. */
  lemma MovesAt(h: Handlers, line: seq<State>, j: nat, x: Value)
    requires Moves(h, line) && j + 1 < |line| && (IsChoice(line[j]) ==> IsCompleted(x))
    ensures line[j] != Completed && Step(h, line[j], x).Moved? && Step(h, line[j], x).next == line[j + 1]
    ensures IsChoice(line[j + 1]) ==> IsCompleted(Step(h, line[j], x).output)
  {
  }

  /** The first move of a line, and the moves of the rest of it. */
  lemma MovesFirst(h: Handlers, line: seq<State>, x: Value)
    requires Moves(h, line) && |line| > 1 && (IsChoice(line[0]) ==> IsCompleted(x))
    ensures line[0] != Completed && Step(h, line[0], x).Moved? && Step(h, line[0], x).next == line[1]
    ensures IsChoice(line[1]) ==> IsCompleted(Step(h, line[0], x).output)
    ensures Moves(h, line[1..])
  {
    MovesAt(h, line, 0, x);
    forall j: nat, y: Value | j + 1 < |line[1..]| && (IsChoice(line[1..][j]) ==> IsCompleted(y))
      ensures line[1..][j] != Completed && Step(h, line[1..][j], y).Moved? && Step(h, line[1..][j], y).next == line[1..][j + 1]
      ensures IsChoice(line[1..][j + 1]) ==> IsCompleted(Step(h, line[1..][j], y).output)
    {
      assert line[1..][j] == line[j + 1] && line[1..][j + 1] == line[j + 2];
      MovesAt(h, line, j + 1, y);
    }
  }

  /** A run along a chain of transitions that ends in the Succeed state, with one
      transition of fuel per step, records exactly those states and inputs and
      succeeds with the last input. */
  lemma {:induction false} RunTrace(h: Handlers, line: seq<State>, outs: seq<Value>, fuel: nat)
    requires |line| == |outs| >= 1 && line[|line| - 1] == Completed && fuel >= |line| - 1
    requires Chain(h, line, outs)
    ensures Run(fuel, h, line[0], outs[0]) == Execution(Succeeded(outs[|outs| - 1]), line, outs)
    decreases |line|
  {
    if |line| > 1 {
      var restLine, restOuts := line[1..], outs[1..];
      ChainTail(h, line, outs);
      RunTrace(h, restLine, restOuts, fuel - 1);
      RunCons(fuel, h, line, outs, outs[|outs| - 1]);
    } else {
      assert line == [Completed];
    }
  }

  /** A transition, then a run that follows the rest of the line. */
  lemma RunCons(fuel: nat, h: Handlers, line: seq<State>, outs: seq<Value>, last: Value)
    requires |line| == |outs| >= 2 && fuel > 0
    requires line[0] != Completed && Step(h, line[0], outs[0]) == Moved(line[1], outs[1])
    requires Run(fuel - 1, h, line[1], outs[1]) == Execution(Succeeded(last), line[1..], outs[1..])
    ensures Run(fuel, h, line[0], outs[0]) == Execution(Succeeded(last), line, outs)
  {
    RunMoved(fuel, h, line[0], outs[0], line[1], outs[1]);
    assert line == [line[0]] + line[1..] && outs == [outs[0]] + outs[1..];
  }

  /** Each state of `line` but the last takes a transition to the next one, with
      `outs` the inputs the states receive. */
  predicate Chain(h: Handlers, line: seq<State>, outs: seq<Value>)
    requires |line| == |outs|
  {
    forall j :: 0 <= j < |line| - 1 ==>
      line[j] != Completed && Step(h, line[j], outs[j]) == Moved(line[j + 1], outs[j + 1])
  }

  /** The rest of a chain is a chain. */
  lemma ChainTail(h: Handlers, line: seq<State>, outs: seq<Value>)
    requires |line| == |outs| >= 2 && Chain(h, line, outs)
    ensures line[0] != Completed && Step(h, line[0], outs[0]) == Moved(line[1], outs[1])
    ensures Chain(h, line[1..], outs[1..])
  {
    var restLine, restOuts := line[1..], outs[1..];
    forall j | 0 <= j < |restLine| - 1
      ensures restLine[j] != Completed && Step(h, restLine[j], restOuts[j]) == Moved(restLine[j + 1], restOuts[j + 1])
    {
      assert restLine[j] == line[j + 1] && restLine[j + 1] == line[j + 2];
      assert restOuts[j] == outs[j + 1] && restOuts[j + 1] == outs[j + 2];
    }
  }

  /** A line of moves, followed from `x`, gives the input each of its states
      receives. */
  lemma {:induction false} MovesTrace(h: Handlers, line: seq<State>, x: Value) returns (outs: seq<Value>)
    requires Moves(h, line) && |line| >= 1 && (IsChoice(line[0]) ==> IsCompleted(x))
    ensures |outs| == |line| && outs[0] == x
    ensures Chain(h, line, outs)
    decreases |line|
  {
    if |line| == 1 {
      outs := [x];
    } else {
      MovesFirst(h, line, x);
      var tail := MovesTrace(h, line[1..], Step(h, line[0], x).output);
      outs := [x] + tail;
      forall j | 0 <= j < |line| - 1
        ensures line[j] != Completed && Step(h, line[j], outs[j]) == Moved(line[j + 1], outs[j + 1])
      {
        if j > 0 {
          assert line[1..][j - 1] == line[j] && line[1..][j] == line[j + 1];
          assert outs[j] == tail[j - 1] && outs[j + 1] == tail[j];
        }
      }
    }
  }

  /** A transition, then the run from where it leads. */
  lemma RunMoved(fuel: nat, h: Handlers, s: State, input: Value, t: State, out: Value)
    requires s != Completed && fuel > 0 && Step(h, s, input) == Moved(t, out)
    ensures var rest := Run(fuel - 1, h, t, out);
      Run(fuel, h, s, input) == Execution(rest.outcome, [s] + rest.states, [input] + rest.inputs)
  {
  }
}

/** The tool-calling executor's two ways of reporting a run: the lists of `run` and the events of
    `stream` (_langchain_executor.py). */
module Executor {
  import opened Selections
  import opened Wrappers
  import H = HistoryStore

  const TOOL_OBSERVATION_MAX_CHARS := 2000

  // ---------------------------------------------------------------- splitting a request

  datatype ChatMessage = Human(content: string) | AI(content: string)

  /** The chat history and the input, or one of the three rejections. */
  datatype Split =
    | Split(history: seq<ChatMessage>, input: string)
    | NoMessages
    | NoUserMessage
    | LastIsNotUser

  function NonSystem(messages: seq<H.Message>): (r: seq<H.Message>)
    ensures r == [] <==> forall m :: m in messages ==> m.role == "system"
  {
    if messages == [] then []
    else
      var m := messages[|messages| - 1];
      NonSystem(messages[..|messages| - 1]) + if m.role != "system" then [m] else []
  }

  function AsSpoken(m: H.Message): seq<ChatMessage> {
    if m.role == "user" then [Human(m.content)]
    else if m.role == "assistant" then [AI(m.content)]
    else []
  }

  /** What the user and the assistant said, in order. */
  function Spoken(messages: seq<H.Message>): seq<ChatMessage> {
    if messages == [] then []
    else Spoken(messages[..|messages| - 1]) + AsSpoken(messages[|messages| - 1])
  }

  lemma {:induction false} SystemIsSilent(messages: seq<H.Message>)
    ensures Spoken(NonSystem(messages)) == Spoken(messages)
  {
    if messages != [] {
      var before, m := messages[..|messages| - 1], messages[|messages| - 1];
      SystemIsSilent(before);
      var kept := NonSystem(messages);
      if m.role != "system" {
        assert kept[..|kept| - 1] == NonSystem(before);
      } else {
        assert kept == NonSystem(before);
      }
    }
  }

  predicate SaysSomething(m: H.Message) {
    m.role == "user" || m.role == "assistant"
  }

  /** How a message reaches the model. */
  function AsSaid(m: H.Message): ChatMessage {
    if m.role == "user" then Human(m.content) else AI(m.content)
  }

  /** Exactly the messages of the user and of the assistant, in order, each as its own kind with
      its content unchanged. */
  lemma {:induction false} SpokenIsSelection(messages: seq<H.Message>)
    ensures Selection(messages, SaysSomething, AsSaid, Spoken(messages))
  {
    hide Selection;
    if messages == [] {
      NoSelection(SaysSomething, AsSaid);
    } else {
      var before, m := messages[..|messages| - 1], messages[|messages| - 1];
      SpokenIsSelection(before);
      SelectionMore(before, m, SaysSomething, AsSaid, Spoken(before));
      assert AsSpoken(m) == if SaysSomething(m) then [AsSaid(m)] else [];
      assert before + [m] == messages;
    }
  }

  lemma {:induction false} NonSystemIsSelection(messages: seq<H.Message>)
    ensures Selection(messages, (m: H.Message) => m.role != "system", (m: H.Message) => m, NonSystem(messages))
  {
    hide Selection;
    var keep, id := (m: H.Message) => m.role != "system", (m: H.Message) => m;
    if messages == [] {
      NoSelection(keep, id);
    } else {
      var before, m := messages[..|messages| - 1], messages[|messages| - 1];
      NonSystemIsSelection(before);
      SelectionMore(before, m, keep, id, NonSystem(before));
      assert before + [m] == messages;
    }
  }

  /** Loses and reorders nothing that was said, and fails exactly when what is not a system
      message is missing or does not end with the user. */
  method SplitMessages(messages: seq<H.Message>) returns (r: Split)
    ensures r == NoMessages <==> messages == []
    ensures r == NoUserMessage <==> messages != [] && NonSystem(messages) == []
    ensures r == LastIsNotUser <==>
            NonSystem(messages) != [] && NonSystem(messages)[|NonSystem(messages)| - 1].role != "user"
    ensures r.Split? ==> r.history + [Human(r.input)] == Spoken(messages)
    ensures r.Split? ==> Selection(messages, SaysSomething, AsSaid, r.history + [Human(r.input)])
  {
    hide Selection;
    SpokenIsSelection(messages);
    if messages == [] { return NoMessages; }
    var nonSystem := NonSystem(messages);
    if nonSystem == [] { return NoUserMessage; }
    var last := nonSystem[|nonSystem| - 1];
    if last.role != "user" { return LastIsNotUser; }
    var history: seq<ChatMessage> := [];
    for i := 0 to |nonSystem| - 1
      invariant history == Spoken(nonSystem[..i])
    {
      assert nonSystem[..i + 1][..i] == nonSystem[..i];
      var m := nonSystem[i];
      if m.role == "user" {
        history := history + [Human(m.content)];
      } else if m.role == "assistant" {
        history := history + [AI(m.content)];
      }
    }
    SystemIsSilent(messages);
    return Split.Split(history, last.content);
  }

  // ---------------------------------------------------------------- steps

  datatype Action = Action(tool: string, input: string)

  /** The two shapes of a step: an object with attributes, or a pair. */
  datatype Step = StepObject(action: Action, observation: string) | StepPair(first: Action, second: string)

  function UnpackStep(step: Step): (Action, string) {
    match step
    case StepObject(action, observation) => (action, observation)
    case StepPair(first, second) => (first, second)
  }

  datatype Call = Call(name: string, args: string)
  datatype Outcome = Outcome(name: string, result: string)

  function Shortened(text: string): (r: string)
    ensures r <= text
    ensures |r| == if |text| <= TOOL_OBSERVATION_MAX_CHARS then |text| else TOOL_OBSERVATION_MAX_CHARS
  {
    if |text| <= TOOL_OBSERVATION_MAX_CHARS then text else text[..TOOL_OBSERVATION_MAX_CHARS]
  }

  function CallOf(step: Step): Call {
    var (action, _) := UnpackStep(step);
    Call(action.tool, action.input)
  }

  function OutcomeOf(step: Step): Outcome {
    var (action, observation) := UnpackStep(step);
    Outcome(action.tool, Shortened(observation))
  }

  /** What a call and a result say of a step of either shape: the tool, its input, and the first
      2000 characters of its observation. */
  predicate Reports(step: Step, call: Call, outcome: Outcome) {
    var tool := if step.StepObject? then step.action.tool else step.first.tool;
    var input := if step.StepObject? then step.action.input else step.first.input;
    var text := if step.StepObject? then step.observation else step.second;
    && call.name == tool && call.args == input && outcome.name == tool
    && outcome.result == if |text| <= 2000 then text else text[..2000]
  }

  lemma StepReports(step: Step)
    ensures Reports(step, CallOf(step), OutcomeOf(step))
  {
    var text := if step.StepObject? then step.observation else step.second;
    assert Shortened(text) == text[..|Shortened(text)|];
  }

  method FlattenIntermediate(steps: seq<Step>) returns (calls: seq<Call>, results: seq<Outcome>)
    ensures |calls| == |results| == |steps|
    ensures forall i :: 0 <= i < |steps| ==> calls[i] == CallOf(steps[i]) && results[i] == OutcomeOf(steps[i])
    ensures forall i :: 0 <= i < |steps| ==> Reports(steps[i], calls[i], results[i])
  {
    forall i | 0 <= i < |steps| ensures Reports(steps[i], CallOf(steps[i]), OutcomeOf(steps[i])) {
      StepReports(steps[i]);
    }
    calls, results := [], [];
    for i := 0 to |steps|
      invariant |calls| == |results| == i
      invariant forall j :: 0 <= j < i ==> calls[j] == CallOf(steps[j]) && results[j] == OutcomeOf(steps[j])
    {
      var (action, observation) := UnpackStep(steps[i]);
      calls := calls + [Call(action.tool, action.input)];
      results := results + [Outcome(action.tool, Shortened(observation))];
    }
  }

  // ---------------------------------------------------------------- the stream

  datatype Answer = Text(text: string) | NotText

  /** The events of the wire. */
  datatype Event =
    | ToolCall(name: string, args: string)
    | ToolResult(name: string, result: string)
    | Done(answer: Answer)
    | Error(message: string)
    | Other

  /** An event of langchain's executor: any of the two keys the loop looks at may be present. */
  datatype ExecutorEvent = ExecutorEvent(steps: Option<seq<Step>>, output: Option<Answer>)

  function StepEvents(steps: seq<Step>): seq<Event> {
    if steps == [] then []
    else
      var step := steps[|steps| - 1];
      StepEvents(steps[..|steps| - 1]) +
      [ToolCall(CallOf(step).name, CallOf(step).args), ToolResult(OutcomeOf(step).name, OutcomeOf(step).result)]
  }

  function EventsOf(e: ExecutorEvent): seq<Event> {
    if e.steps.Some? then StepEvents(e.steps.value)
    else if e.output.Some? then [Done(e.output.value)]
    else []
  }

  function Streamed(events: seq<ExecutorEvent>): seq<Event> {
    if events == [] then []
    else Streamed(events[..|events| - 1]) + EventsOf(events[|events| - 1])
  }

  lemma NothingYet()
    ensures StepEvents([]) == [] && Streamed([]) == []
  {
  }

  lemma OneMoreStep(steps: seq<Step>, k: nat)
    requires k < |steps|
    ensures StepEvents(steps[..k + 1]) ==
            StepEvents(steps[..k]) + [ToolCall(CallOf(steps[k]).name, CallOf(steps[k]).args),
                                      ToolResult(OutcomeOf(steps[k]).name, OutcomeOf(steps[k]).result)]
  {
    assert steps[..k + 1][..k] == steps[..k];
  }

  lemma OneMoreEvent(events: seq<ExecutorEvent>, i: nat)
    requires i < |events|
    ensures Streamed(events[..i + 1]) == Streamed(events[..i]) + EventsOf(events[i])
  {
    assert events[..i + 1][..i] == events[..i];
  }

  /** Yields the events of a run and passes on its exception, if any. */
  method Stream(messages: seq<H.Message>, events: seq<ExecutorEvent>, failure: Option<string>)
    returns (out: seq<Event>, error: Option<string>)
    ensures NonSystem(messages) != [] && NonSystem(messages)[|NonSystem(messages)| - 1].role == "user" ==>
              out == Streamed(events) && error == failure
    ensures !(NonSystem(messages) != [] && NonSystem(messages)[|NonSystem(messages)| - 1].role == "user") ==>
              out == [] && error.Some?
  {
    hide StepEvents, Streamed, NonSystem, Spoken, Selection;
    assert Streamed(events[..0]) == [] by { NothingYet(); }
    out := [];
    var split := SplitMessages(messages);
    match split {
      case NoMessages => return out, Some("messages must not be empty");
      case NoUserMessage => return out, Some("at least one user message is required");
      case LastIsNotUser => return out, Some("the last message must be a user message");
      case Split(_, _) =>
    }
    for i := 0 to |events|
      invariant out == Streamed(events[..i])
    {
      OneMoreEvent(events, i);
      var event := events[i];
      if event.steps.Some? {
        var steps := event.steps.value;
        ghost var before := out;
        assert StepEvents(steps[..0]) == [] by { NothingYet(); }
        for k := 0 to |steps|
          invariant out == before + StepEvents(steps[..k])
        {
          OneMoreStep(steps, k);
          var (action, observation) := UnpackStep(steps[k]);
          out := out + [ToolCall(action.tool, action.input)];
          out := out + [ToolResult(action.tool, Shortened(observation))];
        }
        assert steps[..|steps|] == steps;
      } else if event.output.Some? {
        out := out + [Done(event.output.value)];
      }
    }
    assert events[..|events|] == events;
    return out, failure;
  }

  // ---------------------------------------------------------------- stream and run agree

  /** What the events contribute, in order. */
  function Gathered<T>(events: seq<Event>, part: Event -> seq<T>): seq<T> {
    if events == [] then []
    else Gathered(events[..|events| - 1], part) + part(events[|events| - 1])
  }

  function CallIn(e: Event): seq<Call> {
    if e.ToolCall? then [Call(e.name, e.args)] else []
  }

  function OutcomeIn(e: Event): seq<Outcome> {
    if e.ToolResult? then [Outcome(e.name, e.result)] else []
  }

  function AnswerIn(e: Event): seq<Answer> {
    if e.Done? then [e.answer] else []
  }

  function Calls(events: seq<Event>): seq<Call> {
    Gathered(events, CallIn)
  }

  function Outcomes(events: seq<Event>): seq<Outcome> {
    Gathered(events, OutcomeIn)
  }

  function Answers(events: seq<Event>): seq<Answer> {
    Gathered(events, AnswerIn)
  }

  lemma GatheredOne<T>(e: Event, part: Event -> seq<T>)
    ensures Gathered([e], part) == part(e)
  {
    assert [e][..0] == [];
  }

  lemma OneProjected(e: Event)
    ensures Calls([e]) == CallIn(e) && Outcomes([e]) == OutcomeIn(e) && Answers([e]) == AnswerIn(e)
  {
    GatheredOne(e, CallIn);
    GatheredOne(e, OutcomeIn);
    GatheredOne(e, AnswerIn);
  }

  lemma {:induction false} GatheredAppend<T>(a: seq<Event>, b: seq<Event>, part: Event -> seq<T>)
    ensures Gathered(a + b, part) == Gathered(a, part) + Gathered(b, part)
    decreases |b|
  {
    if b == [] {
      assert a + b == a;
    } else {
      GatheredAppend(a, b[..|b| - 1], part);
      assert (a + b)[..|a + b| - 1] == a + b[..|b| - 1];
    }
  }

  lemma ProjectionsAppend(a: seq<Event>, b: seq<Event>)
    ensures Calls(a + b) == Calls(a) + Calls(b)
    ensures Outcomes(a + b) == Outcomes(a) + Outcomes(b)
    ensures Answers(a + b) == Answers(a) + Answers(b)
  {
    GatheredAppend(a, b, CallIn);
    GatheredAppend(a, b, OutcomeIn);
    GatheredAppend(a, b, AnswerIn);
  }

  /** The two lists of `run`. */
  function CallsOf(steps: seq<Step>): seq<Call> {
    seq(|steps|, i requires 0 <= i < |steps| => CallOf(steps[i]))
  }

  function OutcomesOf(steps: seq<Step>): seq<Outcome> {
    seq(|steps|, i requires 0 <= i < |steps| => OutcomeOf(steps[i]))
  }

  /** All the steps of a run, however its executor grouped them into events. */
  function StepsOf(events: seq<ExecutorEvent>): seq<Step> {
    if events == [] then []
    else
      var e := events[|events| - 1];
      StepsOf(events[..|events| - 1]) + if e.steps.Some? then e.steps.value else []
  }

  lemma ListsAppend(a: seq<Step>, b: seq<Step>)
    ensures CallsOf(a + b) == CallsOf(a) + CallsOf(b)
    ensures OutcomesOf(a + b) == OutcomesOf(a) + OutcomesOf(b)
  {
  }

  /** The two events of one step. */
  lemma OneStep(step: Step)
    ensures var pair := [ToolCall(CallOf(step).name, CallOf(step).args),
                         ToolResult(OutcomeOf(step).name, OutcomeOf(step).result)];
            && Calls(pair) == CallsOf([step]) && Outcomes(pair) == OutcomesOf([step])
            && Paired(pair) && Answers(pair) == []
  {
    var call := ToolCall(CallOf(step).name, CallOf(step).args);
    var result := ToolResult(OutcomeOf(step).name, OutcomeOf(step).result);
    ProjectionsAppend([call], [result]);
    OneProjected(call);
    OneProjected(result);
    assert [call] + [result] == [call, result];
    assert CallsOf([step]) == [CallOf(step)] && OutcomesOf([step]) == [OutcomeOf(step)];
  }

  lemma {:induction false} StepProjections(steps: seq<Step>)
    ensures Calls(StepEvents(steps)) == CallsOf(steps)
    ensures Outcomes(StepEvents(steps)) == OutcomesOf(steps)
    ensures Paired(StepEvents(steps))
    ensures Answers(StepEvents(steps)) == []
  {
    hide CallsOf, OutcomesOf, CallOf, OutcomeOf, Calls, Outcomes, Paired, Answers;
    if steps == [] {
      NoSteps();
    } else {
      var before, step := steps[..|steps| - 1], steps[|steps| - 1];
      StepProjections(before);
      OneStep(step);
      var pair := [ToolCall(CallOf(step).name, CallOf(step).args),
                   ToolResult(OutcomeOf(step).name, OutcomeOf(step).result)];
      ProjectionsAppend(StepEvents(before), pair);
      PairedAppend(StepEvents(before), pair);
      ListsAppend(before, [step]);
      assert steps == before + [step];
    }
  }

  lemma NoSteps()
    ensures Calls([]) == CallsOf([]) == [] && Outcomes([]) == OutcomesOf([]) == [] && Paired([]) && Answers([]) == []
  {
  }

  /** Every call is directly followed by its result, and no result stands alone. */
  predicate Paired(events: seq<Event>) {
    && (forall i :: 0 <= i < |events| && events[i].ToolCall? ==>
                      i + 1 < |events| && events[i + 1].ToolResult? && events[i + 1].name == events[i].name)
    && (forall i :: 0 <= i < |events| && events[i].ToolResult? ==> i > 0 && events[i - 1].ToolCall?)
  }

  lemma PairedAppend(a: seq<Event>, b: seq<Event>)
    requires Paired(a) && Paired(b)
    ensures Paired(a + b)
  {
    var c := a + b;
    forall i | 0 <= i < |c| && c[i].ToolCall?
      ensures i + 1 < |c| && c[i + 1].ToolResult? && c[i + 1].name == c[i].name
    {
      if i < |a| { assert a[i].ToolCall?; } else { assert b[i - |a|].ToolCall?; }
    }
    forall i | 0 <= i < |c| && c[i].ToolResult? ensures i > 0 && c[i - 1].ToolCall? {
      if i < |a| { assert a[i].ToolResult?; } else { assert b[i - |a|].ToolResult?; }
    }
  }

  /** However the executor groups its steps into events, the calls and the results of the stream
      are those `run` returns for all the steps, in order, each result directly after its call. */
  lemma {:induction false} StreamAgreesWithRun(events: seq<ExecutorEvent>)
    ensures Calls(Streamed(events)) == CallsOf(StepsOf(events))
    ensures Outcomes(Streamed(events)) == OutcomesOf(StepsOf(events))
    ensures Paired(Streamed(events))
  {
    hide CallsOf, OutcomesOf, Calls, Outcomes, Paired, EventsOf;
    if events == [] {
      NoSteps();
    } else {
      var before, e := events[..|events| - 1], events[|events| - 1];
      StreamAgreesWithRun(before);
      EventProjections(e);
      ProjectionsAppend(Streamed(before), EventsOf(e));
      PairedAppend(Streamed(before), EventsOf(e));
      ListsAppend(StepsOf(before), if e.steps.Some? then e.steps.value else []);
    }
  }

  lemma EventProjections(e: ExecutorEvent)
    ensures var steps := if e.steps.Some? then e.steps.value else [];
            && Calls(EventsOf(e)) == CallsOf(steps) && Outcomes(EventsOf(e)) == OutcomesOf(steps)
            && Paired(EventsOf(e))
  {
    hide Calls, Outcomes, CallsOf, OutcomesOf, Paired;
    NoSteps();
    if e.steps.Some? {
      StepProjections(e.steps.value);
    } else if e.output.Some? {
      AnAnswer(e.output.value);
    }
  }

  lemma AnAnswer(answer: Answer)
    ensures Calls([Done(answer)]) == [] && Outcomes([Done(answer)]) == [] && Paired([Done(answer)])
  {
    OneProjected(Done(answer));
  }

  /** All the steps, by position: those of an event stand together, after those of the events
      before it; an event without steps adds none. */
  lemma {:induction false} StepsByPosition(events: seq<ExecutorEvent>, i: nat)
    requires i < |events|
    ensures var steps, n := StepsOf(events), |StepsOf(events[..i])|;
            match events[i].steps
            case Some(own) =>
              n + |own| <= |steps| && steps[n..n + |own|] == own && |StepsOf(events[..i + 1])| == n + |own|
            case None => StepsOf(events[..i + 1]) == StepsOf(events[..i])
    ensures StepsOf(events[..|events|]) == StepsOf(events)
    decreases |events|
  {
    assert events[..|events|] == events;
    var before := events[..|events| - 1];
    if i < |events| - 1 {
      StepsByPosition(before, i);
      assert before[..i] == events[..i] && before[..i + 1] == events[..i + 1];
    } else {
      assert events[..i + 1] == events;
    }
  }

  /** What the browser gets for the steps, by position: two events each, which report it. */
  lemma StreamedByPosition(events: seq<ExecutorEvent>, i: nat)
    requires i < |StepsOf(events)|
    ensures var step, calls, results := StepsOf(events)[i], Calls(Streamed(events)), Outcomes(Streamed(events));
            |calls| == |results| == |StepsOf(events)| && Reports(step, calls[i], results[i])
  {
    StreamAgreesWithRun(events);
    StepReports(StepsOf(events)[i]);
  }

  /** The outputs of the events that carry no steps; an output beside steps, even beside an empty
      list of them, is not announced. */
  function Outputs(events: seq<ExecutorEvent>): seq<Answer> {
    if events == [] then []
    else
      var e := events[|events| - 1];
      Outputs(events[..|events| - 1]) + if e.steps.None? && e.output.Some? then [e.output.value] else []
  }

  /** The stream announces exactly those outputs, in order, and sends no event of another kind. */
  lemma {:induction false} AnswersAreOutputs(events: seq<ExecutorEvent>)
    ensures Answers(Streamed(events)) == Outputs(events)
    ensures forall e :: e in Streamed(events) ==> e.ToolCall? || e.ToolResult? || e.Done?
  {
    if events != [] {
      var before, e := events[..|events| - 1], events[|events| - 1];
      AnswersAreOutputs(before);
      ProjectionsAppend(Streamed(before), EventsOf(e));
      if e.steps.Some? {
        StepProjections(e.steps.value);
        StepKinds(e.steps.value);
      }
    }
  }

  predicate Announces(e: ExecutorEvent) {
    e.steps.None? && e.output.Some?
  }

  function OutputOf(e: ExecutorEvent): Answer {
    if e.output.Some? then e.output.value else NotText
  }

  lemma {:induction false} OutputsAreSelection(events: seq<ExecutorEvent>)
    ensures Selection(events, Announces, OutputOf, Outputs(events))
  {
    hide Selection;
    if events == [] {
      NoSelection(Announces, OutputOf);
    } else {
      var before, e := events[..|events| - 1], events[|events| - 1];
      OutputsAreSelection(before);
      SelectionMore(before, e, Announces, OutputOf, Outputs(before));
      assert before + [e] == events;
    }
  }

  lemma {:induction false} StepKinds(steps: seq<Step>)
    ensures forall e :: e in StepEvents(steps) ==> e.ToolCall? || e.ToolResult?
  {
    if steps != [] { StepKinds(steps[..|steps| - 1]); }
  }
}

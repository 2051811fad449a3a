/** The single-provider chat loop of the entry script (main.py): a Gemini
    conversation kept as a flat list of strings, user input and reply in
    turn, trimmed to the last ten exchanges. The lines typed at the prompt
    are a sequence; the Gemini SDK is the `sdk` parameter. */
module Terminal {
  import opened Wrappers
  import opened PyText
  import opened PySlice
  import opened Dicts
  import opened Formatters
  import opened Clients
  import Sessions

  const InitialModel: string := "gemini-2.5-flash"

  /** The list is cut to its last 20 entries, ten exchanges. */
  const HistoryWindow: int := 20

  const ModelNames: seq<string> :=
    ["gemini-2.5-flash", "gemini-2.0-flash", "gemini-1.5-flash", "gemini-1.5-pro", "gemini-2.0-flash-exp"]

  /** `get_available_models`: the five models numbered from "1". */
  function GetAvailableModels(): (models: Dict<string>)
    ensures |models| == |ModelNames| == 5
    ensures forall i :: 0 <= i < 5 ==> Get(models, NatToString(i + 1)) == Some(ModelNames[i])
  {
    var models := Enumerate(ModelNames);
    forall i | 0 <= i < 5 ensures Get(models, NatToString(i + 1)) == Some(ModelNames[i]) {
      EnumerateSelects(ModelNames, i);
    }
    models
  }

  /** `change_model`: the model stays one of the listed five, or the
      current one. */
  function ChangeModel(current: string, answer: string): (model: string)
    ensures model == current || model in ModelNames
  {
    var res := Resolve(GetAvailableModels(), answer);
    if res.Selected? then
      EnumeratePicksEntry(ModelNames, Strip(answer));
      res.value
    else current
  }

  /** A listed number picks that model; anything else, 'cancel' included,
      keeps the current one. */
  lemma ChangeModelResolves(current: string, answer: string)
    ensures Strip(answer) in Keys(GetAvailableModels()) ==>
      Get(GetAvailableModels(), Strip(answer)) == Some(ChangeModel(current, answer))
    ensures Strip(answer) !in Keys(GetAvailableModels()) ==> ChangeModel(current, answer) == current
  {
  }

  /** Typing the number i + 1 selects the i-th model. */
  lemma NumberedModelChoice(current: string, i: nat)
    requires i < 5
    ensures ChangeModel(current, NatToString(i + 1)) == ModelNames[i]
  {
    var answer := NatToString(i + 1);
    StripUnchanged(answer);
    assert Get(GetAvailableModels(), answer) == Some(ModelNames[i]);
    assert Resolve(GetAvailableModels(), answer) == Selected(ModelNames[i]);
  }

  /** What a line typed at the chat prompt asks for. */
  datatype LoopCommand = Quit | ClearHistory | ShowHelp | PickModel | Skip | Send(text: string)

  /** What the loop makes of a line: a command word, an empty line to skip,
      or a message to send. A message is the stripped line, never empty. */
  function ClassifyLoopInput(line: string): (cmd: LoopCommand)
    ensures cmd.Send? ==> cmd.text == Strip(line) && cmd.text != ""
  {
    var s := Strip(line);
    var command := Lower(s);
    if command == "quit" then Quit
    else if command == "clear" then ClearHistory
    else if command == "help" then ShowHelp
    else if command == "model" then PickModel
    else if s == "" then Skip
    else Send(s)
  }

  /** Commands are matched on the stripped line in lower case; an empty line
      is skipped; anything else is sent, stripped but in its own case. */
  lemma ClassifyLoopInputCases(line: string)
    ensures var cmd := ClassifyLoopInput(line); var s := Strip(line);
      (cmd == Quit <==> Lower(s) == "quit") &&
      (cmd == ClearHistory <==> Lower(s) == "clear") &&
      (cmd == ShowHelp <==> Lower(s) == "help") &&
      (cmd == PickModel <==> Lower(s) == "model") &&
      (cmd == Skip <==> s == "") &&
      (cmd.Send? <==> s != "" && Lower(s) !in ["quit", "clear", "help", "model"])
  {
    var s := Strip(line);
    var command := Lower(s);
    if s == "" {
      assert command == "";
    } else {
      assert |command| == |s| > 0;
    }
  }

  /** The part of one chunk the loop keeps: its `text` when non-empty. */
  function ChunkText(chunk: Chunk): string {
    if CarriesText(chunk) then chunk.text.value else ""
  }

  /** The reply text the loop gathers from a stream. */
  function StreamText(stream: seq<Chunk>): string
  {
    if stream == [] then ""
    else StreamText(stream[..|stream| - 1]) + ChunkText(stream[|stream| - 1])
  }

  /** On Gemini chunks, which have no `choices`, the loop gathers exactly
      what the shared stream formatter gathers. */
  lemma {:induction false} StreamTextIsConcatForGemini(stream: seq<Chunk>)
    requires forall i :: 0 <= i < |stream| ==> stream[i].choices.None?
    ensures StreamText(stream) == Concat(stream)
  {
    if stream != [] {
      StreamTextIsConcatForGemini(stream[..|stream| - 1]);
    }
  }

  /** The SDK as the loop sees it: the answer to the n-th call, counted from
      0, for the contents and the model. None means the call raised, before
      or during the stream. Calls are numbered because a message that failed
      may be typed again and answered the second time. */
  type Sdk = (nat, Request, string) -> Option<seq<Chunk>>

  /** The history after one message is sent: unchanged when the SDK raised;
      otherwise the input and the gathered reply are appended, even an empty
      reply, and the list is cut to its last twenty entries. */
  function Sent(history: seq<string>, userInput: string, outcome: Option<seq<Chunk>>): seq<string>
  {
    match outcome
    case None => history
    case Some(stream) => Last(history + [userInput, StreamText(stream)], HistoryWindow)
  }

  /** The loop's state: the history, the current model and the number of SDK
      calls made so far. */
  datatype LoopState = LoopState(history: seq<string>, model: string, calls: nat)

  /** The state after one message is sent: the call uses the history plus
      the input as its contents. */
  function SendStep(st: LoopState, text: string, sdk: Sdk): LoopState
  {
    var outcome := sdk(st.calls, GeminiContents(st.history + [text]), st.model);
    st.(history := Sent(st.history, text, outcome), calls := st.calls + 1)
  }

  /** `chat_loop` on the remaining lines; the loop ends when they run out. */
  function Run(st: LoopState, lines: seq<string>, sdk: Sdk): LoopState
    decreases |lines|, 0
  {
    if lines == [] then st
    else RunCommand(st, ClassifyLoopInput(lines[0]), lines[1..], sdk)
  }

  /** One command of the loop, followed by the rest of the run. 'model'
      takes the next line as its answer. */
  function RunCommand(st: LoopState, cmd: LoopCommand, rest: seq<string>, sdk: Sdk): LoopState
    decreases |rest|, 1
  {
    match cmd
    case Quit => st
    case ClearHistory => Run(st.(history := []), rest, sdk)
    case ShowHelp => Run(st, rest, sdk)
    case Skip => Run(st, rest, sdk)
    case PickModel =>
      if rest == [] then st
      else Run(st.(model := ChangeModel(st.model, rest[0])), rest[1..], sdk)
    case Send(text) => Run(SendStep(st, text, sdk), rest, sdk)
  }

  /** The history the loop keeps: at most twenty entries, in pairs, each pair
      opened by a non-empty user input. */
  ghost predicate WellFormed(history: seq<string>) {
    |history| <= HistoryWindow && |history| % 2 == 0 &&
    forall j :: 0 <= j < |history| && j % 2 == 0 ==> history[j] != ""
  }

  /** Appending an exchange opened by a non-empty input and cutting to the
      window keeps the history well formed. */
  lemma AppendExchangeKeepsWellFormed(history: seq<string>, userInput: string, reply: string)
    requires WellFormed(history) && userInput != ""
    ensures WellFormed(Last(history + [userInput, reply], HistoryWindow))
  {
    var h := history + [userInput, reply];
    var r := Last(h, HistoryWindow);
    if |h| > HistoryWindow {
      assert |history| == HistoryWindow;
      assert r == h[2..];
    }
    var d := |h| - |r|;
    assert d == 0 || d == 2;
    forall j | 0 <= j < |r| && j % 2 == 0 ensures r[j] != "" {
      assert r[j] == h[d + j];
      assert (d + j) % 2 == 0;
      if d + j < |history| {
        assert h[d + j] == history[d + j];
      }
    }
  }

  lemma SentKeepsWellFormed(history: seq<string>, userInput: string, outcome: Option<seq<Chunk>>)
    requires WellFormed(history) && userInput != ""
    ensures WellFormed(Sent(history, userInput, outcome))
  {
    if outcome.Some? {
      AppendExchangeKeepsWellFormed(history, userInput, StreamText(outcome.value));
    }
  }

  /** Every run keeps the history well formed and the model one of the
      listed five. */
  lemma {:induction false} RunKeepsWellFormed(st: LoopState, lines: seq<string>, sdk: Sdk)
    requires WellFormed(st.history) && st.model in ModelNames
    ensures var r := Run(st, lines, sdk); WellFormed(r.history) && r.model in ModelNames
    decreases |lines|
  {
    if lines != [] {
      var rest := lines[1..];
      match ClassifyLoopInput(lines[0])
      case Quit =>
      case ClearHistory => RunKeepsWellFormed(st.(history := []), rest, sdk);
      case ShowHelp => RunKeepsWellFormed(st, rest, sdk);
      case Skip => RunKeepsWellFormed(st, rest, sdk);
      case PickModel =>
        if rest != [] {
          RunKeepsWellFormed(st.(model := ChangeModel(st.model, rest[0])), rest[1..], sdk);
        }
      case Send(text) =>
        SentKeepsWellFormed(st.history, text, sdk(st.calls, GeminiContents(st.history + [text]), st.model));
        RunKeepsWellFormed(SendStep(st, text, sdk), rest, sdk);
    }
  }

  /** A message makes one SDK call and the run goes on with the next line. */
  lemma RunSend(st: LoopState, cmd: LoopCommand, rest: seq<string>, sdk: Sdk)
    requires cmd.Send?
    ensures RunCommand(st, cmd, rest, sdk) == Run(SendStep(st, cmd.text, sdk), rest, sdk)
  {
  }

  /** A message whose call raised can be typed again: the history is as
      before, and the second attempt is a new call, whose answer decides the
      outcome. */
  lemma FailedSendCanBeRetried(st: LoopState, line: string, sdk: Sdk)
    requires ClassifyLoopInput(line).Send?
    requires sdk(st.calls, GeminiContents(st.history + [ClassifyLoopInput(line).text]), st.model).None?
    ensures var text := ClassifyLoopInput(line).text;
      Run(st, [line, line], sdk) ==
        LoopState(Sent(st.history, text, sdk(st.calls + 1, GeminiContents(st.history + [text]), st.model)),
                  st.model, st.calls + 2)
  {
    var cmd := ClassifyLoopInput(line);
    var first := SendStep(st, cmd.text, sdk);
    assert first == st.(calls := st.calls + 1);
    assert [line, line][0] == line && [line, line][1..] == [line];
    assert Run(st, [line, line], sdk) == RunCommand(st, cmd, [line], sdk);
    RunSend(st, cmd, [line], sdk);
    assert [line][0] == line && [line][1..] == [];
    assert Run(first, [line], sdk) == RunCommand(first, cmd, [], sdk);
    RunSend(first, cmd, [], sdk);
  }

  /** With a full history, an answered message drops the oldest exchange. */
  lemma FullHistoryDropsOldestExchange(history: seq<string>, userInput: string, stream: seq<Chunk>)
    requires |history| == HistoryWindow
    ensures Sent(history, userInput, Some(stream)) == history[2..] + [userInput, StreamText(stream)]
  {
    var h := history + [userInput, StreamText(stream)];
    assert h[2..] == history[2..] + [userInput, StreamText(stream)];
  }

  /** This loop stores an answered but empty reply, and the session manager
      does not: given the same silent stream the two histories differ. */
  lemma EmptyReplyPolicies(history: seq<string>, messages: seq<ChatModels.Message>, userInput: string, maxLen: int)
    requires |history| + 2 <= HistoryWindow
    ensures Sent(history, userInput, Some([])) == history + [userInput, ""]
    ensures Sessions.Exchange(messages, true, Reply(Some([])), userInput, maxLen) == (Sessions.NoResponse, messages)
  {
    var h := history + [userInput, StreamText([])];
    assert Last(h, HistoryWindow) == h[0..];
  }

  /** Sends one message as the n-th SDK call: asks for a stream, gathers the
      text of its chunks, then updates the history. */
  method SendMessage(history: seq<string>, model: string, userInput: string, sdk: Sdk, call: nat)
    returns (newHistory: seq<string>)
    ensures newHistory == Sent(history, userInput, sdk(call, GeminiContents(history + [userInput]), model))
  {
    var contents := history + [userInput];
    var outcome := sdk(call, GeminiContents(contents), model);
    if outcome.None? {
      return history;
    }
    var stream := outcome.value;
    var fullResponse := "";
    for i := 0 to |stream|
      invariant fullResponse == StreamText(stream[..i])
    {
      assert stream[..i + 1][..i] == stream[..i];
      if CarriesText(stream[i]) {
        fullResponse := fullResponse + stream[i].text.value;
      }
    }
    assert stream[..|stream|] == stream;
    newHistory := Last(history + [userInput, fullResponse], HistoryWindow);
  }

  /** One pass of the `while True` body of `chat_loop` on the i-th line:
      'quit', or 'model' with no line left to answer it, ends the loop;
      otherwise the loop goes on at `next` in a state from which the rest of
      the run is the same as before. */
  method LoopStep(history: seq<string>, model: string, calls: nat, lines: seq<string>, i: nat, sdk: Sdk)
    returns (done: bool, history': seq<string>, model': string, calls': nat, next: nat)
    requires i < |lines|
    ensures i < next <= |lines|
    ensures var before := Run(LoopState(history, model, calls), lines[i..], sdk);
      if done then LoopState(history', model', calls') == before
      else Run(LoopState(history', model', calls'), lines[next..], sdk) == before
  {
    var cmd := ClassifyLoopInput(lines[i]);
    ghost var st := LoopState(history, model, calls);
    assert lines[i..][0] == lines[i] && lines[i..][1..] == lines[i + 1..];
    assert Run(st, lines[i..], sdk) == RunCommand(st, cmd, lines[i + 1..], sdk);
    done, history', model', calls', next := false, history, model, calls, i + 1;
    match cmd
    case Quit =>
      done := true;
    case ClearHistory =>
      history' := [];
    case ShowHelp =>
    case Skip =>
    case PickModel =>
      if i + 1 == |lines| {
        done := true;
      } else {
        assert lines[i + 1..][0] == lines[i + 1] && lines[i + 1..][1..] == lines[i + 2..];
        model' := ChangeModel(model, lines[i + 1]);
        next := i + 2;
      }
    case Send(text) =>
      history' := SendMessage(history, model, text, sdk, calls);
      calls' := calls + 1;
      assert LoopState(history', model', calls') == SendStep(st, text, sdk);
  }

  /** `chat_loop`: reads the lines one by one until 'quit' or the end of the
      input, starting from an empty history and the initial model. */
  method ChatLoop(lines: seq<string>, sdk: Sdk) returns (history: seq<string>, model: string)
    ensures var final := Run(LoopState([], InitialModel, 0), lines, sdk);
      history == final.history && model == final.model
    ensures WellFormed(history) && model in ModelNames
  {
    history := [];
    model := InitialModel;
    var calls := 0;
    var i := 0;
    var done := false;
    ghost var final := Run(LoopState([], InitialModel, 0), lines, sdk);
    assert lines[0..] == lines;
    while !done && i < |lines|
      invariant 0 <= i <= |lines|
      invariant done ==> LoopState(history, model, calls) == final
      invariant !done ==> Run(LoopState(history, model, calls), lines[i..], sdk) == final
      decreases |lines| - i
    {
      done, history, model, calls, i := LoopStep(history, model, calls, lines, i, sdk);
    }
    assert !done ==> lines[i..] == [];
    RunKeepsWellFormed(LoopState([], InitialModel, 0), lines, sdk);
  }
}

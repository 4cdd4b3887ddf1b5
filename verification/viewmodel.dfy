/**
 * `MainViewModel`: the holder of the current `UiState` and the scan pipeline
 * that moves it from `Captured` through `Loading` to a resting state.
 */
module ScanViewModel {
  import opened Options
  import opened Media
  import opened UiStates

  const FAILED_TO_GENERATE: string := "Failed to generate content"
  const UNKNOWN_ERROR: string := "Unknown error"

  /** The step of the pipeline that threw: image compression, bitmap decoding, or the model call. */
  datatype Stage = Compress | Decode | Generate

  /**
   * What the external work of one scan came to. Either every call returned and
   * the model's response has an optional `text`, or one of the calls threw an
   * exception whose `localizedMessage` may be null.
   */
  datatype Outcome =
    | Generated(text: Option<string>)
    | Thrown(stage: Stage, localizedMessage: Option<string>)

  /** The state a scan run ends in, given what the external calls did. */
  function TerminalState(o: Outcome): (s: UiState)
    ensures s.IsTerminal()
    ensures s.Success? <==> o.Generated? && o.text.Some?
    ensures o.Generated? && o.text.Some? ==> s == Success(o.text.value)
    ensures o.Generated? && o.text.None? ==> s == Error(FAILED_TO_GENERATE)
    ensures o.Thrown? && o.localizedMessage.Some? ==> s == Error(o.localizedMessage.value)
    ensures o.Thrown? && o.localizedMessage.None? ==> s == Error(UNKNOWN_ERROR)
  {
    match o
    case Generated(text) =>
      if text.Some? then Success(text.value) else Error(FAILED_TO_GENERATE)
    case Thrown(_, message) =>
      Error(message.GetOr(UNKNOWN_ERROR))
  }

  /**
   * Which call threw does not matter, only its message; a response whose text
   * is the empty string still ends in `Success`, not `Error`; and an exception
   * whose message is "Failed to generate content" cannot be told apart from a
   * response without text.
   */
  lemma TerminalStateLaws(a: Stage, b: Stage, message: Option<string>)
    ensures TerminalState(Thrown(a, message)) == TerminalState(Thrown(b, message))
    ensures TerminalState(Generated(Some(""))) == Success("")
    ensures TerminalState(Thrown(a, Some(FAILED_TO_GENERATE))) == TerminalState(Generated(None))
  {
  }

  /**
   * `onImageTaken(path, prompt)`: the states it publishes, in order. The prompt
   * only reaches the model call, so it is part of the outcome here.
   */
  function OnImageTaken(path: string, o: Outcome): (published: seq<UiState>)
    ensures |published| == 3
    ensures published[0] == Captured(ToUri(path))
    ensures published[1] == Loading
    ensures published[2].IsTerminal()
    ensures published[2] == TerminalState(o)
  {
    [Captured(ToUri(path)), Loading, TerminalState(o)]
  }

  /** The state the holder is created with. */
  const INITIAL_STATE: UiState := Initial

  /** The two things the view model is asked to do. */
  datatype Event = ImageTaken(path: string, outcome: Outcome) | RetakeScan

  /** The states one event publishes, in order; `onRetakeScan` publishes `Initial`. */
  function Publish(e: Event): (published: seq<UiState>)
    ensures |published| > 0
    ensures e.RetakeScan? ==> published == [Initial]
    ensures e.ImageTaken? ==> published == OnImageTaken(e.path, e.outcome)
  {
    match e
    case ImageTaken(path, o) => OnImageTaken(path, o)
    case RetakeScan => [Initial]
  }

  /**
   * The holder's value after one event. Neither operation reads the current
   * state, so the result does not depend on it.
   */
  function Step(s: UiState, e: Event): (t: UiState)
    ensures t == Publish(e)[|Publish(e)| - 1]
    ensures e.RetakeScan? ==> t == Initial
    ensures e.ImageTaken? ==> t == TerminalState(e.outcome)
  {
    match e
    case ImageTaken(_, o) => TerminalState(o)
    case RetakeScan => Initial
  }

  /** The holder's value after a sequence of events, starting from `start`. */
  function Run(start: UiState, events: seq<Event>): (s: UiState)
    decreases |events|
  {
    if |events| == 0 then start
    else Step(Run(start, events[..|events| - 1]), events[|events| - 1])
  }

  /** Every state published, in order, over a sequence of events. */
  function Trace(events: seq<Event>): (trace: seq<UiState>)
    decreases |events|
  {
    if |events| == 0 then []
    else Trace(events[..|events| - 1]) + Publish(events[|events| - 1])
  }

  /** A `Loading` entry always sits between a `Captured` and a resting state. */
  ghost predicate LoadingIsBracketed(trace: seq<UiState>)
  {
    forall i :: 0 <= i < |trace| && trace[i] == Loading ==>
      0 < i && trace[i - 1].Captured? && i + 1 < |trace| && trace[i + 1].IsTerminal()
  }

  /**
   * When scans run one at a time to completion, each `Loading` is assigned
   * right after a `Captured` and right before a `Success` or `Error`.
   */
  lemma {:induction false} TraceBracketsLoading(events: seq<Event>)
    ensures LoadingIsBracketed(Trace(events))
    decreases |events|
  {
    if |events| > 0 {
      var prefix := events[..|events| - 1];
      var e := events[|events| - 1];
      TraceBracketsLoading(prefix);
      var front := Trace(prefix);
      var back := Publish(e);
      var t := Trace(events);
      assert t == front + back;
      forall i | 0 <= i < |t| && t[i] == Loading
        ensures 0 < i && t[i - 1].Captured? && i + 1 < |t| && t[i + 1].IsTerminal()
      {
        if i < |front| {
          assert front[i] == Loading;
        } else {
          assert back[i - |front|] == Loading;
          assert e.ImageTaken? && i - |front| == 1;
        }
      }
    }
  }

  /** The last published state is the holder's current value. */
  lemma {:induction false} TraceEndsInCurrentState(events: seq<Event>)
    requires |events| > 0
    ensures |Trace(events)| > 0
    ensures Trace(events)[|Trace(events)| - 1] == Run(INITIAL_STATE, events)
  {
    var prefix := events[..|events| - 1];
    var e := events[|events| - 1];
    assert Trace(events) == Trace(prefix) + Publish(e);
  }

  /** How many of the events are scans. */
  function ScanCount(events: seq<Event>): (n: nat)
    decreases |events|
  {
    if |events| == 0 then 0
    else ScanCount(events[..|events| - 1]) + (if events[|events| - 1].ImageTaken? then 1 else 0)
  }

  /** A retake publishes one state and a scan three, so a run publishes one per event plus two per scan. */
  lemma {:induction false} TraceLength(events: seq<Event>)
    ensures |Trace(events)| == |events| + 2 * ScanCount(events)
    ensures |events| <= |Trace(events)| <= 3 * |events|
    decreases |events|
  {
    if |events| > 0 {
      TraceLength(events[..|events| - 1]);
    }
  }

  /**
   * `onRetakeScan` returns to `Initial` from any state and is idempotent, and a
   * completed scan followed by a retake restores exactly the initial state.
   */
  lemma RetakeRestoresInitial(s: UiState, path: string, o: Outcome)
    ensures Step(s, RetakeScan) == INITIAL_STATE
    ensures Step(Step(s, RetakeScan), RetakeScan) == Step(s, RetakeScan)
    ensures Run(INITIAL_STATE, [ImageTaken(path, o), RetakeScan]) == INITIAL_STATE
  {
    var events := [ImageTaken(path, o), RetakeScan];
    assert events[..1] == [ImageTaken(path, o)];
    assert events[..1][..0] == [];
  }

  /**
   * The holder driven by a sequence of events, one at a time as the main
   * thread and the scan coroutine would set it: returns the final value and
   * every value published on the way.
   */
  method RunSession(events: seq<Event>) returns (state: UiState, published: seq<UiState>)
    ensures state == Run(INITIAL_STATE, events)
    ensures published == Trace(events)
  {
    state := INITIAL_STATE;
    published := [];
    var i := 0;
    while i < |events|
      invariant 0 <= i <= |events|
      invariant state == Run(INITIAL_STATE, events[..i])
      invariant published == Trace(events[..i])
    {
      assert events[..i + 1][..i] == events[..i];
      var out := Publish(events[i]);
      published := published + out;
      state := out[|out| - 1];
      i := i + 1;
    }
    assert events[..i] == events;
  }
}

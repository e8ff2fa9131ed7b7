/** The declarative workflow table of the breed identifier (`stateMachine`), the
    reducer that drives it, the display flags derived from it and the table of
    button properties keyed by state (src/App.js). */
module Workflow {
  import opened Wrappers

  /** The six workflow states; the JavaScript keys are the same names in camel case. */
  datatype State = Initial | LoadingModel | AwaitingUpload | Ready | Classifying | Complete

  /** One entry of the table: the successor per event name and the two optional
      display flags (absent in the table reads as `None`). */
  datatype StateNode = StateNode(on: map<string, State>, showImage: Option<bool>, showResults: Option<bool>)

  /** The only event the application ever dispatches. */
  const NextEvent: string := "next"

  /** `stateMachine.initial`. */
  const InitialState: State := Initial

  /** `stateMachine.states[s]`. Every state accepts exactly the event "next",
      whose successor is never `initial`, and no state shows results without
      showing the image. */
  function Node(s: State): (node: StateNode)
    ensures node.on.Keys == {NextEvent} && node.on[NextEvent] != Initial
    ensures node.showResults.Some? ==> node.showImage.Some?
  {
    match s
    case Initial => StateNode(map[NextEvent := LoadingModel], None, None)
    case LoadingModel => StateNode(map[NextEvent := AwaitingUpload], None, None)
    case AwaitingUpload => StateNode(map[NextEvent := Ready], None, None)
    case Ready => StateNode(map[NextEvent := Classifying], Some(true), None)
    case Classifying => StateNode(map[NextEvent := Complete], None, None)
    case Complete => StateNode(map[NextEvent := AwaitingUpload], Some(true), Some(true))
  }

  /** `reducer(currentState, event)`: the successor the table lists for the event,
      or the initial state when the table lists none. Since no listed successor is
      `Initial`, the reducer lands on `Initial` exactly for the unknown events. */
  function Reducer(current: State, event: string): (r: State)
    ensures r == Initial <==> event != NextEvent
    ensures event == NextEvent ==> r != current
  {
    if event in Node(current).on then Node(current).on[event] else InitialState
  }

  /** The listed successor chain under "next":
      initial, loadingModel, awaitingUpload, ready, classifying, complete, awaitingUpload. */
  lemma NextFollowsTable()
    ensures Reducer(Initial, NextEvent) == LoadingModel
    ensures Reducer(LoadingModel, NextEvent) == AwaitingUpload
    ensures Reducer(AwaitingUpload, NextEvent) == Ready
    ensures Reducer(Ready, NextEvent) == Classifying
    ensures Reducer(Classifying, NextEvent) == Complete
    ensures Reducer(Complete, NextEvent) == AwaitingUpload
  {
  }

  /** `showImage` after the destructuring default `showImage = false`. */
  function ShowImage(s: State): (shown: bool)
    ensures shown <==> s == Ready || s == Complete
  {
    Node(s).showImage.GetOr(false)
  }

  /** `showResults` after the destructuring default `showResults = false`. */
  function ShowResults(s: State): (shown: bool)
    ensures shown <==> s == Complete
    ensures shown ==> ShowImage(s)
  {
    Node(s).showResults.GetOr(false)
  }

  /** The state reached from `s` after `n` dispatches of "next". */
  function Steps(s: State, n: nat): State
    decreases n
  {
    if n == 0 then s else Steps(Reducer(s, NextEvent), n - 1)
  }

  lemma {:induction false} StepsLast(s: State, n: nat)
    ensures Steps(s, n + 1) == Reducer(Steps(s, n), NextEvent)
    decreases n
  {
    if n > 0 {
      StepsLast(Reducer(s, NextEvent), n - 1);
    }
  }

  /** The part of the workflow that repeats, in order from `awaitingUpload`. */
  function Round(k: nat): State
    requires k < 4
  {
    [AwaitingUpload, Ready, Classifying, Complete][k]
  }

  /** From `awaitingUpload` the workflow cycles through upload, identify and reset
      with period four. */
  lemma {:induction false} CycleFromAwaitingUpload(n: nat)
    ensures Steps(AwaitingUpload, n) == Round(n % 4)
    decreases n
  {
    if n > 0 {
      CycleFromAwaitingUpload(n - 1);
      StepsLast(AwaitingUpload, n - 1);
    }
  }

  /** Driven only by "next", the workflow leaves `initial` for good and passes
      through `loadingModel` exactly once: the model is loaded once per run. */
  lemma {:induction false} LoadingHappensOnce(n: nat)
    requires n >= 1
    ensures Steps(Initial, n) != Initial
    ensures Steps(Initial, n) == LoadingModel <==> n == 1
    ensures n >= 2 ==> Steps(Initial, n) == Round((n - 2) % 4)
  {
    if n >= 2 {
      assert Steps(Initial, n) == Steps(AwaitingUpload, n - 2) by {
        assert Steps(Initial, n) == Steps(LoadingModel, n - 1);
        assert Steps(LoadingModel, n - 1) == Steps(AwaitingUpload, n - 2);
      }
      CycleFromAwaitingUpload(n - 2);
    }
  }

  /** What a button click does; the two busy states bind a no-op. */
  datatype Action = LoadModelAction | NoAction | OpenFilePicker | IdentifyAction | ResetAction

  datatype ButtonProps = ButtonProps(text: string, action: Action)

  /** `buttonProps[s]`. Only the busy states `loadingModel` and `classifying` bind
      the no-op; every other action is bound to a state of its own. */
  function Button(s: State): (b: ButtonProps)
    ensures b.action == NoAction <==> s == LoadingModel || s == Classifying
    ensures b.action == LoadModelAction <==> s == Initial
    ensures b.action == OpenFilePicker <==> s == AwaitingUpload
    ensures b.action == IdentifyAction <==> s == Ready
    ensures b.action == ResetAction <==> s == Complete
  {
    match s
    case Initial => ButtonProps("Load model", LoadModelAction)
    case LoadingModel => ButtonProps("Loading model...", NoAction)
    case AwaitingUpload => ButtonProps("Upload photo", OpenFilePicker)
    case Ready => ButtonProps("Identify breed", IdentifyAction)
    case Classifying => ButtonProps("Identifying...", NoAction)
    case Complete => ButtonProps("Reset", ResetAction)
  }
}

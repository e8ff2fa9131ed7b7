/** The `App` component's controller: its four pieces of state, updated in
    place by the handlers (src/App.js:62-116). Each handler is proved to leave
    the session the corresponding function of module Sessions describes. */
module Controller {
  import opened Wrappers
  import opened Workflow
  import Sessions

  class App {
    var state: State
    var model: Option<Sessions.ModelHandle>
    var imageUrl: Option<Sessions.ImageUrl>
    var result: seq<Sessions.Prediction>

    /** The session these fields hold. */
    function Snapshot(): Sessions.Session
      reads this
    {
      Sessions.Session(state, model, imageUrl, result)
    }

    /** `useReducer(reducer, "initial")`, `useState(null)` twice, `useState([])`. */
    constructor ()
      ensures Snapshot() == Sessions.Start
    {
      state := InitialState;
      model := None;
      imageUrl := None;
      result := [];
    }

    /** `showImage` for the current state. */
    function ShowImage(): (shown: bool)
      reads this
      ensures shown <==> state == Ready || state == Complete
    {
      Workflow.ShowImage(state)
    }

    /** `showResults` for the current state. */
    function ShowResults(): (shown: bool)
      reads this
      ensures shown <==> state == Complete
    {
      Workflow.ShowResults(state)
    }

    /** `next()`: dispatch "next". */
    method Next()
      modifies this
      ensures Snapshot() == Sessions.Advance(old(Snapshot()))
    {
      state := Reducer(state, NextEvent);
    }

    /** The continuation of `loadModel` after `await mobilenet.load()`. */
    method FinishLoadModel(m: Sessions.ModelHandle)
      modifies this
      ensures Snapshot() == Sessions.FinishLoad(old(Snapshot()), m)
    {
      model := Some(m);
      Next();
    }

    /** `loadModel()`, with the settled outcome of `mobilenet.load()`. */
    method LoadModel(loaded: Option<Sessions.ModelHandle>)
      modifies this
      ensures Snapshot() == Sessions.LoadModel(old(Snapshot()), loaded)
      ensures old(state) == Initial && loaded.Some? ==>
        state == AwaitingUpload && model == loaded && imageUrl == old(imageUrl) && result == old(result)
      ensures old(state) == Initial && loaded.None? ==>
        state == LoadingModel && model == old(model) && imageUrl == old(imageUrl) && result == old(result)
    {
      Next();
      if loaded.Some? {
        FinishLoadModel(loaded.value);
      }
    }

    /** `handleUpload(e)` with `e.target.files == files`. */
    method HandleUpload(files: seq<Sessions.FileRef>)
      modifies this
      ensures Snapshot() == Sessions.Upload(old(Snapshot()), files)
      ensures |files| == 0 ==> unchanged(this)
    {
      if |files| > 0 {
        imageUrl := Some(Sessions.ObjectUrl(files[0]));
        Next();
      }
    }

    /** The continuation of `identify` after `await model.classify(...)`. */
    method FinishIdentify(predictions: seq<Sessions.Prediction>)
      modifies this
      ensures Snapshot() == Sessions.FinishIdentify(old(Snapshot()), predictions)
    {
      result := predictions;
      Next();
    }

    /** `identify()`, with the classifier standing for `model.classify`. */
    method Identify(classify: Sessions.Classifier)
      modifies this
      ensures Snapshot() == Sessions.Identify(old(Snapshot()), classify)
      ensures old(state) == Ready && old(model).Some? && classify(old(model).value, old(imageUrl)).Some? ==>
        state == Complete && result == classify(old(model).value, old(imageUrl)).value
        && model == old(model) && imageUrl == old(imageUrl)
    {
      Next();
      if model.Some? {
        var outcome := classify(model.value, imageUrl);
        if outcome.Some? {
          FinishIdentify(outcome.value);
        }
      }
    }

    /** `reset()`. */
    method Reset()
      modifies this
      ensures Snapshot() == Sessions.Reset(old(Snapshot()))
      ensures old(state) == Complete ==>
        state == AwaitingUpload && model == old(model) && imageUrl == None && result == []
    {
      result := [];
      imageUrl := None;
      Next();
    }

    /** `buttonProps[state].action()`: the action is looked up by the current
        state; in the busy states it is a no-op. */
    method ClickButton(loaded: Option<Sessions.ModelHandle>, classify: Sessions.Classifier)
      modifies this
      ensures Snapshot() == Sessions.Click(old(Snapshot()), loaded, classify)
      ensures old(state) == LoadingModel || old(state) == Classifying ==> unchanged(this)
    {
      match Button(state).action
      case LoadModelAction => LoadModel(loaded);
      case NoAction =>
      case OpenFilePicker =>
      case IdentifyAction => Identify(classify);
      case ResetAction => Reset();
    }
  }

  /** A photo chosen while the model is still loading: the load click has run
      its first step only, and the upload advances the workflow past
      `loadingModel` to `awaitingUpload` although no model is there. */
  method UploadDuringLoad(f: Sessions.FileRef) returns (app: App)
    ensures fresh(app)
    ensures app.Snapshot() == Sessions.Session(AwaitingUpload, None, Some(Sessions.ObjectUrl(f)), [])
  {
    app := new App();
    app.ClickButton(None, (h, i) => None);
    app.HandleUpload([f]);
  }

  /** The same run, after which the pending load settles: its continuation
      advances once more and the workflow lands in `ready` holding both the
      model and the image. */
  method LoadSettlesAfterUpload(m: Sessions.ModelHandle, f: Sessions.FileRef) returns (app: App)
    ensures app.Snapshot() == Sessions.Session(Ready, Some(m), Some(Sessions.ObjectUrl(f)), [])
  {
    app := UploadDuringLoad(f);
    app.FinishLoadModel(m);
  }
}

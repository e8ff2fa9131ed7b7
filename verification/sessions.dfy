/** The session the `App` component keeps (`state`, `model`, `imageUrl`, `result`)
    as a value, and one function per controller action giving the session after
    the action (src/App.js). The class in module Controller is proved against
    these functions. */
module Sessions {
  import opened Wrappers
  import opened Workflow
  import opened BreedNames

  /** The loaded classifier (`mobilenet.load()`'s result), an opaque handle. */
  datatype ModelHandle = ModelHandle(id: nat)

  /** One entry of the file input's `files`. */
  datatype FileRef = FileRef(id: nat)

  /** `URL.createObjectURL(file)`: an opaque, displayable reference to the file. */
  datatype ImageUrl = ObjectUrl(file: FileRef)

  /** One entry of `model.classify`'s answer. */
  datatype Prediction = Prediction(className: string, probability: real)

  /** `model.classify(image)`: the settled answer, or `None` when the promise
      rejects. The image is the preview showing `imageUrl`. */
  type Classifier = (ModelHandle, Option<ImageUrl>) -> Option<seq<Prediction>>

  datatype Session = Session(
    state: State,
    model: Option<ModelHandle>,
    imageUrl: Option<ImageUrl>,
    result: seq<Prediction>)

  /** The session as the component first renders it. */
  const Start: Session := Session(InitialState, None, None, [])

  /** `next()`: one reducer step on "next"; nothing else changes. */
  function Advance(s: Session): (t: Session)
    ensures t.state != Initial && t.state != s.state
    ensures t.model == s.model && t.imageUrl == s.imageUrl && t.result == s.result
  {
    s.(state := Reducer(s.state, NextEvent))
  }

  /** The continuation of `loadModel` once `mobilenet.load()` has settled:
      `setModel(m); next()`. Settling the pending load in `loadingModel` lands
      in `awaitingUpload` holding the model, with image and results untouched. */
  function FinishLoad(s: Session, m: ModelHandle): (t: Session)
    ensures s.state == LoadingModel ==> t == s.(state := AwaitingUpload, model := Some(m))
    ensures t.model == Some(m) && t.imageUrl == s.imageUrl && t.result == s.result
  {
    Advance(s.(model := Some(m)))
  }

  /** `loadModel()`: `next()`, then, when the load settles with a model, the
      continuation; a rejected load stops after the first step. */
  function LoadModel(s: Session, loaded: Option<ModelHandle>): (t: Session)
    ensures s.state == Initial && loaded.Some? ==>
      t == s.(state := AwaitingUpload, model := loaded)
    ensures s.state == Initial && loaded.None? ==>
      t == s.(state := LoadingModel)
    ensures t.imageUrl == s.imageUrl && t.result == s.result
  {
    var t := Advance(s);
    if loaded.Some? then FinishLoad(t, loaded.value) else t
  }

  /** `handleUpload(e)` with `e.target.files == files`: with at least one file,
      show the first and advance one step from whatever state is current; with
      none, nothing happens. */
  function Upload(s: Session, files: seq<FileRef>): (t: Session)
    ensures |files| == 0 ==> t == s
    ensures |files| > 0 ==> t.imageUrl == Some(ObjectUrl(files[0])) && t.state == Reducer(s.state, NextEvent)
    ensures t.model == s.model && t.result == s.result
  {
    if |files| > 0 then Advance(s.(imageUrl := Some(ObjectUrl(files[0])))) else s
  }

  /** The continuation of `identify` once `model.classify` has settled:
      `setResults(predictions); next()`. Settling the pending classification in
      `classifying` lands in `complete` holding exactly the predictions. */
  function FinishIdentify(s: Session, predictions: seq<Prediction>): (t: Session)
    ensures s.state == Classifying ==> t == s.(state := Complete, result := predictions)
    ensures t.result == predictions && t.model == s.model && t.imageUrl == s.imageUrl
  {
    Advance(s.(result := predictions))
  }

  /** `identify()`: `next()`, then ask the model; with no model loaded the call
      `model.classify` throws, and a rejected classification stops there too. */
  function Identify(s: Session, classify: Classifier): (t: Session)
    ensures s.state == Ready && s.model.Some? && classify(s.model.value, s.imageUrl).Some? ==>
      t == s.(state := Complete, result := classify(s.model.value, s.imageUrl).value)
    ensures s.state == Ready && (s.model.None? || classify(s.model.value, s.imageUrl).None?) ==>
      t == s.(state := Classifying)
    ensures t.model == s.model && t.imageUrl == s.imageUrl
  {
    var t := Advance(s);
    if t.model.None? then t
    else match classify(t.model.value, t.imageUrl)
      case Some(predictions) => FinishIdentify(t, predictions)
      case None => t
  }

  /** `reset()`: `setResults([]); setImageUrl(null); next()`. */
  function Reset(s: Session): (t: Session)
    ensures s.state == Complete ==> t == Session(AwaitingUpload, s.model, None, [])
    ensures t.model == s.model && t.imageUrl == None && t.result == []
  {
    Advance(s.(result := [], imageUrl := None))
  }

  /** A click on the button: `buttonProps[state].action()`. Opening the file
      picker changes no session data; the upload itself arrives later as a
      file choice. In the busy states nothing happens at all. */
  function Click(s: Session, loaded: Option<ModelHandle>, classify: Classifier): (t: Session)
    ensures s.state == LoadingModel || s.state == Classifying || s.state == AwaitingUpload ==> t == s
    ensures t.model != s.model ==> s.state == Initial
  {
    match Button(s.state).action
    case LoadModelAction => LoadModel(s, loaded)
    case NoAction => s
    case OpenFilePicker => s
    case IdentifyAction => Identify(s, classify)
    case ResetAction => Reset(s)
  }

  /** What the user does: click the button (the outcomes of the external calls
      that click may start ride along), or choose files in the file input. */
  datatype Input =
    | Press(loaded: Option<ModelHandle>, classify: Classifier)
    | Choose(files: seq<FileRef>)

  /** The handler for a file choice that only acts where the button offers the
      upload, `awaitingUpload`. */
  function GuardedUpload(s: Session, files: seq<FileRef>): (t: Session)
    ensures s.state != AwaitingUpload || |files| == 0 ==> t == s
    ensures s.state == AwaitingUpload && |files| > 0 ==>
      t == s.(state := Ready, imageUrl := Some(ObjectUrl(files[0])))
  {
    if s.state == AwaitingUpload then Upload(s, files) else s
  }

  /** One input; `guarded` selects the guarded upload handler over the one the
      component installs. */
  function Step(s: Session, i: Input, guarded: bool): Session {
    match i
    case Press(loaded, classify) => Click(s, loaded, classify)
    case Choose(files) => if guarded then GuardedUpload(s, files) else Upload(s, files)
  }

  /** The session after a sequence of inputs, each handled to completion. */
  function Run(s: Session, inputs: seq<Input>, guarded: bool): Session
    decreases |inputs|
  {
    if inputs == [] then s else Run(Step(s, inputs[0], guarded), inputs[1..], guarded)
  }

  /** The session invariants the workflow is designed around: a model exactly
      once loading is over, an image exactly from `ready` to `complete`, and
      results only in `complete`. */
  predicate Consistent(s: Session) {
    && (s.model.Some? <==> s.state != Initial && s.state != LoadingModel)
    && (s.imageUrl.Some? <==> s.state == Ready || s.state == Classifying || s.state == Complete)
    && (s.state != Complete ==> s.result == [])
  }

  lemma StartIsConsistent()
    ensures Consistent(Start)
  {
  }

  /** With the guarded upload handler every input keeps the session consistent. */
  lemma GuardedStepKeepsConsistent(s: Session, i: Input)
    requires Consistent(s)
    ensures Consistent(Step(s, i, true))
  {
  }

  /** With the guarded upload handler no sequence of inputs breaks the session
      invariants. */
  lemma {:induction false} GuardedRunKeepsConsistent(s: Session, inputs: seq<Input>)
    requires Consistent(s)
    ensures Consistent(Run(s, inputs, true))
    decreases |inputs|
  {
    if inputs != [] {
      GuardedStepKeepsConsistent(s, inputs[0]);
      GuardedRunKeepsConsistent(Step(s, inputs[0], true), inputs[1..]);
    }
  }

  /** Once the workflow has left `initial`, with either upload handler, the model
      never changes again: it is loaded at most once per run. */
  lemma {:induction false} ModelLoadedAtMostOnce(s: Session, inputs: seq<Input>, guarded: bool)
    requires s.state != Initial
    ensures Run(s, inputs, guarded).model == s.model
    decreases |inputs|
  {
    if inputs != [] {
      var t := Step(s, inputs[0], guarded);
      assert t.state != Initial && t.model == s.model;
      ModelLoadedAtMostOnce(t, inputs[1..], guarded);
    }
  }

  /** With the component's own upload handler, three photos chosen before the
      model is loaded reach `ready` without a model; the click on "Identify breed"
      then throws at `model.classify` after its first step and leaves the
      workflow in `classifying`, where every later click is a no-op. */
  lemma UploadBeforeLoadStrandsWorkflow(f1: FileRef, f2: FileRef, f3: FileRef, loaded: Option<ModelHandle>, classify: Classifier)
    ensures var ready := Run(Start, [Choose([f1]), Choose([f2]), Choose([f3])], false);
      && ready.state == Ready && ready.model == None && !Consistent(ready)
      && Click(ready, loaded, classify).state == Classifying
      && Click(Click(ready, loaded, classify), loaded, classify) == Click(ready, loaded, classify)
  {
    var c1, c2, c3 := [Choose([f1])], [Choose([f2])], [Choose([f3])];
    var s1 := Upload(Start, [f1]);
    var s2 := Upload(s1, [f2]);
    var s3 := Upload(s2, [f3]);
    assert s3.state == Ready && s3.model == None;
    assert (c1 + c2 + c3)[1..] == c2 + c3 && (c2 + c3)[1..] == c3;
    assert Run(Start, c1 + c2 + c3, false) == Run(s1, c2 + c3, false);
    assert Run(s1, c2 + c3, false) == Run(s2, c3, false);
    assert Run(s2, c3, false) == Run(s3, [], false);
    assert c1 + c2 + c3 == [Choose([f1]), Choose([f2]), Choose([f3])];
  }

  /** The same three file choices under the guarded handler leave the session
      untouched. */
  lemma GuardedUploadBeforeLoadIsIgnored(f1: FileRef, f2: FileRef, f3: FileRef)
    ensures Run(Start, [Choose([f1]), Choose([f2]), Choose([f3])], true) == Start
  {
    var c1, c2, c3 := [Choose([f1])], [Choose([f2])], [Choose([f3])];
    assert (c1 + c2 + c3)[1..] == c2 + c3 && (c2 + c3)[1..] == c3;
    assert Run(Start, c1 + c2 + c3, true) == Run(Start, c2 + c3, true);
    assert Run(Start, c2 + c3, true) == Run(Start, c3, true);
    assert Run(Start, c3, true) == Run(Start, [], true);
    assert c1 + c2 + c3 == [Choose([f1]), Choose([f2]), Choose([f3])];
  }

  /** The labels the results panel shows: `result.map(getResultItem)`, each
      through `formatBreedName`, in the classifier's order, and only when the
      state shows results. */
  function ResultLabels(s: Session): (labels: seq<string>)
    ensures ShowResults(s.state) ==> |labels| == |s.result|
    ensures !ShowResults(s.state) ==> labels == []
    ensures forall i :: 0 <= i < |labels| ==> labels[i] == FormatBreedName(s.result[i].className)
  {
    if ShowResults(s.state) then
      seq(|s.result|, i requires 0 <= i < |s.result| => FormatBreedName(s.result[i].className))
    else []
  }

  /** The end-to-end walk through the workflow: load, upload one photo, identify
      it as a pug, reset. */
  lemma EndToEnd(m: ModelHandle, f: FileRef, classify: Classifier)
    requires classify(m, Some(ObjectUrl(f))) == Some([Prediction("pug", 0.5)])
    ensures var loaded := Click(Start, Some(m), classify);
      && loaded == Session(AwaitingUpload, Some(m), None, [])
      && var ready := Upload(loaded, [f]);
      && ready == Session(Ready, Some(m), Some(ObjectUrl(f)), [])
      && var done := Click(ready, None, classify);
      && done == Session(Complete, Some(m), Some(ObjectUrl(f)), [Prediction("pug", 0.5)])
      && ShowImage(done.state) && ShowResults(done.state)
      && Click(done, None, classify) == Session(AwaitingUpload, Some(m), None, [])
  {
  }
}

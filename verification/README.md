# Breed identifier workflow, modelled in Dafny

The breed identifier is a single-page React application: the user loads a
MobileNet image classifier, uploads a photo and reads the ranked breed guesses.
Everything it decides lives in `src/App.js`:

- a declarative state table (`stateMachine`) with six states, each listing its
  successor under the event `"next"` and two optional display flags, and the
  `reducer` that looks the successor up and falls back to `"initial"`;
- `formatBreedName`, which cuts a classifier label after its second word and
  upper-cases its first character;
- the `App` controller, which holds `state`, `model`, `imageUrl` and `result`
  and updates them in the handlers `loadModel`, `handleUpload`, `identify` and
  `reset`, one of which the button runs, chosen by looking the current state up
  in `buttonProps`.

The project has five modules:

- `Wrappers` (`wrappers.dfy`): `Option`, standing for `null`/`undefined` and for
  a promise that rejects.
- `Workflow` (`workflow.dfy`): the state table, `Reducer`, the derived flags,
  the button table, and the walk of repeated `"next"` dispatches (`Steps`).
- `BreedNames` (`breed_names.dfy`): JavaScript's `split(" ")` and `join(" ")`,
  the capitalisation, `FormatBreedName` and its shape.
- `Sessions` (`sessions.dfy`): the controller's state as a value, and one
  function per handler giving the session after it. `Run` feeds a sequence of
  user inputs (button clicks, file choices) through them. `Consistent` is the
  session invariant the workflow is built around.
- `Controller` (`controller.dfy`): the class `App`. Its fields are the four
  pieces of component state, and each handler is a method proved to leave the
  session its `Sessions` function describes.

Each asynchronous handler is split at its `await`. `next()` runs first, then a
continuation (`FinishLoadModel`, `FinishIdentify`) stores the external result
and calls `next()` again. The combined methods (`LoadModel`, `Identify`) take
the settled outcome of the external call as a parameter, where `None` means the
promise rejected. The code has no error handling, so a rejection leaves only
the first step done: the workflow stays in `loadingModel` or `classifying`.

Where the code and the intended design differ, the model follows the code:

- `classifying` carries no `showImage` flag, so the preview is hidden while the
  classifier runs. The intended design shows it.
- A failed load or classification is not reported. The workflow simply stays
  in its busy state.
- `handleUpload` is not guarded by state, because the file input is always
  rendered. It advances one reducer step from whatever state is current (see
  Findings).

## Model

| member | source | states |
|---|---|---|
| `Workflow.Node` | src/App.js:8-22 | Every state accepts exactly the event `"next"`, no listed successor is `initial`, and no state lists `showResults` without `showImage`. The successors themselves are stated by `Workflow.NextFollowsTable`. |
| `Workflow.Reducer` | src/App.js:8-25 | The reducer lands on `initial` exactly when the event is not `"next"`; under `"next"` it always moves to a different state. |
| `Workflow.NextFollowsTable` | src/App.js:11-20 | Under `"next"`: initial→loadingModel→awaitingUpload→ready→classifying→complete→awaitingUpload. |
| `Workflow.ShowImage` | src/App.js:118 | `showImage`, defaulted to false, is true exactly in `ready` and `complete`. |
| `Workflow.ShowResults` | src/App.js:118 | `showResults`, defaulted to false, is true exactly in `complete`, and it implies `showImage`. |
| `Workflow.CycleFromAwaitingUpload` | src/App.js:13-20 | From `awaitingUpload`, repeated `"next"` cycles awaitingUpload, ready, classifying, complete with period four. |
| `Workflow.LoadingHappensOnce` | src/App.js:11-20 | Driven by `"next"` from `initial`, the workflow never returns to `initial` and is in `loadingModel` only after the first step. Later steps follow the four-state cycle. |
| `Workflow.Button` | src/App.js:106-116 | The button is a no-op exactly in `loadingModel` and `classifying`. Every other action is bound to exactly one state: load in `initial`, file picker in `awaitingUpload`, identify in `ready`, reset in `complete`. |
| `BreedNames.Split` | src/App.js:29 | `split(" ")` always gives at least one piece, and no piece contains a space. |
| `BreedNames.Join` | src/App.js:32-33 | `join(" ")` of no pieces is empty. Otherwise the first piece leads the result, which has room for a separator between each two pieces. `BreedNames.JoinSplit` and `BreedNames.JoinAppend` relate it to `split(" ")`. |
| `BreedNames.JoinAppend` | src/App.js:32-33 | Joining two non-empty runs of pieces puts exactly one `" "` between the two joins. |
| `BreedNames.FirstTwoWords` | src/App.js:30-33 | The slice-and-join result is a prefix of the label. Its exact shape is stated by `BreedNames.FirstTwoWordsIsPrefix`. |
| `BreedNames.JoinSplit` | src/App.js:29-33 | Joining the pieces of `split(" ")` with `" "` gives back the input. |
| `BreedNames.FirstTwoWordsIsPrefix` | src/App.js:29-33 | The slice-and-join keeps a prefix of the label with at most one space. It keeps the whole label exactly when the label has at most one space, and otherwise stops just before the label's second space. |
| `BreedNames.ToUpper` | src/App.js:35 | Upper-casing maps each of `a`–`z` to the capital at the same position of the alphabet, leaves every other character alone, and never makes or removes a space. |
| `BreedNames.Capitalize` | src/App.js:35 | Capitalising keeps the length. It upper-cases the first character, leaves all others as they are, and keeps the positions of the spaces. |
| `BreedNames.FormatBreedName` | src/App.js:28-36 | The formatted name is no longer than the label, and empty exactly when the label is empty. |
| `BreedNames.FormatBreedNameShape` | src/App.js:28-36 | Apart from its upper-cased first character, the name is a prefix of the label and has at most one space. It equals the capitalised label exactly when the label has at most one space. Otherwise it ends just before the label's second space. |
| `BreedNames.FormatCutsAtSecondSpace` | src/App.js:28-36 | A label whose first two spaces are at positions `i < j` formats to its first `j` characters, capitalised. |
| `BreedNames.FormatOneWord` | src/App.js:28-36 | `"pug"` becomes `"Pug"`. |
| `BreedNames.FormatFourWords` | src/App.js:28-36 | `"golden retriever dog breed"` becomes `"Golden retriever"`. |
| `Sessions.Advance` | src/App.js:70 | `next()` always leaves the current state, never lands on `initial`, and touches nothing but the state. |
| `Sessions.FinishLoad` | src/App.js:76-77 | The load continuation always stores the model and keeps image and results. From `loadingModel` it lands in `awaitingUpload`. |
| `Sessions.LoadModel` | src/App.js:73-78 | From `initial`, a successful load goes through `loadingModel` to `awaitingUpload` and stores the loaded model. A rejected load stops in `loadingModel`. Image and results are untouched. |
| `Sessions.Upload` | src/App.js:81-88 | With no file chosen the session is unchanged. Otherwise the image is the object URL of the first file, the state advances one reducer step from wherever it was, and model and results are kept. |
| `Sessions.FinishIdentify` | src/App.js:94-95 | The classification continuation always stores exactly the predictions and keeps model and image. From `classifying` it lands in `complete`. |
| `Sessions.Identify` | src/App.js:91-96 | From `ready` with a model, a settled classification goes through `classifying` to `complete` with exactly the classifier's answer as results. With no model, or a rejection, it stops in `classifying`. Model and image are kept. |
| `Sessions.Reset` | src/App.js:99-103 | Results are cleared, the image is dropped and the model is kept. From `complete` the session is exactly `awaitingUpload` with no image and no results. |
| `Sessions.Click` | src/App.js:106-116 | A click in `loadingModel` or `classifying` (and in `awaitingUpload`, where it only opens the picker) changes nothing. Only a click in `initial` can change the model. |
| `Sessions.GuardedUpload` | src/App.js:81-88 | Corrected upload handler. Outside `awaitingUpload`, or with no file, nothing changes. Otherwise it moves to `ready` with the first file's image. |
| `Sessions.StartIsConsistent` | src/App.js:62-67 | The initial session satisfies the session invariant. |
| `Sessions.GuardedStepKeepsConsistent` | src/App.js:106-116 | Under the guarded upload handler, every click and file choice keeps the session invariant. |
| `Sessions.GuardedRunKeepsConsistent` | src/App.js:62-116 | Under the guarded upload handler, no sequence of inputs breaks the invariant: a model exactly after loading, an image exactly from `ready` to `complete`, results only in `complete`. |
| `Sessions.ModelLoadedAtMostOnce` | src/App.js:73-78 | Once the workflow has left `initial`, no sequence of inputs changes the model, with either upload handler. |
| `Sessions.UploadBeforeLoadStrandsWorkflow` | src/App.js:81-96 | As written, three different photos chosen before loading reach `ready` with no model. The identify click then stops in `classifying`, where every further click is a no-op. |
| `Sessions.GuardedUploadBeforeLoadIsIgnored` | src/App.js:81-88 | Under the guarded handler, the same three file choices leave the initial session untouched. |
| `Sessions.ResultLabels` | src/App.js:124-129 | The results panel shows one `formatBreedName` label per result, in the classifier's order, and only in `complete`. |
| `Sessions.EndToEnd` | src/App.js:62-116 | Load, upload one photo, identify it as a pug, then reset: each session along the way is stated exactly, and both flags are on at `complete`. |
| `Controller.App.constructor` | src/App.js:62-67 | A new component starts in `initial` with no model, no image and no results. |
| `Controller.App.ShowImage` | src/App.js:118 | `showImage` for the current state: true exactly in `ready` and `complete`. |
| `Controller.App.ShowResults` | src/App.js:118 | `showResults` for the current state: true exactly in `complete`. |
| `Controller.App.Next` | src/App.js:70 | Dispatching `"next"` updates only the state field, to the reducer's successor. |
| `Controller.App.FinishLoadModel` | src/App.js:76-77 | The load continuation stores the model, then advances. |
| `Controller.App.LoadModel` | src/App.js:73-78 | From `initial`: with a loaded model, ends in `awaitingUpload` holding it; on rejection, stays in `loadingModel`. Otherwise it is as `Sessions.LoadModel`. |
| `Controller.App.HandleUpload` | src/App.js:81-88 | With no file the object is unchanged. Otherwise it is as `Sessions.Upload`. |
| `Controller.App.FinishIdentify` | src/App.js:94-95 | The classification continuation stores the results, then advances. |
| `Controller.App.Identify` | src/App.js:91-96 | From `ready` with a model and a settled answer: ends in `complete` with the classifier's answer, keeping model and image. Otherwise it is as `Sessions.Identify`. |
| `Controller.App.Reset` | src/App.js:99-103 | From `complete`: ends in `awaitingUpload`, image and results cleared, model kept. |
| `Controller.App.ClickButton` | src/App.js:138 | Runs the action the current state binds. In `loadingModel` and `classifying` the object is unchanged. |
| `Controller.UploadDuringLoad` | src/App.js:73-88 | A photo chosen while the load is pending moves the workflow past `loadingModel` to `awaitingUpload`, holding the photo's URL but no model. |
| `Controller.LoadSettlesAfterUpload` | src/App.js:73-88 | When the pending load then settles, its continuation lands in `ready` holding both model and image. |

## Findings

| source | as written | input that shows it | evidently intended | confidence | as-written member | corrected member |
|---|---|---|---|---|---|---|
| src/App.js:81-88 | `handleUpload` calls `next()` in any state, and the file input is always rendered | choose three different photos, one after another, before clicking "Load model", then click "Identify breed" | a file choice acts only in `awaitingUpload`, as the button labels suggest; a model is loaded in every state after `loadingModel` | high (not executed) | `Sessions.UploadBeforeLoadStrandsWorkflow` | `Sessions.GuardedRunKeepsConsistent` |

In that run the three choices (each a different photo, so the input fires
`change` each time) move the workflow initial→loadingModel→awaitingUpload→ready
without loading a model. "Identify breed" then calls `next()` and throws at
`model.classify` on `null`. The workflow is stuck in `classifying`, whose button
does nothing. `Sessions.Upload`, `Sessions.Run` with `guarded == false` and the
class `Controller.App` model the handler as written. `Sessions.GuardedUpload`
is the corrected handler, used by `Run` with `guarded == true`.

## Left out

- `src/Header.js` is static markup with no logic.
- JSX rendering, except the `formatBreedName` call on each result label
  (`Sessions.ResultLabels`).
- The percentage text `(probability * 100).toFixed(2)` and the bar width. Both
  are floating-point formatting. Probabilities are carried as `real` and never
  inspected.
- `tf.setBackend`, `mobilenet.load` and `model.classify` are outside code. Their
  settled outcomes are parameters (`Option<ModelHandle>`, `Classifier`).
- `URL.createObjectURL` is modelled as `ObjectUrl(file)`. It does not model that
  each call mints a fresh URL. `inputRef.current.click()` opens the browser's
  file picker, changes no component state, and is a no-op here.
- `imageRef.current` is the preview element showing `imageUrl`. The classifier
  receives `imageUrl` in its place.
- React's hook scheduling, and the interleaving of an `await` with other
  events. `Sessions.Run` handles each input to completion. The split methods of
  `Controller.App` can still express an interleaving (`Controller.UploadDuringLoad`, `Controller.LoadSettlesAfterUpload`).
  A pending external call and a rejected one look the same: only the first
  `next()` has run.
- The unused imports `split` and `getByDisplayValue`.
- BreedNames.ToUpper: only ASCII `a`–`z` is upper-cased. JavaScript's
  `toUpperCase` also maps other letters, some to two characters (`"ß"` becomes
  `"SS"`). `slice(0, 1)` counts UTF-16 code units, not characters.
- Workflow.Reducer: an event named like an `Object.prototype` member (such as
  `"constructor"`) finds an inherited value in JavaScript and does not fall
  back to `"initial"`. The model treats every event other than `"next"` as
  unknown. The application only ever dispatches `"next"`.
- An unknown state would make the reducer and the flag lookup throw. The
  `State` datatype makes it unrepresentable.

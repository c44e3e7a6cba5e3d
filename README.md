# Transfer-learning capture screen: sample store and classifier head

This project models the two pieces of logic in a browser app that teaches a
small classifier to recognise camera images on top of a frozen image
embedding.

- **The sample store** (`SampleStore`, `sample_store.dfy`). The app keeps a
  shared list of classes. Each class has a name (`clasificationName`) and
  three parallel arrays: the data URLs of its captured frames
  (`framesUrlDatas`), their pixel buffers (`imageDatas`) and one index per
  frame (`indexes`). Each capture card changes the list through four
  updaters: append a captured frame, clear the frames, rename, delete. All
  four pick the class by its position `classificationIdx`. They are modelled
  as pure functions over `seq<Classification>`. The card itself is a class,
  `ClassificationCmp`, with the press-to-record flag `isRecording`. It works
  on a shared `Store` object, which stands for the shared atom. Its methods
  apply the updaters. A capture tick is an explicit `Tick` call. The frame
  payloads are opaque: a data URL is a string, and `ImageData` is an abstract
  type.
- **The classifier head** (`ClassifierHead`, `trained_model.dfy`). The head is
  built from the number of classes alone. It has a 1024-wide input, a dense
  hidden layer of 128 relu units, and a dense softmax output layer with one
  unit per class. It compiles with the optimizer `adam` and the metrics
  `['accuracy']`. The loss is binary cross-entropy for exactly 2 classes and
  categorical cross-entropy for every other positive count. The library's `sequential`/`add`/`compile` calls are
  replaced by the `HeadConfig` record they would build. The function keeps
  the source's name, `TrainedModel`, and is called as
  `ClassifierHead.TrainedModel`.

Three consequences of the code worth knowing:

- A frame's index is the class's list position when the frame was captured.
  Delete does not rewrite the indexes of the classes after the deleted one.
  `DeleteAtKeepsStaleIndexes` and `DeleteAtBreaksIndexes` state this.
- Deleting or clearing a class does not stop recording.
- The loss is categorical cross-entropy for every class count except 2,
  including 1. A count of 0 is outside the head's domain: the library rejects
  an output layer of 0 units before any loss is chosen.

The component uses the field names `clasificationName`, `framesUrlDatas`,
`imageDatas` and `indexes`. The declared interface
(`src/interfaces/classification.model.ts:1-7`) spells them differently and
declares an `index` field that the component never writes. The model uses the
component's names.

## Model

| member | source | states |
|---|---|---|
| SampleStore.MapAt | src/component/classification.component.tsx:45-55 | The position-wise map shared by append, clear and rename: the list keeps its length and every class at a position other than `idx`; in range the class at `idx` becomes the updater applied to it; out of range the list is unchanged. |
| SampleStore.AppendFrame | src/component/classification.component.tsx:44-57 | Out of range, the list is unchanged. In range, the list keeps its length and every other class. Class `idx` keeps its name, and each of its three arrays grows by exactly one at the end, with its old prefix intact. The new entries are the frame's data URL, its image data, and `idx` itself. |
| SampleStore.AppendFrameAt | src/component/classification.component.tsx:47-52 | After one tick, class `idx` is its old record with the data URL, the image data and `idx` appended to the three arrays. |
| SampleStore.ClearFrames | src/component/classification.component.tsx:70-86 | Out of range, the list is unchanged. In range, class `idx` keeps its name and has three empty arrays, and every other class is untouched. |
| SampleStore.ChangeName | src/component/classification.component.tsx:88-102 | Out of range, the list is unchanged. In range, only the name of class `idx` becomes the input's value. Its frames, image data and indexes are untouched, and so are the other classes. |
| SampleStore.KeepOthers | src/component/classification.component.tsx:107 | The index-based filter, written out element by element, equals the list with position `idx` cut out, or the list itself when `idx` is not one of its positions. |
| SampleStore.DeleteAt | src/component/classification.component.tsx:104-110 | In range, the length drops by one. Out of range, the list is unchanged. Classes before `idx` stay where they were, and each later class moves down one position with its contents, `indexes` included, unchanged. |
| SampleStore.AppendFramePreservesAligned | src/component/classification.component.tsx:47-52 | Appending a frame keeps all three arrays of every class the same length. |
| SampleStore.ClearFramesPreservesAligned | src/component/classification.component.tsx:72-82 | Clearing keeps all three arrays of every class the same length. |
| SampleStore.ChangeNamePreservesAligned | src/component/classification.component.tsx:90-98 | Renaming keeps all three arrays of every class the same length. |
| SampleStore.DeleteAtPreservesAligned | src/component/classification.component.tsx:106-109 | Deleting keeps all three arrays of every remaining class the same length. |
| SampleStore.AppendFramePreservesIndexes | src/component/classification.component.tsx:42-51 | The appended index is the class's position, so "every stored index equals its class's position" survives an append. |
| SampleStore.ClearFramesPreservesIndexes | src/component/classification.component.tsx:72-82 | "Every stored index equals its class's position" survives a clear. |
| SampleStore.ChangeNamePreservesIndexes | src/component/classification.component.tsx:90-98 | "Every stored index equals its class's position" survives a rename. |
| SampleStore.DeleteAtKeepsStaleIndexes | src/component/classification.component.tsx:107 | After deleting a class before class `j`, class `j` sits at position `j - 1`, and every one of its stored indexes is still `j`. |
| SampleStore.DeleteAtBreaksIndexes | src/component/classification.component.tsx:107 | A two-class list whose second class holds one frame with index 1 satisfies "indexes equal positions". After the first class is deleted, the list no longer does. |
| SampleStore.ClearFramesIdempotent | src/component/classification.component.tsx:70-86 | Clearing the same class twice gives the same list as clearing it once. |
| SampleStore.ChangeNameLastWins | src/component/classification.component.tsx:88-102 | Two renames of one class give the same list as the second rename alone. |
| SampleStore.ClearFramesAfterAppend | src/component/classification.component.tsx:44-86 | Clearing a class after a frame was appended to it gives the same list as clearing it without the append. |
| SampleStore.Record | src/component/classification.component.tsx:27-60 | A recording session, one capture tick per frame applied in capture order, keeps the list's length. |
| SampleStore.RecordOthersUntouched | src/component/classification.component.tsx:27-60 | Any number of capture ticks for class `idx` leaves the list's length and every other class unchanged. |
| SampleStore.RecordAppendsAll | src/component/classification.component.tsx:27-60 | After a session of ticks, class `idx` keeps its name. Its arrays are the old ones followed by the session's data URLs and image data in capture order, and by one copy of `idx` per frame. |
| SampleStore.RecordPreservesAligned | src/component/classification.component.tsx:27-60 | The three arrays of every class stay the same length after every tick of a recording session. |
| SampleStore.Store.constructor | src/component/classification.component.tsx:22-23 | The shared list starts as the given list. |
| SampleStore.ClassificationCmp.constructor | src/component/classification.component.tsx:21 | A card over a list with aligned frame arrays starts with recording off, bound to its store and position, with the aligned-arrays invariant established. |
| SampleStore.ClassificationCmp.RecordEnabled | src/component/classification.component.tsx:127 | The record button is enabled exactly when the class's name is non-empty. |
| SampleStore.ClassificationCmp.MouseDown | src/component/classification.component.tsx:129 | Mouse-down turns recording on when the button is enabled. A disabled button gets no event, so the flag stays as it was. |
| SampleStore.ClassificationCmp.MouseUp | src/component/classification.component.tsx:130 | Mouse-up turns recording off when the button is enabled. A disabled button gets no mouse-up, so recording then goes on until the mouse leaves the button. |
| SampleStore.ClassificationCmp.MouseLeave | src/component/classification.component.tsx:131 | Mouse-leave turns recording off, whatever it was, on an enabled or a disabled button. |
| SampleStore.ClassificationCmp.Tick | src/component/classification.component.tsx:27-60 | A tick appends the captured frame to the card's class only while recording and only when a frame was captured. Otherwise the list is unchanged. A list with aligned frame arrays stays aligned. |
| SampleStore.ClassificationCmp.ClearFramesHandler | src/component/classification.component.tsx:70-86 | The shared list becomes the clear updater applied to it, and a list with aligned frame arrays stays aligned. |
| SampleStore.ClassificationCmp.ChangeNameHandler | src/component/classification.component.tsx:88-102 | The shared list becomes the rename updater applied to it with the typed value, and a list with aligned frame arrays stays aligned. |
| SampleStore.ClassificationCmp.DeleteHandler | src/component/classification.component.tsx:104-110 | The shared list becomes the delete updater applied to it, and a list with aligned frame arrays stays aligned. |
| ClassifierHead.LossFor | src/model/trained-model.ts:24-27 | The loss is binary cross-entropy exactly when the class count is 2, and categorical cross-entropy exactly when it is not. |
| ClassifierHead.TrainedModel | src/model/trained-model.ts:3-33 | There are exactly two layers, chained from a declared 1024-wide input. The hidden layer has 128 relu units. The output layer has one softmax unit per class. The optimizer is `adam`, the metrics are exactly `['accuracy']`, and the loss is binary exactly for 2 classes. |
| ClassifierHead.TrainedModelShapes | src/model/trained-model.ts:6-14 | The head reads 1024 inputs, its output layer reads the hidden layer's 128 units, and it emits as many scores as there are classes. |
| ClassifierHead.TrainedModelDependsOnCountOnly | src/model/trained-model.ts:3-30 | Heads for two class counts agree on the hidden layer, the output activation, the optimizer and the metrics. They have the same loss exactly when both counts or neither count is 2, and they are equal exactly when the counts are equal. |

## Left out

- Frame capture: the canvas drawing, `toDataURL` and `getImageData` calls (`src/utils/utilities.ts`, component lines 29-41) are DOM I/O. `Tick` takes the captured frame as a parameter. It gets `None` when there was no video element, and also when the tick threw: `createCanvasContextFromVideo` throws when it gets no 2D context (`src/utils/utilities.ts:9-11`), and `getImageData` throws for a video of zero width. A tick that throws leaves the list unchanged and the interval keeps running, which is what `None` gives.
- Timing: the `setInterval` every `FRAME_RATE_MS` and its `clearInterval` on effect cleanup (component lines 25-68) are timer scheduling. A tick is an explicit method call, and the interval's existence is the `isRecording` test inside `Tick`.
- `classificationIdx` is a prop that the parent may change between renders. Here it is fixed when the card is built; the parent component is not part of this model.
- Rendering: reading `classifications[classificationIdx]` during render fails when the position is out of range. `RecordEnabled` therefore requires an in-range position. The frame thumbnails, the badge count and the "Delete Frames" button are not modelled. The `console.log` in the delete handler is not modelled either.
- The initial contents of the shared atom and the creation of new classes live in files that are not part of this model.
- The camera (`src/App.tsx`, `src/component/cam.component.tsx`) and the display components (`captured.component.tsx`, `der.component.tsx`) are I/O and UI.
- The embedding model load and warm-up (`src/model/mobilenet.ts`) is a network load and floating point.
- ClassifierHead.TrainedModel: the library's validation of the layer arguments, for example its rejection of a non-positive unit count, is not modelled. The head is a configuration record, and no weights, training or inference are modelled.
- Training-set assembly (shuffling, one-hot encoding) and the live prediction loop do not appear in the modelled files.

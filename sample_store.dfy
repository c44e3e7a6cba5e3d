/** The list of classes that the capture screen edits: one record per class,
    holding its name and the frames captured for it. The list lives in a
    shared store and changes only through the four updaters below, each a
    map or a filter over the list by position. */
module SampleStore {

  import opened Wrappers

  /** The data URL of a captured frame: the string the canvas encodes. */
  type DataUrl = string

  /** The raw pixels of a captured frame; nothing in the store looks inside. */
  type ImageData(==)

  /** One class as the capture component writes it. The three frame arrays
      are parallel: entry k of each describes the k-th captured frame. */
  datatype Classification = Classification(
    clasificationName: string,
    framesUrlDatas: seq<DataUrl>,
    imageDatas: seq<ImageData>,
    indexes: seq<int>)

  /** The three frame arrays of one class have the same length. */
  predicate AlignedClass(c: Classification)
  {
    |c.framesUrlDatas| == |c.imageDatas| == |c.indexes|
  }

  /** Every class of the list has aligned frame arrays. */
  predicate Aligned(state: seq<Classification>)
  {
    forall i :: 0 <= i < |state| ==> AlignedClass(state[i])
  }

  /** Every index stored by a class is that class's position in the list. */
  predicate IndexesMatchPositions(state: seq<Classification>)
  {
    forall i, k :: 0 <= i < |state| && 0 <= k < |state[i].indexes| ==> state[i].indexes[k] == i
  }

  /** `after` has the length of `before` and agrees with it at every position but `idx`. */
  predicate SameExceptAt(before: seq<Classification>, after: seq<Classification>, idx: int)
  {
    |after| == |before| &&
    forall i :: 0 <= i < |before| && i != idx ==> after[i] == before[i]
  }

  /** `state.map((c, i) => i === idx ? f(c) : c)`. */
  function MapAt(state: seq<Classification>, idx: int, f: Classification -> Classification): (r: seq<Classification>)
    ensures SameExceptAt(state, r, idx)
    ensures 0 <= idx < |state| ==> r[idx] == f(state[idx])
    ensures !(0 <= idx < |state|) ==> r == state
  {
    seq(|state|, i requires 0 <= i < |state| => if i == idx then f(state[i]) else state[i])
  }

  /** One capture tick's updater: the class at `idx` gets the new frame at the
      end of each of its three arrays, and `idx` itself as the frame's index. */
  function AppendFrame(state: seq<Classification>, idx: int, dataUrl: DataUrl, imageData: ImageData): (r: seq<Classification>)
    ensures SameExceptAt(state, r, idx)
    ensures !(0 <= idx < |state|) ==> r == state
    ensures 0 <= idx < |state| ==>
      var (c, d) := (state[idx], r[idx]);
      d.clasificationName == c.clasificationName &&
      |d.framesUrlDatas| == |c.framesUrlDatas| + 1 &&
      |d.imageDatas| == |c.imageDatas| + 1 &&
      |d.indexes| == |c.indexes| + 1 &&
      d.framesUrlDatas[..|c.framesUrlDatas|] == c.framesUrlDatas &&
      d.imageDatas[..|c.imageDatas|] == c.imageDatas &&
      d.indexes[..|c.indexes|] == c.indexes &&
      d.framesUrlDatas[|c.framesUrlDatas|] == dataUrl &&
      d.imageDatas[|c.imageDatas|] == imageData &&
      d.indexes[|c.indexes|] == idx
  {
    MapAt(state, idx, (c: Classification) => c.(framesUrlDatas := c.framesUrlDatas + [dataUrl],
                              imageDatas := c.imageDatas + [imageData],
                              indexes := c.indexes + [idx]))
  }

  /** The "Delete Frames" updater: the class at `idx` keeps its name and loses every frame. */
  function ClearFrames(state: seq<Classification>, idx: int): (r: seq<Classification>)
    ensures SameExceptAt(state, r, idx)
    ensures !(0 <= idx < |state|) ==> r == state
    ensures 0 <= idx < |state| ==>
      r[idx].clasificationName == state[idx].clasificationName &&
      r[idx].framesUrlDatas == [] && r[idx].imageDatas == [] && r[idx].indexes == []
  {
    MapAt(state, idx, (c: Classification) => c.(framesUrlDatas := [], indexes := [], imageDatas := []))
  }

  /** The name-input updater: the class at `idx` takes `value` as its name and
      keeps its frames. */
  function ChangeName(state: seq<Classification>, idx: int, value: string): (r: seq<Classification>)
    ensures SameExceptAt(state, r, idx)
    ensures !(0 <= idx < |state|) ==> r == state
    ensures 0 <= idx < |state| ==>
      r[idx].clasificationName == value &&
      r[idx].framesUrlDatas == state[idx].framesUrlDatas &&
      r[idx].imageDatas == state[idx].imageDatas &&
      r[idx].indexes == state[idx].indexes
  {
    MapAt(state, idx, (c: Classification) => c.(clasificationName := value))
  }

  /** `s.filter((_, i) => i !== idx)` where the elements of `s` sit at
      positions `offset`, `offset + 1`, ... of the list being filtered. */
  function KeepOthers(s: seq<Classification>, idx: int, offset: int): (r: seq<Classification>)
    ensures r == if offset <= idx < offset + |s| then s[..idx - offset] + s[idx - offset + 1..] else s
    decreases |s|
  {
    if s == [] then []
    else (if offset == idx then [] else [s[0]]) + KeepOthers(s[1..], idx, offset + 1)
  }

  /** The delete updater: the class at `idx` leaves the list, the others keep
      their order and their contents, `indexes` included. */
  function DeleteAt(state: seq<Classification>, idx: int): (r: seq<Classification>)
    ensures 0 <= idx < |state| ==> |r| == |state| - 1
    ensures !(0 <= idx < |state|) ==> r == state
    ensures forall i :: 0 <= i < |r| && i < idx ==> r[i] == state[i]
    ensures forall i :: 0 <= i < |r| && 0 <= idx <= i ==> r[i] == state[i + 1]
  {
    KeepOthers(state, idx, 0)
  }

  /** A frame as one capture tick reads it from the canvas. */
  datatype Shot = Shot(dataUrl: DataUrl, imageData: ImageData)

  /** The list after a recording session of consecutive ticks for class `idx`. */
  function Record(state: seq<Classification>, idx: int, shots: seq<Shot>): (r: seq<Classification>)
    ensures |r| == |state|
    decreases |shots|
  {
    if shots == [] then state
    else Record(AppendFrame(state, idx, shots[0].dataUrl, shots[0].imageData), idx, shots[1..])
  }

  /** The data URLs of a session's frames, in capture order. */
  function DataUrls(shots: seq<Shot>): (r: seq<DataUrl>)
    ensures |r| == |shots|
  {
    if shots == [] then [] else [shots[0].dataUrl] + DataUrls(shots[1..])
  }

  /** The pixel buffers of a session's frames, in capture order. */
  function ImageDatas(shots: seq<Shot>): (r: seq<ImageData>)
    ensures |r| == |shots|
  {
    if shots == [] then [] else [shots[0].imageData] + ImageDatas(shots[1..])
  }

  /** `n` copies of `x`. */
  function Repeat(x: int, n: nat): (r: seq<int>)
    ensures |r| == n
  {
    if n == 0 then [] else [x] + Repeat(x, n - 1)
  }

  /** A sequence whose every element is `x` is `Repeat(x, _)` of its length. */
  lemma {:induction false} AllEqualIsRepeat(s: seq<int>, x: int)
    requires forall k :: 0 <= k < |s| ==> s[k] == x
    ensures s == Repeat(x, |s|)
  {
    if s != [] {
      AllEqualIsRepeat(s[1..], x);
    }
  }

  // ---------------------------------------------------------------------------
  // Invariants the updaters keep

  lemma AppendFramePreservesAligned(state: seq<Classification>, idx: int, dataUrl: DataUrl, imageData: ImageData)
    requires Aligned(state)
    ensures Aligned(AppendFrame(state, idx, dataUrl, imageData))
  {
  }

  lemma ClearFramesPreservesAligned(state: seq<Classification>, idx: int)
    requires Aligned(state)
    ensures Aligned(ClearFrames(state, idx))
  {
  }

  lemma ChangeNamePreservesAligned(state: seq<Classification>, idx: int, value: string)
    requires Aligned(state)
    ensures Aligned(ChangeName(state, idx, value))
  {
  }

  lemma DeleteAtPreservesAligned(state: seq<Classification>, idx: int)
    requires Aligned(state)
    ensures Aligned(DeleteAt(state, idx))
  {
  }

  /** Appending at the class's own position keeps every stored index equal to its class's position. */
  lemma AppendFramePreservesIndexes(state: seq<Classification>, idx: int, dataUrl: DataUrl, imageData: ImageData)
    requires IndexesMatchPositions(state)
    ensures IndexesMatchPositions(AppendFrame(state, idx, dataUrl, imageData))
  {
  }

  lemma ClearFramesPreservesIndexes(state: seq<Classification>, idx: int)
    requires IndexesMatchPositions(state)
    ensures IndexesMatchPositions(ClearFrames(state, idx))
  {
  }

  lemma ChangeNamePreservesIndexes(state: seq<Classification>, idx: int, value: string)
    requires IndexesMatchPositions(state)
    ensures IndexesMatchPositions(ChangeName(state, idx, value))
  {
  }

  /** Deleting a class before a class that has frames leaves that class's
      stored indexes one above its new position: delete does not rewrite them. */
  lemma DeleteAtKeepsStaleIndexes(state: seq<Classification>, idx: int, j: int)
    requires IndexesMatchPositions(state)
    requires 0 <= idx < j < |state|
    ensures DeleteAt(state, idx)[j - 1].indexes == Repeat(j, |state[j].indexes|)
  {
    AllEqualIsRepeat(state[j].indexes, j);
  }

  /** So delete does not keep "indexes match positions": a two-class list whose
      second class has one frame loses it when the first class is deleted. */
  lemma DeleteAtBreaksIndexes(a: Classification, b: Classification)
    requires a.indexes == [] && b.indexes == [1]
    ensures IndexesMatchPositions([a, b])
    ensures !IndexesMatchPositions(DeleteAt([a, b], 0))
  {
    var r := DeleteAt([a, b], 0);
    assert r[0].indexes[0] == 1;
  }

  // ---------------------------------------------------------------------------
  // Algebra of the updaters

  /** Clearing twice is clearing once. */
  lemma ClearFramesIdempotent(state: seq<Classification>, idx: int)
    ensures ClearFrames(ClearFrames(state, idx), idx) == ClearFrames(state, idx)
  {
  }

  /** Renaming twice keeps only the second name. */
  lemma ChangeNameLastWins(state: seq<Classification>, idx: int, first: string, second: string)
    ensures ChangeName(ChangeName(state, idx, first), idx, second) == ChangeName(state, idx, second)
  {
  }

  /** Clearing after appending forgets the appended frame: the class ends as a plain clear leaves it. */
  lemma ClearFramesAfterAppend(state: seq<Classification>, idx: int, dataUrl: DataUrl, imageData: ImageData)
    ensures ClearFrames(AppendFrame(state, idx, dataUrl, imageData), idx) == ClearFrames(state, idx)
  {
  }

  /** The class at `idx` after one capture tick, as a whole record. */
  lemma AppendFrameAt(state: seq<Classification>, idx: int, dataUrl: DataUrl, imageData: ImageData)
    requires 0 <= idx < |state|
    ensures var c := state[idx];
      AppendFrame(state, idx, dataUrl, imageData)[idx] ==
        Classification(c.clasificationName, c.framesUrlDatas + [dataUrl], c.imageDatas + [imageData], c.indexes + [idx])
  {
  }

  /** A recording session of consecutive ticks touches no class but `idx`. */
  lemma {:induction false} RecordOthersUntouched(state: seq<Classification>, idx: int, shots: seq<Shot>)
    ensures SameExceptAt(state, Record(state, idx, shots), idx)
    decreases |shots|
  {
    if shots != [] {
      var next := AppendFrame(state, idx, shots[0].dataUrl, shots[0].imageData);
      RecordOthersUntouched(next, idx, shots[1..]);
    }
  }

  /** A recording session of consecutive ticks: class `idx` ends with all of
      the session's frames appended in capture order, each with index `idx`,
      and its name unchanged. */
  lemma {:induction false} RecordAppendsAll(state: seq<Classification>, idx: int, shots: seq<Shot>)
    requires 0 <= idx < |state|
    ensures var c := state[idx];
      Record(state, idx, shots)[idx] ==
        Classification(c.clasificationName, c.framesUrlDatas + DataUrls(shots),
                       c.imageDatas + ImageDatas(shots), c.indexes + Repeat(idx, |shots|))
    decreases |shots|
  {
    RecordOthersUntouched(state, idx, shots);
    if shots != [] {
      var u, m := shots[0].dataUrl, shots[0].imageData;
      var next := AppendFrame(state, idx, u, m);
      var c := state[idx];
      AppendFrameAt(state, idx, u, m);
      RecordAppendsAll(next, idx, shots[1..]);
      assert c.framesUrlDatas + [u] + DataUrls(shots[1..]) == c.framesUrlDatas + DataUrls(shots);
      assert c.imageDatas + [m] + ImageDatas(shots[1..]) == c.imageDatas + ImageDatas(shots);
      assert c.indexes + [idx] + Repeat(idx, |shots| - 1) == c.indexes + Repeat(idx, |shots|);
    }
  }

  /** Frames stay aligned after every tick of a recording session. */
  lemma {:induction false} RecordPreservesAligned(state: seq<Classification>, idx: int, shots: seq<Shot>)
    requires Aligned(state)
    ensures Aligned(Record(state, idx, shots))
    decreases |shots|
  {
    if shots != [] {
      AppendFramePreservesAligned(state, idx, shots[0].dataUrl, shots[0].imageData);
      RecordPreservesAligned(AppendFrame(state, idx, shots[0].dataUrl, shots[0].imageData), idx, shots[1..]);
    }
  }

  // ---------------------------------------------------------------------------
  // The shared store and the capture component

  /** The shared atom holding the list of classes. */
  class Store {
    var classifications: seq<Classification>

    constructor (initial: seq<Classification>)
      ensures classifications == initial
    {
      classifications := initial;
    }
  }

  /** One capture card: the class at `classificationIdx` of the shared list,
      with its own press-to-record flag. */
  class ClassificationCmp {
    const store: Store
    const classificationIdx: int
    var isRecording: bool

    ghost predicate Valid()
      reads this, store
    {
      Aligned(store.classifications)
    }

    constructor (store: Store, classificationIdx: int)
      requires Aligned(store.classifications)
      ensures Valid()
      ensures this.store == store && this.classificationIdx == classificationIdx
      ensures !isRecording
    {
      this.store := store;
      this.classificationIdx := classificationIdx;
      isRecording := false;
    }

    /** The record button is enabled exactly when the class's name is non-empty. */
    function RecordEnabled(): (enabled: bool)
      reads this, store
      requires 0 <= classificationIdx < |store.classifications|
      ensures enabled <==> |store.classifications[classificationIdx].clasificationName| > 0
    {
      store.classifications[classificationIdx].clasificationName != ""
    }

    /** Mouse-down on the record button arms recording; a disabled button
        (empty name) receives no mouse-down. */
    method MouseDown()
      requires 0 <= classificationIdx < |store.classifications|
      modifies this
      ensures isRecording == (old(isRecording) || old(RecordEnabled()))
    {
      if RecordEnabled() {
        isRecording := true;
      }
    }

    /** Mouse-up disarms recording; a disabled button (empty name) receives
        no mouse-up either, so recording then goes on. */
    method MouseUp()
      requires 0 <= classificationIdx < |store.classifications|
      modifies this
      ensures isRecording == (old(isRecording) && !old(RecordEnabled()))
    {
      if RecordEnabled() {
        isRecording := false;
      }
    }

    /** Leaving the button disarms recording; this event reaches a disabled
        button too. */
    method MouseLeave()
      modifies this
      ensures !isRecording
    {
      isRecording := false;
    }

    /** One interval tick. The interval runs only while recording. A tick
        commits a frame only when one was captured (`frame` is then `Some`);
        `None` stands for a tick that found no video element or that threw
        while capturing, and leaves the list as it was. */
    method Tick(frame: Option<Shot>)
      modifies store
      ensures old(Valid()) ==> Valid()
      ensures store.classifications ==
        if isRecording && frame.Some?
        then AppendFrame(old(store.classifications), classificationIdx, frame.value.dataUrl, frame.value.imageData)
        else old(store.classifications)
    {
      if isRecording && frame.Some? {
        if Valid() { AppendFramePreservesAligned(store.classifications, classificationIdx, frame.value.dataUrl, frame.value.imageData); }
        store.classifications := AppendFrame(store.classifications, classificationIdx, frame.value.dataUrl, frame.value.imageData);
      }
    }

    /** The "Delete Frames" button. */
    method ClearFramesHandler()
      modifies store
      ensures old(Valid()) ==> Valid()
      ensures store.classifications == ClearFrames(old(store.classifications), classificationIdx)
    {
      if Valid() { ClearFramesPreservesAligned(store.classifications, classificationIdx); }
      store.classifications := ClearFrames(store.classifications, classificationIdx);
    }

    /** Typing in the name input. */
    method ChangeNameHandler(value: string)
      modifies store
      ensures old(Valid()) ==> Valid()
      ensures store.classifications == ChangeName(old(store.classifications), classificationIdx, value)
    {
      if Valid() { ChangeNamePreservesAligned(store.classifications, classificationIdx, value); }
      store.classifications := ChangeName(store.classifications, classificationIdx, value);
    }

    /** The trash button. */
    method DeleteHandler()
      modifies store
      ensures old(Valid()) ==> Valid()
      ensures store.classifications == DeleteAt(old(store.classifications), classificationIdx)
    {
      if Valid() { DeleteAtPreservesAligned(store.classifications, classificationIdx); }
      store.classifications := DeleteAt(store.classifications, classificationIdx);
    }
  }

}

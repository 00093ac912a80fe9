/**
 * The application store of src/ui/store/useStore.ts: the displayed pitch, a
 * history of accepted pitches capped at 100 entries, and a few settings.
 * Each action is a pure transition below, applied by a method of `Store`.
 */
module AppStore {
  import opened Wrappers
  import opened PitchDetection

  /** `slice(-99)` keeps 99 entries, and one more is appended. */
  const KeptOnAppend: nat := 99
  const HistoryLimit: nat := 100

  /** How far the cents of the displayed pitch may move before it is replaced. */
  const CentsTolerance: int := 5

  datatype LeaderDirection = LeftToRight | RightToLeft

  function Abs(x: int): int
  {
    if x < 0 then -x else x
  }

  /**
   * The last `k` elements of `s`, or all of `s` when it is shorter. For
   * k > 0 this is JavaScript's `s.slice(-k)` (the store uses k = 99); unlike
   * `slice(-0)`, which copies the whole array, k = 0 gives the empty sequence.
   */
  function SliceFromEnd<T>(s: seq<T>, k: nat): (r: seq<T>)
    ensures |r| == if |s| < k then |s| else k
    ensures s == s[..|s| - |r|] + r
  {
    if |s| < k then s else s[|s| - k..]
  }

  /** `[...history.slice(-99), data]`, the shared rule of `setPitchData` and `addToHistory`. */
  function Appended(history: seq<PitchDetectionResult>, data: PitchDetectionResult): (r: seq<PitchDetectionResult>)
    ensures |r| <= HistoryLimit
  {
    SliceFromEnd(history, KeptOnAppend) + [data]
  }

  /**
   * The displayed pitch is replaced when there is none yet, or the note or
   * octave differs, or the cents moved by more than the tolerance.
   */
  predicate IsNewPitch(current: Option<PitchDetectionResult>, data: PitchDetectionResult)
  {
    current.None? ||
    data.note != current.value.note ||
    data.octave != current.value.octave ||
    Abs(data.cents - current.value.cents) > CentsTolerance
  }

  /** The two fields `setPitchData` touches. */
  datatype Display = Display(pitchData: Option<PitchDetectionResult>, history: seq<PitchDetectionResult>)

  /** `setPitchData(data)` on the fields it touches. */
  function SetPitchDataStep(d: Display, data: Option<PitchDetectionResult>): Display
  {
    if data.Some? && IsNewPitch(d.pitchData, data.value) then
      Display(data, Appended(d.history, data.value))
    else
      d
  }

  /** `addToHistory` applied to each of `ds` in turn. */
  function AddAll(history: seq<PitchDetectionResult>, ds: seq<PitchDetectionResult>): seq<PitchDetectionResult>
    decreases |ds|
  {
    if ds == [] then history else AddAll(Appended(history, ds[0]), ds[1..])
  }

  /**
   * An append keeps the last min(99, |history|) entries in their order, ends
   * with the new entry, and never exceeds 100 entries.
   */
  lemma AppendedShape(history: seq<PitchDetectionResult>, data: PitchDetectionResult)
    ensures var r := Appended(history, data);
      |r| <= HistoryLimit &&
      |r| == (if |history| < KeptOnAppend then |history| else KeptOnAppend) + 1 &&
      r[|r| - 1] == data &&
      history == history[..|history| - (|r| - 1)] + r[..|r| - 1]
  {
    var r := Appended(history, data);
    assert r[..|r| - 1] == SliceFromEnd(history, KeptOnAppend);
  }

  /** An append is the 100-entry window over the history extended by the new entry. */
  lemma AppendedIsWindow(history: seq<PitchDetectionResult>, data: PitchDetectionResult)
    ensures Appended(history, data) == SliceFromEnd(history + [data], HistoryLimit)
  {
    var x := history + [data];
    if |history| >= KeptOnAppend {
      assert x[|x| - HistoryLimit..] == history[|history| - KeptOnAppend..] + [data];
    }
  }

  /** A window no longer than a suffix is the same window of the whole sequence. */
  lemma WindowOfSuffix<T>(z: seq<T>, j: nat, k: nat)
    requires j <= |z| && k <= |z| - j
    ensures SliceFromEnd(z[j..], k) == SliceFromEnd(z, k)
  {
    assert z[j..][|z| - j - k..] == z[|z| - k..];
  }

  /** Windowing twice is windowing once. */
  lemma WindowOfWindow<T>(x: seq<T>, y: seq<T>, k: nat)
    ensures SliceFromEnd(SliceFromEnd(x, k) + y, k) == SliceFromEnd(x + y, k)
  {
    if |x| >= k {
      var j := |x| - k;
      assert SliceFromEnd(x, k) + y == (x + y)[j..];
      WindowOfSuffix(x + y, j, k);
    }
  }

  /**
   * After any non-empty run of appends the history is exactly the last 100
   * entries of the old history followed by everything appended, in order.
   */
  lemma {:induction false} AddAllKeepsLatest(history: seq<PitchDetectionResult>, ds: seq<PitchDetectionResult>)
    requires ds != []
    ensures AddAll(history, ds) == SliceFromEnd(history + ds, HistoryLimit)
    decreases |ds|
  {
    var first, rest := ds[0], ds[1..];
    assert ds == [first] + rest;
    var next := Appended(history, first);
    assert AddAll(history, ds) == AddAll(next, rest);
    AppendedIsWindow(history, first);
    if rest == [] {
      assert history + ds == history + [first];
    } else {
      AddAllKeepsLatest(next, rest);
      WindowOfWindow(history + [first], rest, HistoryLimit);
      assert history + [first] + rest == history + ds by {
        assert forall i :: 0 <= i < |history + ds| ==> (history + [first] + rest)[i] == (history + ds)[i];
      }
    }
  }

  /** `setPitchData(null)` changes nothing. */
  lemma SetNullKeepsDisplay(d: Display)
    ensures SetPitchDataStep(d, None) == d
  {
  }

  /**
   * The displayed pitch changes exactly when a non-null update is a new
   * pitch; then it becomes that update and the update is appended to the
   * history, and otherwise neither field changes.
   */
  lemma SetPitchDataIffNew(d: Display, data: Option<PitchDetectionResult>)
    ensures var r := SetPitchDataStep(d, data);
      (r.pitchData != d.pitchData <==> data.Some? && IsNewPitch(d.pitchData, data.value)) &&
      (r.pitchData != d.pitchData ==> r.pitchData == data && r.history == Appended(d.history, data.value)) &&
      (r.pitchData == d.pitchData ==> r == d)
  {
    if data.Some? && IsNewPitch(d.pitchData, data.value) {
      assert data != d.pitchData;
    }
  }

  /** With nothing displayed, any non-null update is shown and appended. */
  lemma FirstPitchShown(history: seq<PitchDetectionResult>, data: PitchDetectionResult)
    ensures SetPitchDataStep(Display(None, history), Some(data)) == Display(Some(data), Appended(history, data))
  {
  }

  /**
   * A reading of the same note and octave within 5 cents leaves the display
   * and the history as they are, whatever its frequency and confidence.
   */
  lemma SmallCentsChangeIgnored(d: Display, data: PitchDetectionResult)
    requires d.pitchData.Some?
    requires data.note == d.pitchData.value.note && data.octave == d.pitchData.value.octave
    requires -CentsTolerance <= data.cents - d.pitchData.value.cents <= CentsTolerance
    ensures SetPitchDataStep(d, Some(data)) == d
  {
  }

  /** `setPitchData` keeps the history within 100 entries. */
  lemma SetPitchDataBoundsHistory(d: Display, data: Option<PitchDetectionResult>)
    requires |d.history| <= HistoryLimit
    ensures |SetPitchDataStep(d, data).history| <= HistoryLimit
  {
    if data.Some? {
      AppendedShape(d.history, data.value);
    }
  }

  class Store {
    var isRecording: bool
    var pitchData: Option<PitchDetectionResult>
    var error: Option<string>
    var clarityThreshold: real
    var leaderDirection: LeaderDirection
    var history: seq<PitchDetectionResult>

    ghost predicate Valid()
      reads this
    {
      |history| <= HistoryLimit
    }

    function Displayed(): Display
      reads this
    {
      Display(pitchData, history)
    }

    /** The initial state. */
    constructor ()
      ensures Valid()
      ensures !isRecording && pitchData == None && error == None
      ensures clarityThreshold == 0.8 && leaderDirection == LeftToRight && history == []
    {
      isRecording := false;
      pitchData := None;
      error := None;
      clarityThreshold := 0.8;
      leaderDirection := LeftToRight;
      history := [];
    }

    method SetIsRecording(value: bool)
      modifies this
      ensures isRecording == value
      ensures pitchData == old(pitchData) && error == old(error) && history == old(history)
      ensures clarityThreshold == old(clarityThreshold) && leaderDirection == old(leaderDirection)
    {
      isRecording := value;
    }

    /** Applies the debounce rule; only the displayed pitch and the history may change. */
    method SetPitchData(data: Option<PitchDetectionResult>)
      requires Valid()
      modifies this
      ensures Valid()
      ensures Displayed() == SetPitchDataStep(old(Displayed()), data)
      ensures isRecording == old(isRecording) && error == old(error)
      ensures clarityThreshold == old(clarityThreshold) && leaderDirection == old(leaderDirection)
    {
      SetPitchDataBoundsHistory(Displayed(), data);
      var next := SetPitchDataStep(Displayed(), data);
      pitchData := next.pitchData;
      history := next.history;
    }

    method SetError(value: Option<string>)
      modifies this
      ensures error == value
      ensures isRecording == old(isRecording) && pitchData == old(pitchData) && history == old(history)
      ensures clarityThreshold == old(clarityThreshold) && leaderDirection == old(leaderDirection)
    {
      error := value;
    }

    method SetClarityThreshold(threshold: real)
      modifies this
      ensures clarityThreshold == threshold
      ensures isRecording == old(isRecording) && pitchData == old(pitchData) && history == old(history)
      ensures error == old(error) && leaderDirection == old(leaderDirection)
    {
      clarityThreshold := threshold;
    }

    method SetLeaderDirection(direction: LeaderDirection)
      modifies this
      ensures leaderDirection == direction
      ensures isRecording == old(isRecording) && pitchData == old(pitchData) && history == old(history)
      ensures error == old(error) && clarityThreshold == old(clarityThreshold)
    {
      leaderDirection := direction;
    }

    /** Appends unconditionally under the 100-entry cap; the displayed pitch is untouched. */
    method AddToHistory(data: PitchDetectionResult)
      requires Valid()
      modifies this
      ensures Valid()
      ensures history == Appended(old(history), data)
      ensures isRecording == old(isRecording) && pitchData == old(pitchData) && error == old(error)
      ensures clarityThreshold == old(clarityThreshold) && leaderDirection == old(leaderDirection)
    {
      history := Appended(history, data);
    }

    method ClearHistory()
      modifies this
      ensures Valid()
      ensures history == []
      ensures isRecording == old(isRecording) && pitchData == old(pitchData) && error == old(error)
      ensures clarityThreshold == old(clarityThreshold) && leaderDirection == old(leaderDirection)
    {
      history := [];
    }
  }

  /** A repeated reading is shown once and recorded once. */
  method DebounceScenario(a4: PitchDetectionResult)
    requires a4.note == Some("A") && a4.octave == 4 && a4.cents == 0
  {
    var store := new Store();
    store.SetPitchData(Some(a4));
    assert store.history == [a4];
    store.SetPitchData(Some(a4.(frequency := a4.frequency + 1.0, cents := 4)));
    assert store.pitchData == Some(a4) && store.history == [a4];
    store.SetPitchData(None);
    assert store.pitchData == Some(a4) && store.history == [a4];
  }
}

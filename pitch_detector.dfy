/**
 * The pitch detector of src/audio/PitchDetector.ts: a raw autocorrelation
 * argmax over one analyser frame, an accept/reject filter on the resulting
 * frequency and confidence, the mapping of a frequency to a note name,
 * octave and cents, and the start/stop/analyze lifecycle of the detector.
 *
 * Samples, frequencies and confidences are `real`; `Math.log2` is passed in
 * as the function `log2`, and JavaScript's `Math.round`, `Math.floor` and `%`
 * are written out below.
 */
module PitchDetection {
  import opened Wrappers

  /** The analyser's `fftSize` and the assumed sample rate. */
  const BufferSize: nat := 1024
  const SampleRate: real := 48000.0

  /** The accept/reject filter: the human vocal range and the confidence floor. */
  const MinFrequency: real := 80.0
  const MaxFrequency: real := 1100.0
  const MinConfidence: real := 0.3

  /** A4 = 440 Hz = MIDI note 69. */
  const A4Frequency: real := 440.0
  const A4Midi: int := 69

  const NoteNames: seq<string> := ["C", "C#", "D", "D#", "E", "F", "F#", "G", "G#", "A", "A#", "B"]

  /** What `detectPitch` returns when it accepts a frame. */
  datatype Estimate = Estimate(frequency: real, confidence: real)

  /** What `frequencyToNote` returns; `note` is None where the name table yields `undefined`. */
  datatype NoteInfo = NoteInfo(note: Option<string>, octave: int, cents: int)

  /** `PitchDetectionResult`, the merge of an Estimate and a NoteInfo. */
  datatype PitchDetectionResult =
    PitchDetectionResult(frequency: real, note: Option<string>, octave: int, cents: int, confidence: real)

  // ---------------------------------------------------------------------
  // Autocorrelation (detectPitch)
  // ---------------------------------------------------------------------

  /** The sum buf[0]*buf[lag] + ... + buf[k-1]*buf[k-1+lag], accumulated from index 0 up. */
  function Lagged(s: seq<real>, lag: nat, k: nat): real
    requires k + lag <= |s|
  {
    if k == 0 then 0.0 else Lagged(s, lag, k - 1) + s[k - 1] * s[k - 1 + lag]
  }

  /** The correlation the source stores in `correlations[lag]`, over the first half of the frame. */
  function Correlation(s: seq<real>, lag: nat): real
    requires lag < |s| / 2
  {
    Lagged(s, lag, |s| / 2)
  }

  /** The running maximum and its lag. */
  datatype Peak = Peak(max: real, lag: nat)

  /**
   * The values of `maxCorrelation` and `maxLag` once the lags 0 .. k-1 have
   * been visited: both start at 0, and a lag replaces them only when its
   * correlation is strictly greater than the running maximum.
   */
  function Scan(s: seq<real>, k: nat): (p: Peak)
    requires k <= |s| / 2
    ensures p.max >= 0.0
    ensures p.lag == 0 || p.lag < k
  {
    if k == 0 then Peak(0.0, 0)
    else
      var p := Scan(s, k - 1);
      var c := Correlation(s, k - 1);
      if c > p.max then Peak(c, k - 1) else p
  }

  /** `lag` is the smallest lag whose correlation is the largest of the frame. */
  ghost predicate IsFirstArgMax(s: seq<real>, lag: nat)
  {
    lag < |s| / 2 &&
    (forall l :: 0 <= l < |s| / 2 ==> Correlation(s, l) <= Correlation(s, lag)) &&
    (forall l :: 0 <= l < lag ==> Correlation(s, l) < Correlation(s, lag))
  }

  /**
   * After visiting lags 0 .. k-1 the running maximum is non-negative and no
   * visited correlation exceeds it; it stays 0 at lag 0 when no correlation is
   * positive, and otherwise it is the correlation at the FIRST lag reaching it.
   */
  lemma {:induction false} ScanIsFirstArgMax(s: seq<real>, k: nat)
    requires k <= |s| / 2
    ensures Scan(s, k).max >= 0.0
    ensures forall l :: 0 <= l < k ==> Correlation(s, l) <= Scan(s, k).max
    ensures Scan(s, k).max == 0.0 ==> Scan(s, k).lag == 0
    ensures Scan(s, k).max > 0.0 ==>
      Scan(s, k).lag < k && Correlation(s, Scan(s, k).lag) == Scan(s, k).max &&
      forall l :: 0 <= l < Scan(s, k).lag ==> Correlation(s, l) < Scan(s, k).max
  {
    if k > 0 {
      ScanIsFirstArgMax(s, k - 1);
    }
  }

  /** The first half's energy is never negative, and is positive whenever some lagged sum is not zero. */
  lemma {:induction false} LaggedNeedsEnergy(s: seq<real>, lag: nat, k: nat)
    requires k + lag <= |s|
    ensures Lagged(s, 0, k) >= 0.0
    ensures Lagged(s, lag, k) != 0.0 ==> Lagged(s, 0, k) > 0.0
  {
    if k > 0 {
      LaggedNeedsEnergy(s, lag, k - 1);
      var x := s[k - 1];
      if x > 0.0 {
        assert x * x > 0.0;
      } else if x < 0.0 {
        assert (-x) * (-x) > 0.0;
      } else {
        assert x * s[k - 1 + lag] == 0.0;
      }
    }
  }

  /**
   * The result of `detectPitch` on a frame. A frame whose peak stays at lag 0
   * gives sampleRate / 0 = +Infinity, which the filter rejects as above
   * MaxFrequency; otherwise the peak is positive, so the frame's energy
   * `correlations[0]` is positive and the confidence is well defined.
   */
  function Detect(s: seq<real>): Option<Estimate>
  {
    var p := Scan(s, |s| / 2);
    if p.lag == 0 then None
    else
      ScanIsFirstArgMax(s, |s| / 2);
      LaggedNeedsEnergy(s, p.lag, |s| / 2);
      var frequency := SampleRate / (p.lag as real);
      var confidence := p.max / Correlation(s, 0);
      if frequency < MinFrequency || frequency > MaxFrequency || confidence < MinConfidence then None
      else Some(Estimate(frequency, confidence))
  }

  /**
   * A declarative statement of an accepted frame: the estimate comes from the
   * first lag of maximal, positive correlation, as frequency = sampleRate / lag
   * and confidence = correlation(lag) / correlation(0), and passes the filter.
   */
  ghost predicate Accepts(s: seq<real>, e: Estimate)
  {
    exists lag: nat :: IsFirstArgMax(s, lag) && AcceptedAt(s, lag, e)
  }

  ghost predicate AcceptedAt(s: seq<real>, lag: nat, e: Estimate)
    requires lag < |s| / 2
  {
    0 < lag && Correlation(s, lag) > 0.0 && Correlation(s, 0) > 0.0 &&
    e.frequency * (lag as real) == SampleRate &&
    e.confidence * Correlation(s, 0) == Correlation(s, lag) &&
    MinFrequency <= e.frequency <= MaxFrequency &&
    e.confidence >= MinConfidence
  }

  /** Two first argmaxes of the same frame are the same lag. */
  lemma FirstArgMaxUnique(s: seq<real>, a: nat, b: nat)
    requires IsFirstArgMax(s, a) && IsFirstArgMax(s, b)
    ensures a == b
  {
    assert Correlation(s, a) == Correlation(s, b);
    assert !(a < b);
    assert !(b < a);
  }

  /** Multiplying out an upper bound on a positive factor. */
  lemma ScaledBound(x: real, y: real, c: real, m: real)
    requires y > 0.0 && x * y == c && x <= m
    ensures c <= m * y
  {
    var d := m - x;
    assert d >= 0.0;
    assert d * y >= 0.0;
    assert m * y - x * y == d * y;
  }

  /** Dividing a product by its non-zero factor. */
  lemma QuotientOfProduct(x: real, y: real, c: real)
    requires y != 0.0 && x * y == c
    ensures x == c / y
  {
  }

  /** The peak of the full scan is the first argmax whenever it is positive. */
  lemma ScanPeakIsFirstArgMax(s: seq<real>)
    requires Scan(s, |s| / 2).max > 0.0
    ensures IsFirstArgMax(s, Scan(s, |s| / 2).lag)
  {
    ScanIsFirstArgMax(s, |s| / 2);
  }

  /** Every estimate `detectPitch` returns is one the declarative statement describes. */
  lemma DetectSound(s: seq<real>, e: Estimate)
    requires Detect(s) == Some(e)
    ensures Accepts(s, e)
  {
    var p := Scan(s, |s| / 2);
    ScanIsFirstArgMax(s, |s| / 2);
    LaggedNeedsEnergy(s, p.lag, |s| / 2);
    ScanPeakIsFirstArgMax(s);
    assert AcceptedAt(s, p.lag, e);
  }

  /** A first argmax of positive correlation is the peak the scan ends with. */
  lemma ScanFindsFirstArgMax(s: seq<real>, lag: nat)
    requires IsFirstArgMax(s, lag) && Correlation(s, lag) > 0.0
    ensures Scan(s, |s| / 2) == Peak(Correlation(s, lag), lag)
  {
    var p := Scan(s, |s| / 2);
    ScanIsFirstArgMax(s, |s| / 2);
    assert p.max > 0.0;
    assert IsFirstArgMax(s, p.lag);
    FirstArgMaxUnique(s, lag, p.lag);
  }

  /** Every estimate the declarative statement describes is the one `detectPitch` returns. */
  lemma DetectComplete(s: seq<real>, e: Estimate)
    requires Accepts(s, e)
    ensures Detect(s) == Some(e)
  {
    var p := Scan(s, |s| / 2);
    var lag: nat :| IsFirstArgMax(s, lag) && AcceptedAt(s, lag, e);
    assert p.lag == lag && p.max == Correlation(s, lag) by {
      ScanFindsFirstArgMax(s, lag);
    }
    QuotientOfProduct(e.frequency, lag as real, SampleRate);
    QuotientOfProduct(e.confidence, Correlation(s, 0), Correlation(s, lag));
  }

  /** `detectPitch` accepts exactly the estimates the declarative statement describes. */
  lemma DetectIffAccepts(s: seq<real>, e: Estimate)
    ensures Detect(s) == Some(e) <==> Accepts(s, e)
  {
    if Detect(s) == Some(e) {
      DetectSound(s, e);
    }
    if Accepts(s, e) {
      DetectComplete(s, e);
    }
  }

  /**
   * Every accepted estimate lies in the vocal band and passes the confidence
   * floor. Because lag 0 is visited first and only a strictly larger
   * correlation displaces it, an accepted confidence is always above 1, and a
   * frame of fewer than 90 samples (no lag of 44 or more) is never accepted.
   */
  lemma DetectAcceptedBounds(s: seq<real>, e: Estimate)
    requires Detect(s) == Some(e)
    ensures MinFrequency <= e.frequency <= MaxFrequency
    ensures e.confidence >= MinConfidence
    ensures e.confidence > 1.0
    ensures |s| >= 90
  {
    var lag := AcceptedLag(s, e);
    AcceptedAtBounds(s, lag, e);
  }

  /** The lag an accepted estimate comes from. */
  lemma AcceptedLag(s: seq<real>, e: Estimate) returns (lag: nat)
    requires Detect(s) == Some(e)
    ensures IsFirstArgMax(s, lag) && AcceptedAt(s, lag, e)
  {
    assert Accepts(s, e) by {
      DetectSound(s, e);
    }
    lag :| IsFirstArgMax(s, lag) && AcceptedAt(s, lag, e);
  }

  /** An estimate accepted at a first argmax has confidence above 1 and a lag of at least 44. */
  lemma AcceptedAtBounds(s: seq<real>, lag: nat, e: Estimate)
    requires IsFirstArgMax(s, lag) && AcceptedAt(s, lag, e)
    ensures e.confidence > 1.0 && |s| >= 90
  {
    var c0 := Correlation(s, 0);
    assert c0 < Correlation(s, lag);
    if e.confidence <= 1.0 {
      ScaledBound(e.confidence, c0, Correlation(s, lag), 1.0);
    }
    ScaledBound(e.frequency, lag as real, SampleRate, MaxFrequency);
  }

  /** Every lagged sum of an all-zero frame is zero. */
  lemma {:induction false} LaggedOfSilence(s: seq<real>, lag: nat, k: nat)
    requires k + lag <= |s|
    requires forall i :: 0 <= i < |s| ==> s[i] == 0.0
    ensures Lagged(s, lag, k) == 0.0
  {
    if k > 0 {
      LaggedOfSilence(s, lag, k - 1);
    }
  }

  /** An all-zero frame (including the empty frame) is rejected. */
  lemma SilenceRejected(s: seq<real>)
    requires forall i :: 0 <= i < |s| ==> s[i] == 0.0
    ensures Detect(s) == None
  {
    var h := |s| / 2;
    ScanIsFirstArgMax(s, h);
    if Scan(s, h).max > 0.0 {
      LaggedOfSilence(s, Scan(s, h).lag, h);
      assert false;
    }
  }

  // ---------------------------------------------------------------------
  // Note mapping (frequencyToNote)
  // ---------------------------------------------------------------------

  /** JavaScript's `Math.round`: the nearest integer, halves rounded up. */
  function JsRound(x: real): (r: int)
    ensures r as real - 0.5 <= x < r as real + 0.5
  {
    (x + 0.5).Floor
  }

  /** JavaScript's `a % 12`: the remainder takes the dividend's sign. */
  function JsRem12(a: int): (r: int)
    ensures a >= 0 ==> 0 <= r < 12
    ensures a < 0 ==> -12 < r <= 0
    ensures (a - r) % 12 == 0
  {
    if a >= 0 then a % 12 else -((-a) % 12)
  }

  /** `noteNames[index]`, None where JavaScript yields `undefined`. */
  function NoteName(index: int): (n: Option<string>)
    ensures n.Some? <==> 0 <= index < |NoteNames|
  {
    if 0 <= index < |NoteNames| then Some(NoteNames[index]) else None
  }

  /** The MIDI note nearest to `halfStepsFromA4` half-steps above A4. */
  function MidiNote(halfStepsFromA4: real): int
  {
    JsRound(A4Midi as real + halfStepsFromA4)
  }

  /**
   * `frequencyToNote` once `12 * Math.log2(frequency / 440)` is known. The
   * octave uses Dafny's `/`, which on a positive divisor is `Math.floor` of
   * the quotient; the note index uses JavaScript's `%`.
   */
  function NoteFromHalfSteps(halfStepsFromA4: real): NoteInfo
  {
    var midiNote := MidiNote(halfStepsFromA4);
    var octave := (midiNote - 12) / 12;
    var noteIndex := JsRem12(midiNote - 12);
    var exactHalfSteps := A4Midi as real + halfStepsFromA4;
    var cents := JsRound((exactHalfSteps - midiNote as real) * 100.0);
    NoteInfo(NoteName(noteIndex), octave, cents)
  }

  /** `frequencyToNote(frequency)`, with `Math.log2` supplied as `log2`. */
  function FrequencyToNote(frequency: real, log2: real -> real): NoteInfo
  {
    NoteFromHalfSteps(12.0 * log2(frequency / A4Frequency))
  }

  /** Cents are rounded from a deviation of at most half a semitone, so they lie in [-50, 50]. */
  lemma CentsWithinHalfSemitone(halfStepsFromA4: real)
    ensures -50 <= NoteFromHalfSteps(halfStepsFromA4).cents <= 50
  {
    var midi := MidiNote(halfStepsFromA4);
    var d := (A4Midi as real + halfStepsFromA4 - midi as real) * 100.0;
    assert -50.0 <= d < 50.0;
  }

  /**
   * From MIDI 12 (C0) up the index is a pitch class in 0 .. 11 and the octave
   * and index recompose the MIDI note: 12 * octave + index + 12 = midi.
   */
  lemma MidiDecomposition(halfStepsFromA4: real)
    requires MidiNote(halfStepsFromA4) >= 12
    ensures var midi, n := MidiNote(halfStepsFromA4), NoteFromHalfSteps(halfStepsFromA4);
      n.octave >= 0 &&
      n.note == Some(NoteNames[(midi - 12) % 12]) &&
      12 * n.octave + (midi - 12) % 12 + 12 == midi
  {
  }

  /**
   * Below MIDI 12 the truncating `%` gives a negative index, so the name is
   * `undefined`, except at multiples of 12 where the remainder is zero and the
   * name is "C".
   */
  lemma BelowC0NameUndefined(halfStepsFromA4: real)
    requires MidiNote(halfStepsFromA4) < 12
    ensures NoteFromHalfSteps(halfStepsFromA4).note.None? <==> MidiNote(halfStepsFromA4) % 12 != 0
  {
    var midi := MidiNote(halfStepsFromA4);
    var r := JsRem12(midi - 12);
    assert r == -((12 - midi) % 12);
  }

  /** An exact equal-tempered note maps to its own name and octave with 0 cents. */
  lemma TemperedNoteRoundTrip(octave: int, index: int)
    requires 0 <= index < 12
    ensures var midi := 12 * octave + index + 12;
      NoteFromHalfSteps((midi - A4Midi) as real) == NoteInfo(NoteName(JsRem12(midi - 12)), octave, 0)
    ensures octave >= 0 ==>
      NoteFromHalfSteps((12 * octave + index + 12 - A4Midi) as real) == NoteInfo(Some(NoteNames[index]), octave, 0)
  {
    var midi := 12 * octave + index + 12;
    assert MidiNote((midi - A4Midi) as real) == midi;
    assert (midi - 12) / 12 == octave;
    if octave >= 0 {
      assert JsRem12(midi - 12) == index;
    }
  }

  /** 440 Hz is A4 with 0 cents, for any `log2` with log2(1) = 0. */
  lemma A440IsA4(log2: real -> real)
    requires log2(1.0) == 0.0
    ensures FrequencyToNote(440.0, log2) == NoteInfo(Some("A"), 4, 0)
  {
    assert 440.0 / A4Frequency == 1.0;
    TemperedNoteRoundTrip(4, 9);
  }

  /** The properties of `Math.log2` the note bounds rely on. */
  ghost predicate IsLog2(log2: real -> real)
  {
    (forall x: real, y: real :: 0.0 < x <= y ==> log2(x) <= log2(y)) &&
    log2(0.125) == -3.0 && log2(4.0) == 2.0
  }

  /**
   * Every frequency the filter accepts maps to a named note in octaves 1 .. 6:
   * 80 Hz is more than three octaves below A4 and 1100 Hz less than two above.
   */
  lemma AcceptedFrequencyHasNote(frequency: real, log2: real -> real)
    requires MinFrequency <= frequency <= MaxFrequency
    requires IsLog2(log2)
    ensures FrequencyToNote(frequency, log2).note.Some?
    ensures 1 <= FrequencyToNote(frequency, log2).octave <= 6
  {
    var ratio := frequency / A4Frequency;
    assert 0.125 <= ratio <= 4.0;
    assert -3.0 <= log2(ratio) <= 2.0;
    var midi := MidiNote(12.0 * log2(ratio));
    assert 33 <= midi <= 93;
    MidiDecomposition(12.0 * log2(ratio));
  }

  // ---------------------------------------------------------------------
  // The detector object
  // ---------------------------------------------------------------------

  /** A microphone stream, identified by the acquisition that produced it; `live` until its tracks are stopped. */
  datatype MediaStream = MediaStream(id: nat, live: bool)

  /** The source node wrapping a stream, and whether it is connected to the analyser. */
  datatype SourceNode = SourceNode(streamId: nat, connected: bool)

  /** The analyser node; it delivers `fftSize / 2` time-domain samples per frame. */
  datatype AnalyserNode = AnalyserNode(fftSize: nat)

  /**
   * What the browser does when `start` acquires the microphone: whether
   * `getUserMedia` grants a stream (and its identity), and whether creating an
   * AudioContext, when one is still missing, succeeds.
   */
  datatype Environment = Environment(microphoneGranted: bool, streamId: nat, contextAvailable: bool)

  /** The errors `start` re-throws. */
  datatype StartError = MicrophoneUnavailable | ContextUnavailable

  /** The first `n` samples the analyser copies into a fresh zero-filled buffer. */
  function Frame(timeDomain: seq<real>, n: nat): seq<real>
  {
    seq(n, i => if 0 <= i < |timeDomain| then timeDomain[i] else 0.0)
  }

  /** The spread `{ ...result, ...frequencyToNote(result.frequency) }`. */
  function WithNote(e: Estimate, n: NoteInfo): PitchDetectionResult
  {
    PitchDetectionResult(e.frequency, n.note, n.octave, n.cents, e.confidence)
  }

  class PitchDetector {
    var audioContext: bool
    var analyser: Option<AnalyserNode>
    var mediaStream: Option<MediaStream>
    var source: Option<SourceNode>
    var isRunning: bool

    /** Running means a live stream feeds, through a connected source, an analyser of BufferSize. */
    ghost predicate Valid()
      reads this
    {
      isRunning ==>
        audioContext &&
        mediaStream.Some? && mediaStream.value.live &&
        source == Some(SourceNode(mediaStream.value.id, true)) &&
        analyser == Some(AnalyserNode(BufferSize))
    }

    /**
     * The constructor starts creating an AudioContext without awaiting it; a
     * failure there leaves `audioContext` null and is not seen by the caller.
     */
    constructor (contextAvailable: bool)
      ensures Valid()
      ensures audioContext == contextAvailable && !isRunning
      ensures analyser == None && mediaStream == None && source == None
    {
      audioContext := contextAvailable;
      analyser := None;
      mediaStream := None;
      source := None;
      isRunning := false;
    }

    /**
     * Starts capture. While running it returns at once and changes nothing.
     * A refused microphone changes nothing; a missing AudioContext that cannot
     * be created fails after the new stream has been stored, leaving that live
     * stream in `mediaStream` while the detector is not running. Only a start
     * that creates and connects the source and the analyser sets `isRunning`.
     */
    method Start(env: Environment) returns (err: Option<StartError>)
      requires Valid()
      modifies this
      ensures Valid()
      ensures isRunning <==> err == None
      ensures old(isRunning) ==> err == None && unchanged(this)
      ensures !old(isRunning) && !env.microphoneGranted ==>
        err == Some(MicrophoneUnavailable) && unchanged(this)
      ensures !old(isRunning) && env.microphoneGranted && !old(audioContext) && !env.contextAvailable ==>
        err == Some(ContextUnavailable) &&
        mediaStream == Some(MediaStream(env.streamId, true)) &&
        !audioContext && source == old(source) && analyser == old(analyser)
      ensures !old(isRunning) && env.microphoneGranted && (old(audioContext) || env.contextAvailable) ==>
        err == None && audioContext &&
        mediaStream == Some(MediaStream(env.streamId, true)) &&
        source == Some(SourceNode(env.streamId, true)) &&
        analyser == Some(AnalyserNode(BufferSize))
    {
      if isRunning {
        return None;
      }
      if !env.microphoneGranted {
        return Some(MicrophoneUnavailable);
      }
      mediaStream := Some(MediaStream(env.streamId, true));
      if !audioContext {
        if !env.contextAvailable {
          return Some(ContextUnavailable);
        }
        audioContext := true;
      }
      source := Some(SourceNode(env.streamId, false));
      analyser := Some(AnalyserNode(BufferSize));
      source := Some(source.value.(connected := true));
      isRunning := true;
      err := None;
    }

    /**
     * Stops capture. When not running it changes nothing; otherwise it stops
     * the stream's tracks, disconnects the source and clears `isRunning`,
     * keeping the (now idle) nodes and the AudioContext.
     */
    method Stop()
      requires Valid()
      modifies this
      ensures Valid() && !isRunning
      ensures !old(isRunning) ==> unchanged(this)
      ensures old(isRunning) ==>
        old(mediaStream).Some? && old(source).Some? &&
        mediaStream == Some(old(mediaStream).value.(live := false)) &&
        source == Some(old(source).value.(connected := false)) &&
        analyser == old(analyser) && audioContext == old(audioContext)
    {
      if !isRunning {
        return;
      }
      if mediaStream.Some? {
        mediaStream := Some(mediaStream.value.(live := false));
      }
      if source.Some? {
        source := Some(source.value.(connected := false));
      }
      isRunning := false;
    }

    /**
     * Analyzes the analyser's current time-domain window: null when not
     * running or without an analyser; otherwise null exactly when
     * `detectPitch` rejects the frame, and else the estimate merged with
     * the note of its frequency.
     */
    method Analyze(timeDomain: seq<real>, log2: real -> real) returns (r: Option<PitchDetectionResult>)
      ensures !isRunning || analyser.None? ==> r == None
      ensures isRunning && analyser.Some? ==>
        r == match Detect(Frame(timeDomain, analyser.value.fftSize / 2))
             case None => None
             case Some(e) => Some(WithNote(e, FrequencyToNote(e.frequency, log2)))
    {
      if !isRunning || analyser.None? {
        return None;
      }
      var n := analyser.value.fftSize / 2;
      var buffer := new real[n](i => if 0 <= i < |timeDomain| then timeDomain[i] else 0.0);
      assert buffer[..] == Frame(timeDomain, n);
      var result := DetectPitch(buffer);
      if result.None? {
        return None;
      }
      var e := result.value;
      r := Some(WithNote(e, FrequencyToNote(e.frequency, log2)));
    }

    /**
     * `detectPitch`: fills `correlations` lag by lag, keeps the first lag that
     * strictly beats the running maximum, and filters the resulting frequency
     * and confidence. Every read `buffer[i + lag]` has i, lag < n / 2.
     */
    method DetectPitch(buffer: array<real>) returns (r: Option<Estimate>)
      ensures r == Detect(buffer[..])
    {
      ghost var s := buffer[..];
      var correlations := new real[buffer.Length / 2];
      var maxCorrelation := 0.0;
      var maxLag := 0;
      for lag := 0 to correlations.Length
        invariant forall l :: 0 <= l < lag ==> correlations[l] == Correlation(s, l)
        invariant Scan(s, lag) == Peak(maxCorrelation, maxLag)
      {
        var correlation := 0.0;
        for i := 0 to correlations.Length
          invariant correlation == Lagged(s, lag, i)
        {
          correlation := correlation + buffer[i] * buffer[i + lag];
        }
        correlations[lag] := correlation;
        if correlation > maxCorrelation {
          maxCorrelation := correlation;
          maxLag := lag;
        }
      }
      if maxLag == 0 {
        // sampleRate / 0 is +Infinity, above MaxFrequency
        return None;
      }
      ScanIsFirstArgMax(s, |s| / 2);
      LaggedNeedsEnergy(s, maxLag, |s| / 2);
      var frequency := SampleRate / (maxLag as real);
      var confidence := maxCorrelation / correlations[0];
      if frequency < MinFrequency || frequency > MaxFrequency || confidence < MinConfidence {
        return None;
      }
      return Some(Estimate(frequency, confidence));
    }
  }

  /** Starting twice acquires once; stopping twice is safe; analyzing when stopped gives null. */
  method LifecycleScenario(samples: seq<real>, log2: real -> real)
  {
    var d := new PitchDetector(true);
    var err := d.Start(Environment(true, 1, true));
    assert err == None && d.isRunning;
    err := d.Start(Environment(false, 2, false));
    assert err == None && d.mediaStream == Some(MediaStream(1, true));
    d.Stop();
    d.Stop();
    assert !d.isRunning && d.mediaStream == Some(MediaStream(1, false));
    var r := d.Analyze(samples, log2);
    assert r == None;
  }

  /** A failed AudioContext leaves a live stream that a later `stop` does not release. */
  method LeakedStreamScenario()
  {
    var d := new PitchDetector(false);
    var err := d.Start(Environment(true, 7, false));
    assert err == Some(ContextUnavailable) && !d.isRunning;
    d.Stop();
    assert d.mediaStream == Some(MediaStream(7, true));
  }
}

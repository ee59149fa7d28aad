/**
 The retained stretch of a sliding HLS playlist, kept as an incremental prefix sum
 (applyRetainedRange in backend/playback/manager.go).
 */
module RetainedWindow {
  import opened Common

  // Media sequence numbers are those of section 4.3.3.2 of RFC 8216; a segment's
  // duration never changes (section 6.2.1), so a playlist is a window on one fixed
  // list of durations.

  // The durations of all segments, in milliseconds, by media sequence number.
  type Track = nat -> nat

  // What one reading of the playlist shows.
  datatype Sample = Sample(sequence: nat, durations: seq<int>)

  datatype Window = Window(startMS: int, sequence: nat, offsetMS: int, known: map<nat, int>)

  datatype Range = Range(start: int, end: int)

  function Sum(durations: seq<int>): int {
    if durations == [] then 0 else Sum(durations[..|durations| - 1]) + durations[|durations| - 1]
  }

  // The durations of the first `n` segments together.
  function Elapsed(track: Track, n: nat): int {
    if n == 0 then 0 else Elapsed(track, n - 1) + track(n - 1)
  }

  function Learn(known: map<nat, int>, sequence: nat, durations: seq<int>): map<nat, int> {
    if durations == [] then known
    else
      var n := |durations| - 1;
      Learn(known, sequence, durations[..n])[sequence + n := durations[n]]
  }

  function Slid(w: Window): Window
    requires w.sequence in w.known
  {
    w.(offsetMS := w.offsetMS + w.known[w.sequence], known := w.known - {w.sequence}, sequence := w.sequence + 1)
  }

  // Move the start of the window up to `target`, as far as the durations are known.
  function Slide(w: Window, target: nat): (Window, bool)
    decreases target - w.sequence
  {
    if w.sequence >= target then (w, true)
    else if w.sequence !in w.known then (w, false)
    else Slide(Slid(w), target)
  }

  // applyRetainedRange: the retained range, or a refusal.
  function Observe(w: Window, sample: Sample): (Window, Option<Range>) {
    if sample.sequence < w.sequence then (w, None)
    else
      var (v, ok) := Slide(w.(known := Learn(w.known, sample.sequence, sample.durations)), sample.sequence);
      if !ok then (v, None)
      else (v, Some(Range(v.startMS + v.offsetMS, v.startMS + v.offsetMS + Sum(sample.durations))))
  }

  // A new generation's window.
  function Opened(startMS: int): Window {
    Window(startMS, 0, 0, map[])
  }

  // ------------------------------------------------------------------ always exact

  // A reading of the track, at whatever time.
  predicate Shows(track: Track, sample: Sample) {
    forall i :: 0 <= i < |sample.durations| ==> sample.durations[i] == track(sample.sequence + i)
  }

  /** The offset is the elapsed time before the window, and what is known is right. */
  ghost predicate Right(track: Track, w: Window) {
    w.offsetMS == Elapsed(track, w.sequence) && forall k :: k in w.known ==> w.known[k] == track(k) && k >= w.sequence
  }

  // The exact range that a sample shows.
  function Exact(track: Track, startMS: int, sample: Sample): Range {
    Range(startMS + Elapsed(track, sample.sequence), startMS + Elapsed(track, sample.sequence + |sample.durations|))
  }

  lemma {:induction false} SumIsElapsed(track: Track, sequence: nat, durations: seq<int>)
    requires Shows(track, Sample(sequence, durations))
    ensures Elapsed(track, sequence) + Sum(durations) == Elapsed(track, sequence + |durations|)
    decreases |durations|
  {
    if durations != [] {
      var n := |durations| - 1;
      SumIsElapsed(track, sequence, durations[..n]);
    }
  }

  // Every segment up to `target` is known.
  ghost predicate Covered(w: Window, target: nat) {
    forall k :: w.sequence <= k < target ==> k in w.known
  }

  lemma CoveredStep(w: Window, target: nat)
    requires w.sequence < target && w.sequence in w.known
    ensures Covered(Slid(w), target) <==> Covered(w, target)
  {
    forall k: nat | w.sequence < k
      ensures k in Slid(w).known <==> k in w.known
    {
    }
  }

  lemma {:induction false} SlideIsRight(track: Track, w: Window, target: nat)
    requires Right(track, w)
    ensures var (v, ok) := Slide(w, target);
            && Right(track, v) && v.startMS == w.startMS && (ok <==> Covered(w, target))
            && (ok ==> v.sequence == Max(w.sequence, target))
    decreases target - w.sequence
  {
    if w.sequence < target && w.sequence in w.known {
      CoveredStep(w, target);
      SlideIsRight(track, Slid(w), target);
    }
  }

  // Sliding forgets what it slides past and nothing else.
  lemma {:induction false} SlideForgets(w: Window, target: nat)
    ensures var (v, ok) := Slide(w, target);
            && w.sequence <= v.sequence <= Max(w.sequence, target) && v.known.Keys <= w.known.Keys
            && (forall k :: k in w.known && k >= v.sequence ==> k in v.known)
            && (forall k :: w.sequence <= k < v.sequence ==> k in w.known)
    decreases target - w.sequence
  {
    if w.sequence < target && w.sequence in w.known { SlideForgets(Slid(w), target); }
  }

  lemma {:induction false} Learned(known: map<nat, int>, sequence: nat, durations: seq<int>, k: nat)
    ensures var learned := Learn(known, sequence, durations);
            && (k in learned <==> k in known || sequence <= k < sequence + |durations|)
            && (k in learned ==>
                  learned[k] == if sequence <= k < sequence + |durations| then durations[k - sequence] else known[k])
    decreases |durations|
  {
    if durations != [] { Learned(known, sequence, durations[..|durations| - 1], k); }
  }

  lemma LearningIsRight(track: Track, w: Window, sample: Sample)
    requires Right(track, w) && Shows(track, sample) && sample.sequence >= w.sequence
    ensures var learned := w.(known := Learn(w.known, sample.sequence, sample.durations));
            Right(track, learned) && (Covered(learned, sample.sequence) <==> Covered(w, sample.sequence))
  {
    var learned := w.(known := Learn(w.known, sample.sequence, sample.durations));
    forall k | k in learned.known
      ensures learned.known[k] == track(k) && k >= w.sequence
    {
      Learned(w.known, sample.sequence, sample.durations, k);
    }
    forall k: nat | k < sample.sequence
      ensures k in learned.known <==> k in w.known
    {
      Learned(w.known, sample.sequence, sample.durations, k);
    }
  }

  // Learning a true sample and sliding up to it.
  lemma LearnedSlides(track: Track, w: Window, sample: Sample)
    requires Right(track, w) && Shows(track, sample) && sample.sequence >= w.sequence
    ensures var (v, ok) := Slide(w.(known := Learn(w.known, sample.sequence, sample.durations)), sample.sequence);
            && Right(track, v) && v.startMS == w.startMS && (ok <==> Covered(w, sample.sequence))
            && (ok ==> v.sequence == sample.sequence)
  {
    LearningIsRight(track, w, sample);
    SlideIsRight(track, w.(known := Learn(w.known, sample.sequence, sample.durations)), sample.sequence);
  }

  lemma RangeIsExact(track: Track, v: Window, sample: Sample)
    requires Right(track, v) && Shows(track, sample) && v.sequence == sample.sequence
    ensures var start := v.startMS + v.offsetMS;
            Range(start, start + Sum(sample.durations)) == Exact(track, v.startMS, sample)
  {
    SumIsElapsed(track, sample.sequence, sample.durations);
  }

  /** Whatever was sampled before, in whatever order: a true sample is answered with
      its exact range or refused, and the window stays right.  It is refused if it is
      stale or if a segment before it was missed. */
  lemma ObserveIsExact(track: Track, w: Window, sample: Sample)
    requires Right(track, w) && Shows(track, sample)
    ensures var (v, answer) := Observe(w, sample);
            && Right(track, v) && v.startMS == w.startMS
            && (answer.Some? <==> sample.sequence >= w.sequence && Covered(w, sample.sequence))
            && (answer.Some? ==> answer.value == Exact(track, w.startMS, sample))
            && (sample.sequence < w.sequence ==> v == w)
  {
    if sample.sequence >= w.sequence {
      LearnedSlides(track, w, sample);
      var (v, ok) := Slide(w.(known := Learn(w.known, sample.sequence, sample.durations)), sample.sequence);
      if ok { RangeIsExact(track, v, sample); }
    }
  }

  // The answers to a list of samples.
  function ObserveAll(w: Window, samples: seq<Sample>): (Window, seq<Option<Range>>) {
    if samples == [] then (w, [])
    else
      var (v, answers) := ObserveAll(w, samples[..|samples| - 1]);
      var (u, answer) := Observe(v, samples[|samples| - 1]);
      (u, answers + [answer])
  }

  ghost predicate AllShow(track: Track, samples: seq<Sample>) {
    forall i :: 0 <= i < |samples| ==> Shows(track, samples[i])
  }

  /** Over any sampling, in order or not, no answer is ever wrong. */
  lemma {:induction false} AnswersAreExact(track: Track, startMS: int, samples: seq<Sample>)
    requires AllShow(track, samples)
    ensures var (w, answers) := ObserveAll(Opened(startMS), samples);
            && Right(track, w) && w.startMS == startMS && |answers| == |samples|
            && forall i :: 0 <= i < |samples| && answers[i].Some? ==>
               answers[i].value == Exact(track, startMS, samples[i])
    decreases |samples|
  {
    if samples != [] {
      var n := |samples| - 1;
      AnswersAreExact(track, startMS, samples[..n]);
      ObserveIsExact(track, ObserveAll(Opened(startMS), samples[..n]).0, samples[n]);
    }
  }

  // ------------------------------------------------------- exactly when it is answered

  // The playlist only ever slides forward.
  ghost predicate Monotone(samples: seq<Sample>) {
    forall i, j :: 0 <= i < j < |samples| ==> samples[i].sequence <= samples[j].sequence
  }

  predicate ShowsSegment(sample: Sample, k: nat) {
    sample.sequence <= k < sample.sequence + |sample.durations|
  }

  ghost predicate Seen(samples: seq<Sample>, k: nat) {
    exists i :: 0 <= i < |samples| && ShowsSegment(samples[i], k)
  }

  ghost predicate AllSeen(samples: seq<Sample>, n: nat) {
    forall k: nat :: k < n ==> Seen(samples, k)
  }

  // What a window knows after a forward sampling: all it has seen from its start on,
  // and it has not stopped short of anything it could slide past.
  ghost predicate Remembers(w: Window, samples: seq<Sample>) {
    && (forall k: nat :: k >= w.sequence ==> (k in w.known <==> Seen(samples, k)))
    && (forall k: nat :: k < w.sequence ==> Seen(samples, k))
    && (forall i :: 0 <= i < |samples| ==> w.sequence <= samples[i].sequence || i < |samples| - 1)
    && (samples == [] ==> w.sequence == 0)
  }

  lemma SeenMore(samples: seq<Sample>, sample: Sample, k: nat)
    ensures Seen(samples + [sample], k) <==> Seen(samples, k) || ShowsSegment(sample, k)
  {
    var more := samples + [sample];
    if ShowsSegment(sample, k) { assert ShowsSegment(more[|samples|], k); }
    if Seen(samples, k) {
      var i :| 0 <= i < |samples| && ShowsSegment(samples[i], k);
      assert ShowsSegment(more[i], k);
    }
  }

  lemma ObserveRemembers(track: Track, w: Window, samples: seq<Sample>, sample: Sample)
    requires Right(track, w) && Shows(track, sample) && Remembers(w, samples) && Monotone(samples + [sample])
    ensures Remembers(Observe(w, sample).0, samples + [sample])
    ensures Observe(w, sample).1.Some? <==> AllSeen(samples, sample.sequence)
  {
    var more := samples + [sample];
    if samples != [] { assert more[|samples| - 1].sequence <= more[|samples|].sequence; }
    assert w.sequence <= sample.sequence;
    ObserveIsExact(track, w, sample);
    var learned := w.(known := Learn(w.known, sample.sequence, sample.durations));
    var (v, ok) := Slide(learned, sample.sequence);
    LearningIsRight(track, w, sample);
    SlideIsRight(track, learned, sample.sequence);
    SlideForgets(learned, sample.sequence);
    forall k: nat
      ensures k >= v.sequence ==> (k in v.known <==> Seen(more, k))
      ensures k < v.sequence ==> Seen(more, k)
    {
      SeenMore(samples, sample, k);
      Learned(w.known, sample.sequence, sample.durations, k);
    }
  }

  lemma {:induction false} SamplingRemembers(track: Track, startMS: int, samples: seq<Sample>)
    requires AllShow(track, samples) && Monotone(samples)
    ensures Right(track, ObserveAll(Opened(startMS), samples).0)
            && Remembers(ObserveAll(Opened(startMS), samples).0, samples)
    decreases |samples|
  {
    if samples != [] {
      var n := |samples| - 1;
      var prior := samples[..n];
      SamplingRemembers(track, startMS, prior);
      assert samples == prior + [samples[n]];
      var w := ObserveAll(Opened(startMS), prior).0;
      ObserveRemembers(track, w, prior, samples[n]);
      ObserveIsExact(track, w, samples[n]);
    }
  }

  lemma {:induction false} AnswerAt(w: Window, samples: seq<Sample>, i: nat)
    requires i < |samples|
    ensures var answers := ObserveAll(w, samples).1;
            |answers| == |samples| && answers[i] == Observe(ObserveAll(w, samples[..i]).0, samples[i]).1
    decreases |samples|
  {
    var n := |samples| - 1;
    if i < n {
      AnswerAt(w, samples[..n], i);
      assert samples[..n][..i] == samples[..i];
    } else if n > 0 {
      AnswerAt(w, samples[..n], n - 1);
    }
  }

  lemma PrefixSamples(track: Track, samples: seq<Sample>, i: nat)
    requires AllShow(track, samples) && Monotone(samples) && i < |samples|
    ensures AllShow(track, samples[..i]) && Monotone(samples[..i]) && Shows(track, samples[i])
    ensures Monotone(samples[..i] + [samples[i]])
  {
    assert samples[..i + 1] == samples[..i] + [samples[i]];
  }

  /** A forward sampling: a sample is answered exactly if every segment before it was
      seen in an earlier one. */
  lemma AnsweredIff(track: Track, startMS: int, samples: seq<Sample>, i: nat)
    requires AllShow(track, samples) && Monotone(samples) && i < |samples|
    ensures var answers := ObserveAll(Opened(startMS), samples).1;
            |answers| == |samples|
            && (answers[i].Some? <==> AllSeen(samples[..i], samples[i].sequence))
  {
    AnswerAt(Opened(startMS), samples, i);
    var prior := samples[..i];
    PrefixSamples(track, samples, i);
    SamplingRemembers(track, startMS, prior);
    ObserveRemembers(track, ObserveAll(Opened(startMS), prior).0, prior, samples[i]);
  }

  lemma StillUnseen(samples: seq<Sample>, i: nat, j: nat, k: nat)
    requires Monotone(samples) && i < j < |samples| && k < samples[i].sequence && !Seen(samples[..i], k)
    ensures !Seen(samples[..j], k)
  {
    forall m | 0 <= m < j
      ensures !ShowsSegment(samples[..j][m], k)
    {
      if m < i {
        assert samples[..i][m] == samples[m];
      } else {
        assert m == i || samples[i].sequence <= samples[m].sequence;
      }
    }
  }

  /** A missed segment refuses its sample and, as the playlist slides on, all later
      ones: there is never a wrong range instead. */
  lemma RefusalIsFinal(track: Track, startMS: int, samples: seq<Sample>, i: nat, j: nat)
    requires AllShow(track, samples) && Monotone(samples) && i < j < |samples|
    ensures var answers := ObserveAll(Opened(startMS), samples).1;
            |answers| == |samples| && (answers[i].None? ==> answers[j].None?)
  {
    AnsweredIff(track, startMS, samples, i);
    AnsweredIff(track, startMS, samples, j);
    if ObserveAll(Opened(startMS), samples).1[i].None? {
      var k: nat :| k < samples[i].sequence && !Seen(samples[..i], k);
      StillUnseen(samples, i, j, k);
      assert samples[i].sequence <= samples[j].sequence;
    }
  }

  lemma {:induction false} SeenBefore(samples: seq<Sample>, i: nat, k: nat)
    requires i < |samples| && samples[0].sequence == 0 && k < samples[i].sequence
    requires forall i :: 0 < i < |samples| ==>
             samples[i].sequence <= samples[i - 1].sequence + |samples[i - 1].durations|
    ensures Seen(samples[..i], k)
    decreases i
  {
    if k >= samples[i - 1].sequence {
      assert ShowsSegment(samples[..i][i - 1], k);
    } else {
      SeenBefore(samples, i - 1, k);
      var j :| 0 <= j < |samples[..i - 1]| && ShowsSegment(samples[..i - 1][j], k);
      assert ShowsSegment(samples[..i][j], k);
    }
  }

  /** If no segment slides out unseen between two readings, every sample is answered. */
  lemma {:induction false} ContiguousIsAnswered(track: Track, startMS: int, samples: seq<Sample>)
    requires AllShow(track, samples) && Monotone(samples) && samples != [] && samples[0].sequence == 0
    requires forall i :: 0 < i < |samples| ==>
             samples[i].sequence <= samples[i - 1].sequence + |samples[i - 1].durations|
    ensures var answers := ObserveAll(Opened(startMS), samples).1;
            |answers| == |samples| && forall i :: 0 <= i < |samples| ==>
              answers[i] == Some(Exact(track, startMS, samples[i]))
  {
    AnswersAreExact(track, startMS, samples);
    forall i | 0 <= i < |samples|
      ensures ObserveAll(Opened(startMS), samples).1[i].Some?
    {
      AnsweredIff(track, startMS, samples, i);
      forall k: nat | k < samples[i].sequence
        ensures Seen(samples[..i], k)
      {
        SeenBefore(samples, i, k);
      }
    }
  }

  // ------------------------------------------------------------------- the generation

  /** The fields of a generation that its retained range lives in. */
  class Generation {
    const startMS: int
    var mediaSequence: nat
    var mediaOffsetMS: int
    var segmentDuration: map<nat, int>

    ghost function Contents(): Window
      reads this
    {
      Window(startMS, mediaSequence, mediaOffsetMS, segmentDuration)
    }

    constructor (startMS: int)
      ensures Contents() == Opened(startMS)
    {
      this.startMS := startMS;
      mediaSequence, mediaOffsetMS, segmentDuration := 0, 0, map[];
    }

    method ApplyRetainedRange(sequence: nat, durations: seq<int>) returns (answer: Option<Range>)
      modifies this
      ensures (Contents(), answer) == Observe(old(Contents()), Sample(sequence, durations))
    {
      if sequence < mediaSequence { return None; }
      var i := 0;
      while i < |durations|
        invariant 0 <= i <= |durations| && mediaSequence == old(mediaSequence) && mediaOffsetMS == old(mediaOffsetMS)
        invariant segmentDuration == Learn(old(segmentDuration), sequence, durations[..i])
      {
        segmentDuration := segmentDuration[sequence + i := durations[i]];
        assert durations[..i + 1][..i] == durations[..i];
        i := i + 1;
      }
      assert durations[..i] == durations;
      ghost var learned := Contents();
      while mediaSequence < sequence
        invariant mediaSequence <= sequence && Slide(Contents(), sequence) == Slide(learned, sequence)
        decreases sequence - mediaSequence
      {
        if mediaSequence !in segmentDuration { return None; }
        mediaOffsetMS := mediaOffsetMS + segmentDuration[mediaSequence];
        segmentDuration := segmentDuration - {mediaSequence};
        mediaSequence := mediaSequence + 1;
      }
      var start := startMS + mediaOffsetMS;
      var end := start;
      var j := 0;
      while j < |durations|
        invariant 0 <= j <= |durations| && end == start + Sum(durations[..j])
      {
        end := end + durations[j];
        assert durations[..j + 1][..j] == durations[..j];
        j := j + 1;
      }
      assert durations[..j] == durations;
      answer := Some(Range(start, end));
    }
  }
}

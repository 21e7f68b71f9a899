/** Decoded PCM buffers and Utils.mergeBufferListByChannel, which stacks the
    channels of several equally long buffers into one buffer. */
module AudioBuffers {
  import opened Outcomes

  datatype Buffer = Buffer(channels: seq<seq<real>>, length: nat, sampleRate: real)

  /** The sample-rate range every AudioBuffer of the Web Audio API lies in. */
  const MinSampleRate: real := 3000.0
  const MaxSampleRate: real := 768000.0

  /** What the platform guarantees of every AudioBuffer: at least one
      channel, at least one frame, a sample rate in the supported range,
      and every channel holds exactly `length` frames. */
  predicate WellFormed(b: Buffer) {
    && |b.channels| >= 1 && b.length >= 1
    && MinSampleRate <= b.sampleRate <= MaxSampleRate
    && forall c :: 0 <= c < |b.channels| ==> |b.channels[c]| == b.length
  }

  type AudioBuffer = b: Buffer | WellFormed(b) witness Buffer([[0.0]], 1, 48000.0)

  function NumberOfChannels(b: AudioBuffer): nat { |b.channels| }

  /** The limit named in the merge's error message. */
  const MaxChannels: nat := 32

  /** The most channels the engine's createBuffer accepts: the Web Audio API
      requires at least 32, and an engine may allow more. */
  type ChannelLimit = n: nat | MaxChannels <= n witness MaxChannels

  /** Channels of list[..n], summed. */
  function ChannelsBefore(list: seq<AudioBuffer>, n: nat): nat
    requires n <= |list|
  {
    if n == 0 then 0 else ChannelsBefore(list, n - 1) + NumberOfChannels(list[n - 1])
  }

  /** The channels of list[..n] in chunk order, then channel order. */
  function StackedBefore(list: seq<AudioBuffer>, n: nat): (r: seq<seq<real>>)
    requires n <= |list|
    ensures |r| == ChannelsBefore(list, n)
  {
    if n == 0 then [] else StackedBefore(list, n - 1) + list[n - 1].channels
  }

  /** The error the checks of loop iteration i raise, given the buffers
      before it passed: the channel limit is compared against the running total
      BEFORE chunk i is added, then length, then sample rate. */
  function CheckAt(list: seq<AudioBuffer>, i: nat): Option<Error>
    requires 0 < |list| && i < |list|
  {
    if ChannelsBefore(list, i) > MaxChannels then Some(TooManyChannels)
    else if list[i].length != list[0].length then Some(LengthMismatch)
    else if list[i].sampleRate != list[0].sampleRate then Some(SampleRateMismatch)
    else None
  }

  /** Every iteration's checks pass. */
  predicate Mergeable(list: seq<AudioBuffer>) {
    0 < |list| && forall i :: 0 <= i < |list| ==> CheckAt(list, i) == None
  }

  /** Reference definition of the merge: the first failing iteration decides
      the error; an empty list fails on bufferList[0].length; once every
      check passes, createBuffer refuses a total beyond the engine's limit.
      Its other refusals (no frames, a sample rate out of range) cannot
      arise, because the merged buffer takes the first chunk's length and
      rate. */
  function MergeByChannel(list: seq<AudioBuffer>, engine: ChannelLimit): (r: Result<Buffer>)
    ensures r.Value? <==> Mergeable(list) && ChannelsBefore(list, |list|) <= engine
    ensures |list| == 0 ==> r == Throws(TypeError)
    ensures Mergeable(list) && ChannelsBefore(list, |list|) > engine ==> r == Throws(NotSupportedError)
    ensures r.Value? ==> && r.value.length == list[0].length
                         && r.value.sampleRate == list[0].sampleRate
                         && |r.value.channels| == ChannelsBefore(list, |list|)
    ensures r.Throws? && 0 < |list| && !Mergeable(list) ==>
              exists i :: 0 <= i < |list| && CheckAt(list, i) == Some(r.error)
                          && forall j :: 0 <= j < i ==> CheckAt(list, j) == None
  {
    if |list| == 0 then Throws(TypeError)
    else match FirstFailure(list, 0)
      case Throws(e) => Throws(e)
      case Value(b) => if |b.channels| > engine then Throws(NotSupportedError) else Value(b)
  }

  function FirstFailure(list: seq<AudioBuffer>, i: nat): (r: Result<Buffer>)
    requires 0 < |list| && i <= |list|
    requires forall j :: 0 <= j < i ==> CheckAt(list, j) == None
    ensures r.Value? <==> Mergeable(list)
    ensures r.Value? ==> r.value == Buffer(StackedBefore(list, |list|), list[0].length, list[0].sampleRate)
    ensures r.Throws? ==>
              exists k :: i <= k < |list| && CheckAt(list, k) == Some(r.error)
                          && forall j :: 0 <= j < k ==> CheckAt(list, j) == None
    decreases |list| - i
  {
    if i == |list| then Value(Buffer(StackedBefore(list, |list|), list[0].length, list[0].sampleRate))
    else if CheckAt(list, i).Some? then Throws(CheckAt(list, i).value)
    else FirstFailure(list, i + 1)
  }

  /** Channel k of the merged buffer is channel j of chunk i, where k counts
      the channels of the chunks before i plus j. */
  lemma {:induction false} StackedChannelOrigin(list: seq<AudioBuffer>, n: nat, i: nat, j: nat)
    requires n <= |list| && i < n && j < NumberOfChannels(list[i])
    ensures ChannelsBefore(list, i) + j < ChannelsBefore(list, n)
    ensures StackedBefore(list, n)[ChannelsBefore(list, i) + j] == list[i].channels[j]
  {
    if i == n - 1 {
    } else {
      StackedChannelOrigin(list, n - 1, i, j);
    }
  }

  /** The loop of the source: validate while counting channels, create the
      destination buffer, then copy each chunk's channels in order into it. */
  method MergeBufferListByChannel(list: seq<AudioBuffer>, engine: ChannelLimit) returns (r: Result<Buffer>)
    ensures r == MergeByChannel(list, engine)
    ensures r.Value? ==> WellFormed(r.value)
  {
    if |list| == 0 {
      return Throws(TypeError);
    }
    var bufferLength := list[0].length;
    var bufferSampleRate := list[0].sampleRate;
    var count := 0;
    var i := 0;
    while i < |list|
      invariant 0 <= i <= |list|
      invariant count == ChannelsBefore(list, i)
      invariant forall j :: 0 <= j < i ==> CheckAt(list, j) == None
    {
      if count > MaxChannels {
        r := Throws(TooManyChannels);
        assert CheckAt(list, i) == Some(TooManyChannels);
        FirstFailureAt(list, i, engine);
        return;
      }
      if bufferLength != list[i].length {
        r := Throws(LengthMismatch);
        FirstFailureAt(list, i, engine);
        return;
      }
      if bufferSampleRate != list[i].sampleRate {
        r := Throws(SampleRateMismatch);
        FirstFailureAt(list, i, engine);
        return;
      }
      count := count + NumberOfChannels(list[i]);
      i := i + 1;
    }
    AllChecksPass(list);
    if count > engine {
      return Throws(NotSupportedError);
    }
    forall j | 0 <= j < |list|
      ensures list[j].length == list[0].length
    {
      assert CheckAt(list, j) == None;
    }
    var channels: seq<seq<real>> := [];
    i := 0;
    while i < |list|
      invariant 0 <= i <= |list|
      invariant channels == StackedBefore(list, i)
    {
      var j := 0;
      while j < NumberOfChannels(list[i])
        invariant 0 <= j <= NumberOfChannels(list[i])
        invariant channels == StackedBefore(list, i) + list[i].channels[..j]
      {
        channels := channels + [list[i].channels[j]];
        j := j + 1;
      }
      assert list[i].channels[..j] == list[i].channels;
      i := i + 1;
    }
    r := Value(Buffer(channels, bufferLength, bufferSampleRate));
    StackedWellFormed(list, |list|);
  }

  lemma FirstFailureAt(list: seq<AudioBuffer>, i: nat, engine: ChannelLimit)
    requires 0 < |list| && i < |list|
    requires forall j :: 0 <= j < i ==> CheckAt(list, j) == None
    requires CheckAt(list, i).Some?
    ensures MergeByChannel(list, engine) == Throws(CheckAt(list, i).value)
  {
    FirstFailureFrom(list, 0, i);
  }

  lemma {:induction false} FirstFailureFrom(list: seq<AudioBuffer>, k: nat, i: nat)
    requires 0 < |list| && k <= i < |list|
    requires forall j :: 0 <= j < i ==> CheckAt(list, j) == None
    requires CheckAt(list, i).Some?
    ensures FirstFailure(list, k) == Throws(CheckAt(list, i).value)
    decreases i - k
  {
    if k < i {
      FirstFailureFrom(list, k + 1, i);
    }
  }

  lemma AllChecksPass(list: seq<AudioBuffer>)
    requires 0 < |list|
    requires forall j :: 0 <= j < |list| ==> CheckAt(list, j) == None
    ensures FirstFailure(list, 0) == Value(Buffer(StackedBefore(list, |list|), list[0].length, list[0].sampleRate))
  {
  }

  lemma {:induction false} StackedWellFormed(list: seq<AudioBuffer>, n: nat)
    requires 0 < n <= |list|
    requires forall j :: 0 <= j < n ==> list[j].length == list[0].length
    ensures forall c :: 0 <= c < |StackedBefore(list, n)| ==> |StackedBefore(list, n)[c]| == list[0].length
  {
    if n > 1 {
      StackedWellFormed(list, n - 1);
    }
  }

  /** The channel limit only trips once the total BEFORE a chunk exceeds 32,
      so chunks of 32 and 16 channels pass every check of the loop. The
      48-channel total then reaches createBuffer: an engine that allows 48
      channels returns a 48-channel buffer, and any other refuses it with
      NotSupportedError instead of the merge's own error. */
  lemma MergeAdmitsMoreThanMaxChannels(engine: ChannelLimit)
    ensures var a := Buffer(seq(32, _ => [0.0]), 1, 48000.0);
            var b := Buffer(seq(16, _ => [0.0]), 1, 48000.0);
            WellFormed(a) && WellFormed(b) &&
            var list: seq<AudioBuffer> := [a, b];
            && Mergeable(list)
            && ChannelsBefore(list, |list|) == 48
            && (engine >= 48 ==> var r := MergeByChannel(list, engine);
                                 r.Value? && |r.value.channels| == 48)
            && (engine < 48 ==> MergeByChannel(list, engine) == Throws(NotSupportedError))
  {
    var a := Buffer(seq(32, _ => [0.0]), 1, 48000.0);
    var b := Buffer(seq(16, _ => [0.0]), 1, 48000.0);
    var list: seq<AudioBuffer> := [a, b];
    assert ChannelsBefore(list, 1) == 32;
    assert CheckAt(list, 0) == None && CheckAt(list, 1) == None;
    assert ChannelsBefore(list, 2) == 48;
  }

  /** The merge with the limit enforced on the final total as well: the
      loop's guard only sees the channels of the chunks before the current
      one, so the last chunk is never counted against the limit and a larger
      total surfaces, if at all, as createBuffer's error. Corrected, a total
      beyond 32 is the merge's own TooManyChannels on every engine. */
  function MergeByChannelCorrected(list: seq<AudioBuffer>): (r: Result<Buffer>)
    ensures r.Value? <==> Mergeable(list) && ChannelsBefore(list, |list|) <= MaxChannels
    ensures r.Value? ==> |r.value.channels| <= MaxChannels && WellFormed(r.value)
    ensures Mergeable(list) && ChannelsBefore(list, |list|) > MaxChannels ==> r == Throws(TooManyChannels)
    ensures r != Throws(NotSupportedError)
    ensures |list| == 0 ==> r == Throws(TypeError)
  {
    MergedWellFormed(list, MaxChannels);
    match MergeByChannel(list, MaxChannels)
    case Value(b) => Value(b)
    case Throws(e) => if e == NotSupportedError then Throws(TooManyChannels) else Throws(e)
  }

  /** Where the as-written merge's checks pass, only the last chunk can carry
      the total past the limit; within the limit both merges agree exactly on
      every engine, and beyond it they differ only in the error raised. */
  lemma CorrectedMergeAgrees(list: seq<AudioBuffer>, engine: ChannelLimit)
    ensures Mergeable(list) ==> ChannelsBefore(list, |list| - 1) <= MaxChannels
    ensures ChannelsBefore(list, |list|) <= MaxChannels ==> MergeByChannelCorrected(list) == MergeByChannel(list, engine)
    ensures MergeByChannel(list, engine).Throws? ==> MergeByChannelCorrected(list).Throws?
  {
    if Mergeable(list) {
      assert CheckAt(list, |list| - 1) == None;
    }
  }

  /** A successful merge is itself a well-formed buffer. */
  lemma MergedWellFormed(list: seq<AudioBuffer>, engine: ChannelLimit)
    ensures MergeByChannel(list, engine).Value? ==> WellFormed(MergeByChannel(list, engine).value)
  {
    if Mergeable(list) {
      forall j | 0 <= j < |list|
        ensures list[j].length == list[0].length
      {
        assert CheckAt(list, j) == None;
      }
      StackedWellFormed(list, |list|);
      StackedChannelOrigin(list, |list|, 0, 0);
    }
  }

  /** Index of the first null entry, or the length when there is none. */
  function FirstNull(list: seq<Option<AudioBuffer>>): (k: nat)
    ensures k <= |list|
    ensures forall j :: 0 <= j < k ==> list[j].Some?
    ensures k < |list| ==> list[k].None?
  {
    if |list| == 0 || list[0].None? then 0 else 1 + FirstNull(list[1..])
  }

  /** The buffers of a list without null entries. */
  function Present(list: seq<Option<AudioBuffer>>): (r: seq<AudioBuffer>)
    requires forall j :: 0 <= j < |list| ==> list[j].Some?
    ensures |r| == |list| && forall j :: 0 <= j < |list| ==> list[j] == Some(r[j])
  {
    seq(|list|, j requires 0 <= j < |list| => list[j].value)
  }

  /** The merge applied to a list that may hold null entries, as a resolved
      chunk list can: the loop runs over the entries before the first null
      as usual, and at the null itself the channel-limit check still runs
      before the read of `length` raises TypeError. A null first entry
      fails on bufferList[0].length. */
  function MergeEntries(list: seq<Option<AudioBuffer>>, engine: ChannelLimit): (r: Result<Buffer>)
    ensures (forall j :: 0 <= j < |list| ==> list[j].Some?) ==> r == MergeByChannel(Present(list), engine)
    ensures (exists j :: 0 <= j < |list| && list[j].None?) ==> r.Throws? && r.error != NotSupportedError
    ensures 0 < |list| && list[0].None? ==> r == Throws(TypeError)
    ensures r.Value? ==> WellFormed(r.value) && |r.value.channels| <= engine
  {
    var k := FirstNull(list);
    if k == |list| then
      MergedWellFormed(Present(list), engine);
      MergeByChannel(Present(list), engine)
    else if k == 0 then Throws(TypeError)
    else
      var before := Present(list[..k]);
      match FirstFailure(before, 0)
      case Throws(e) => Throws(e)
      case Value(b) => if ChannelsBefore(before, k) > MaxChannels then Throws(TooManyChannels) else Throws(TypeError)
  }

  /** A chunk of another length ahead of a null entry raises the length
      error, not the TypeError of the null. */
  lemma MergeEntriesChecksBeforeNull(engine: ChannelLimit)
    ensures var a := Buffer([[0.0]], 1, 48000.0);
            var b := Buffer([[0.0, 0.0]], 2, 48000.0);
            WellFormed(a) && WellFormed(b) &&
            MergeEntries([Some(a), Some(b), None], engine) == Throws(LengthMismatch)
  {
    var a := Buffer([[0.0]], 1, 48000.0);
    var b := Buffer([[0.0, 0.0]], 2, 48000.0);
    var list: seq<Option<AudioBuffer>> := [Some(a), Some(b), None];
    assert FirstNull(list[2..]) == 0;
    assert FirstNull(list[1..]) == 1;
    assert FirstNull(list) == 2;
    var before := Present(list[..2]);
    assert before == [a, b];
    assert CheckAt(before, 0) == None;
    assert CheckAt(before, 1) == Some(LengthMismatch);
    FirstFailureFrom(before, 0, 1);
  }

  /** Where every buffer before the null passes, the null raises TypeError. */
  lemma MergeEntriesNullRaisesTypeError(engine: ChannelLimit)
    ensures var a := Buffer([[0.0]], 1, 48000.0);
            WellFormed(a) && MergeEntries([Some(a), None], engine) == Throws(TypeError)
  {
    var a := Buffer([[0.0]], 1, 48000.0);
    var list: seq<Option<AudioBuffer>> := [Some(a), None];
    assert FirstNull(list[1..]) == 0;
    assert FirstNull(list) == 1;
    var before := Present(list[..1]);
    assert before == [a];
    assert CheckAt(before, 0) == None;
    assert ChannelsBefore(before, 1) == 1;
  }
}

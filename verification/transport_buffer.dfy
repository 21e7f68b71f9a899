/** AudioTransportBuffer: the buffer-mode transport the player state
    machine drives. It forwards the controls to the engine wrapper and
    filters the wrapper's ended events through a one-shot suppression flag
    that a seek raises. The wrapper reference is nulled on dispose; later
    calls then fail on the null reference. */
module TransportBuffer {
  import opened Outcomes
  import opened RealMath
  import OmnitoneWrapper

  datatype Transport = Transport(
    wrapper: OmnitoneWrapper.Wrapper,
    attached: bool,                // the wrapper reference is not null
    onEnded: Option<nat>,          // the registered callback
    suppressNextEnded: bool)

  predicate Good(t: Transport) { OmnitoneWrapper.Good(t.wrapper) }

  /** The constructor: registers its ended handler with the wrapper; no
      callback yet, and the flag starts unset. */
  function Create(w: OmnitoneWrapper.Wrapper, handler: nat): (t: Transport)
    requires OmnitoneWrapper.Good(w)
    ensures Good(t) && t.attached && t.onEnded.None? && !t.suppressNextEnded
    ensures t.wrapper.endedCallbacks == w.endedCallbacks + [handler]
    ensures t.wrapper.(endedCallbacks := w.endedCallbacks) == w
  {
    Transport(OmnitoneWrapper.OnEnded(w, Some(handler)), true, None, false)
  }

  /** onEnded: the new callback replaces any earlier one. */
  function OnEnded(t: Transport, callback: nat): (u: Transport)
    ensures u.onEnded == Some(callback) && u.(onEnded := t.onEnded) == t
  {
    t.(onEnded := Some(callback))
  }

  /** What an ended event does: the transport after it and the callback it
      called, if any. */
  datatype Delivery = Delivery(transport: Transport, called: Option<nat>)

  /** The ended handler: a raised flag swallows the event and is lowered;
      otherwise the registered callback (if any) is called. */
  function Ended(t: Transport): (d: Delivery)
    ensures t.suppressNextEnded ==> d == Delivery(t.(suppressNextEnded := false), None)
    ensures !t.suppressNextEnded ==> d == Delivery(t, t.onEnded)
  {
    if t.suppressNextEnded then Delivery(t.(suppressNextEnded := false), None)
    else Delivery(t, t.onEnded)
  }

  /** Run a wrapper call on the transport's wrapper; a nulled reference
      throws TypeError. */
  function Lift(t: Transport, s: Step<OmnitoneWrapper.Wrapper>): (r: Step<Transport>)
    requires t.attached
    ensures r == Step(t.(wrapper := s.state), s.thrown)
  {
    Step(t.(wrapper := s.state), s.thrown)
  }

  /** _play and _resume: both are wrapper.resume(). */
  function Play(t: Transport, nowMs: real): (r: Step<Transport>)
    requires Good(t)
    ensures Good(r.state)
    ensures !t.attached ==> r == Fail(t, TypeError)
    ensures t.attached ==> r == Step(t.(wrapper := OmnitoneWrapper.Resume(t.wrapper, nowMs).state),
                                     OmnitoneWrapper.Resume(t.wrapper, nowMs).thrown)
  {
    if !t.attached then Fail(t, TypeError) else Lift(t, OmnitoneWrapper.Resume(t.wrapper, nowMs))
  }

  function Resume(t: Transport, nowMs: real): (r: Step<Transport>)
    requires Good(t)
    ensures Good(r.state)
    ensures r == Play(t, nowMs)
  {
    Play(t, nowMs)
  }

  /** _pause: drop the playing source (the wrapper call has no guard); a
      source that never started makes it throw. */
  function Pause(t: Transport): (r: Step<Transport>)
    requires Good(t)
    ensures Good(r.state)
    ensures !t.attached ==> r == Fail(t, TypeError)
    ensures t.attached && !OmnitoneWrapper.Stoppable(t.wrapper) ==> r == Fail(t, InvalidStateError)
    ensures t.attached && OmnitoneWrapper.Stoppable(t.wrapper) ==>
              && !r.Threw() && r.state.wrapper.currentSource.None? && !r.state.wrapper.ticking
              && r.state == t.(wrapper := OmnitoneWrapper.ClearCurrentBufferSource(t.wrapper).state)
  {
    if !t.attached then Fail(t, TypeError)
    else Lift(t, OmnitoneWrapper.ClearCurrentBufferSource(t.wrapper))
  }

  /** _stop: wrapper.stop(). */
  function Stop(t: Transport): (r: Step<Transport>)
    requires Good(t)
    ensures Good(r.state)
    ensures !t.attached ==> r == Fail(t, TypeError)
    ensures t.attached ==> r == Step(t.(wrapper := OmnitoneWrapper.Stop(t.wrapper).state), OmnitoneWrapper.Stop(t.wrapper).thrown)
  {
    if !t.attached then Fail(t, TypeError) else Lift(t, OmnitoneWrapper.Stop(t.wrapper))
  }

  /** _seek AS WRITTEN: raise the flag, drop the playing source, prepare;
      a failing drop or prepare propagates with the flag raised. The flag
      is raised whether or not a source was playing. */
  function SeekAsWritten(t: Transport, seconds: real): (r: Step<Transport>)
    requires Good(t)
    ensures Good(r.state) && r.state.suppressNextEnded
    ensures !t.attached ==> r == Fail(t.(suppressNextEnded := true), TypeError)
    ensures t.attached && !OmnitoneWrapper.Stoppable(t.wrapper) ==>
              r == Fail(t.(suppressNextEnded := true), InvalidStateError)
    ensures t.attached && OmnitoneWrapper.Stoppable(t.wrapper) ==>
              var prepared := OmnitoneWrapper.Prepare(OmnitoneWrapper.ClearCurrentBufferSource(t.wrapper).state, seconds);
              r == Step(t.(suppressNextEnded := true, wrapper := prepared.state), prepared.thrown)
  {
    var raised := t.(suppressNextEnded := true);
    if !t.attached then Fail(raised, TypeError)
    else
      var cleared := OmnitoneWrapper.ClearCurrentBufferSource(t.wrapper);
      if cleared.Threw() then Lift(raised, cleared)
      else Lift(raised, OmnitoneWrapper.Prepare(cleared.state, seconds))
  }

  /** Whether a seek stops a source that is still sounding, which then
      fires ended. A source that never started fires nothing, and one that
      has played to its end has fired its ended event already. */
  predicate StopsStartedSource(t: Transport) {
    t.attached && OmnitoneWrapper.Sounding(t.wrapper)
  }

  /** _seek as evidently intended: the flag is raised only for the started
      source the seek stops, whose ended event is then the one swallowed. */
  function Seek(t: Transport, seconds: real): (r: Step<Transport>)
    requires Good(t)
    ensures Good(r.state)
    ensures r.state.suppressNextEnded <==> t.suppressNextEnded || StopsStartedSource(t)
    ensures r.thrown == SeekAsWritten(t, seconds).thrown
    ensures r.state.wrapper == SeekAsWritten(t, seconds).state.wrapper
    ensures StopsStartedSource(t) ==> r == SeekAsWritten(t, seconds)
  {
    var raised := t.(suppressNextEnded := t.suppressNextEnded || StopsStartedSource(t));
    if !t.attached then Fail(raised, TypeError)
    else
      var cleared := OmnitoneWrapper.ClearCurrentBufferSource(t.wrapper);
      if cleared.Threw() then Lift(raised, cleared)
      else Lift(raised, OmnitoneWrapper.Prepare(cleared.state, seconds))
  }

  /** dispose: the first call disposes the wrapper, swallowing what that
      throws, and nulls both references; after that there is nothing left
      to dispose. */
  function Dispose(t: Transport): (u: Transport)
    requires Good(t)
    ensures Good(u) && !u.attached && u.onEnded.None? && u.suppressNextEnded == t.suppressNextEnded
    ensures t.attached ==> u.wrapper == OmnitoneWrapper.Dispose(t.wrapper).state && u.wrapper.disposed
    ensures !t.attached ==> u.wrapper == t.wrapper
  {
    if t.attached then t.(wrapper := OmnitoneWrapper.Dispose(t.wrapper).state, attached := false, onEnded := None)
    else t.(onEnded := None)
  }

  /** The duration getter. */
  function Duration(t: Transport): (r: Result<real>)
    ensures !t.attached ==> r == Throws(TypeError)
    ensures t.attached ==> r == OmnitoneWrapper.DurationInSeconds(t.wrapper)
  {
    if !t.attached then Throws(TypeError) else OmnitoneWrapper.DurationInSeconds(t.wrapper)
  }

  /** The currentTime getter. */
  function CurrentTime(t: Transport): (r: Result<real>)
    ensures !t.attached ==> r == Throws(TypeError)
    ensures t.attached ==> r == OmnitoneWrapper.ElapsedTimeInSeconds(t.wrapper)
  {
    if !t.attached then Throws(TypeError) else OmnitoneWrapper.ElapsedTimeInSeconds(t.wrapper)
  }

  /** The wrapper's current source plays to its end; the transport's
      handler is among the callbacks the wrapper's ended handler runs. */
  function NaturalEnd(t: Transport): (d: Delivery)
    requires Good(t)
    ensures Good(d.transport)
    ensures OmnitoneWrapper.Sounding(t.wrapper) && !t.wrapper.sourceLoops ==>
              && !OmnitoneWrapper.Sounding(d.transport.wrapper)
              && d == Ended(t.(wrapper := t.wrapper.(sourceEnded := true)))
    ensures !OmnitoneWrapper.Sounding(t.wrapper) || t.wrapper.sourceLoops ==> d == Delivery(t, None)
  {
    var (v, called) := OmnitoneWrapper.SourceEnds(t.wrapper);
    if |called| == 0 && v == t.wrapper then Delivery(t, None) else Ended(t.(wrapper := v))
  }

  // ---- sample-rate compensation ---------------------------------------------------------

  /** The sample rate the HRIRs were recorded at. */
  const ReferenceSampleRate: real := 48000.0

  /** The output attenuation for a device rate (None: not a finite number):
      min(1, 48000 / rate) for a positive rate, 1 otherwise. */
  function CompensationGain(rate: Option<real>): (g: real)
    ensures 0.0 < g <= 1.0
    ensures rate.Some? && rate.value >= ReferenceSampleRate ==> g * rate.value == ReferenceSampleRate
    ensures rate.None? || rate.value <= ReferenceSampleRate ==> g == 1.0
  {
    if rate.Some? && rate.value > 0.0 then
      var ratio := ReferenceSampleRate / rate.value;
      if ratio < 1.0 then ratio else 1.0
    else 1.0
  }

  /** The gain at the reference rate and at twice it. */
  lemma CompensationExamples()
    ensures CompensationGain(Some(48000.0)) == 1.0
    ensures CompensationGain(Some(96000.0)) == 0.5
    ensures CompensationGain(Some(0.0)) == 1.0 && CompensationGain(None) == 1.0
  {
  }

  /** The attenuation never rises as the device rate rises. */
  lemma CompensationMonotone(r1: real, r2: real)
    requires 0.0 < r1 <= r2
    ensures CompensationGain(Some(r2)) <= CompensationGain(Some(r1))
  {
    var g1, g2 := CompensationGain(Some(r1)), CompensationGain(Some(r2));
    if r1 >= ReferenceSampleRate {
      assert g1 * r1 == ReferenceSampleRate && g2 * r2 == ReferenceSampleRate;
      ScaleWeakly(r1, r2, g1);
      assert g2 * r2 <= g1 * r2;
      CancelPositive(g2, g1, r2);
    }
  }

  lemma CancelPositive(a: real, b: real, c: real)
    requires 0.0 < c && a * c <= b * c
    ensures a <= b
  {
    if a > b {
      ScaleStrictly(b, a, c);
    }
  }

  lemma ScaleStrictly(a: real, b: real, c: real)
    requires a < b && 0.0 < c
    ensures a * c < b * c
  {
  }

  lemma ScaleWeakly(a: real, b: real, c: real)
    requires a <= b && 0.0 <= c
    ensures c * a <= c * b
  {
  }

  // ---- ended-event properties ----------------------------------------------------------

  /** The first ended event after construction reaches the callback. */
  lemma FirstEndedForwarded(w: OmnitoneWrapper.Wrapper, handler: nat, callback: nat)
    requires OmnitoneWrapper.Good(w)
    ensures Ended(OnEnded(Create(w, handler), callback)).called == Some(callback)
  {
  }

  /** After a seek the next ended event is swallowed and the flag lowered;
      the one after it is forwarded again. */
  lemma SeekSwallowsExactlyOne(t: Transport, seconds: real)
    requires Good(t)
    ensures var first := Ended(SeekAsWritten(t, seconds).state);
            var second := Ended(first.transport);
            && first.called.None? && !first.transport.suppressNextEnded
            && second.called == t.onEnded
  {
  }

  /** Without a callback an ended event calls nothing; with two
      registrations only the later one is called. */
  lemma OnEndedReplaces(t: Transport, a: nat, b: nat)
    requires !t.suppressNextEnded
    ensures t.onEnded.None? ==> Ended(t).called.None?
    ensures Ended(OnEnded(OnEnded(t, a), b)).called == Some(b)
  {
  }

  /** Disposing twice is disposing once: the wrapper is disposed by the
      first call only. */
  lemma DisposeIsIdempotent(t: Transport)
    requires Good(t)
    ensures Dispose(Dispose(t)) == Dispose(t)
  {
  }

  /** A seek while nothing plays raises the flag anyway, so after the next
      play the natural end of that playback is swallowed. */
  lemma SeekWhileStoppedSwallowsNaturalEnd(t: Transport, seconds: real, nowMs: real)
    requires Good(t) && t.attached && t.wrapper.currentSource.None? && !t.suppressNextEnded
    requires t.onEnded.Some?
    requires OmnitoneWrapper.BufferModeGuard(t.wrapper).None?
    ensures var sought := SeekAsWritten(t, seconds);
            var played := Play(sought.state, nowMs);
            && !sought.Threw() && !played.Threw()
            && played.state.wrapper.currentSource.Some?
            && Ended(played.state).called.None?
  {
    var sought := SeekAsWritten(t, seconds);
    var cleared := OmnitoneWrapper.ClearCurrentBufferSource(t.wrapper).state;
    assert OmnitoneWrapper.BufferModeGuard(cleared).None?;
    assert OmnitoneWrapper.BufferModeGuard(sought.state.wrapper).None?;
  }

  /** With the corrected seek the same sequence delivers the natural end. */
  lemma SeekWhileStoppedForwardsNaturalEnd(t: Transport, seconds: real, nowMs: real)
    requires Good(t) && t.attached && t.wrapper.currentSource.None? && !t.suppressNextEnded
    requires OmnitoneWrapper.BufferModeGuard(t.wrapper).None?
    ensures var sought := Seek(t, seconds);
            var played := Play(sought.state, nowMs);
            && !sought.Threw() && !played.Threw()
            && played.state.wrapper.currentSource.Some?
            && Ended(played.state).called == t.onEnded
  {
    var cleared := OmnitoneWrapper.ClearCurrentBufferSource(t.wrapper).state;
    assert OmnitoneWrapper.BufferModeGuard(cleared).None?;
    assert OmnitoneWrapper.BufferModeGuard(Seek(t, seconds).state.wrapper).None?;
  }

  /** Play to the natural end, seek, play again: as written the seek
      raises the flag although the source it stops has already fired its
      ended event, so the second natural end is swallowed. */
  lemma SeekAfterNaturalEndSwallows(t: Transport, seconds: real, nowMs: real)
    requires Good(t) && t.attached && !t.suppressNextEnded && t.onEnded.Some?
    requires OmnitoneWrapper.BufferModeGuard(t.wrapper).None? && !t.wrapper.loop
    requires OmnitoneWrapper.Sounding(t.wrapper) && !t.wrapper.sourceLoops && 0.0 <= seconds
    ensures var first := NaturalEnd(t);
            var sought := SeekAsWritten(first.transport, seconds);
            var played := Play(sought.state, nowMs);
            && first.called == t.onEnded
            && !sought.Threw() && !played.Threw() && OmnitoneWrapper.Sounding(played.state.wrapper)
            && NaturalEnd(played.state).called.None?
  {
    var first := NaturalEnd(t);
    var sought := SeekAsWritten(first.transport, seconds);
    SoughtPlaysAgain(first.transport, sought.state, seconds, nowMs);
  }

  /** The same sequence with the corrected seek delivers both ends. */
  lemma SeekAfterNaturalEndForwards(t: Transport, seconds: real, nowMs: real)
    requires Good(t) && t.attached && !t.suppressNextEnded
    requires OmnitoneWrapper.BufferModeGuard(t.wrapper).None? && !t.wrapper.loop
    requires OmnitoneWrapper.Sounding(t.wrapper) && !t.wrapper.sourceLoops && 0.0 <= seconds
    ensures var first := NaturalEnd(t);
            var sought := Seek(first.transport, seconds);
            var played := Play(sought.state, nowMs);
            && first.called == t.onEnded
            && !sought.Threw() && !played.Threw() && OmnitoneWrapper.Sounding(played.state.wrapper)
            && NaturalEnd(played.state).called == t.onEnded
  {
    var first := NaturalEnd(t);
    var sought := Seek(first.transport, seconds);
    SoughtPlaysAgain(first.transport, sought.state, seconds, nowMs);
  }

  /** After a seek of an ended, non-looping source to a position t >= 0,
      the next play starts a new, non-looping source that sounds. */
  lemma SoughtPlaysAgain(t: Transport, sought: Transport, seconds: real, nowMs: real)
    requires Good(t) && t.attached && OmnitoneWrapper.BufferModeGuard(t.wrapper).None? && !t.wrapper.loop
    requires t.wrapper.currentSource.Some? && OmnitoneWrapper.Stoppable(t.wrapper) && 0.0 <= seconds
    requires sought.wrapper == SeekAsWritten(t, seconds).state.wrapper && sought.attached
    requires Good(sought)
    ensures !Play(sought, nowMs).Threw()
    ensures var w := Play(sought, nowMs).state.wrapper;
            OmnitoneWrapper.Sounding(w) && !w.sourceLoops
  {
    var cleared := OmnitoneWrapper.ClearCurrentBufferSource(t.wrapper).state;
    assert OmnitoneWrapper.BufferModeGuard(cleared).None?;
    var prepared := OmnitoneWrapper.Prepare(cleared, seconds).state;
    assert sought.wrapper == prepared;
    OmnitoneWrapper.PreparedIsPlayable(cleared, seconds);
    OmnitoneWrapper.NonNegativeOffset(seconds, cleared.duration);
  }
}

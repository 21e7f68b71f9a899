/** OmnitoneWrapper, the engine layer: it owns the renderer and the input
    gain, holds either a decoded content buffer (buffer mode) or an
    externally bound source (streaming mode), and turns orientation into
    renderer rotations. Every call is a transition on an immutable state;
    a call that throws (or whose promise rejects) returns the state it
    leaves together with the error. Time, the audio context and the
    renderer's asynchronous HRIR loading arrive as parameters and events. */
module OmnitoneWrapper {
  import opened Outcomes
  import opened AudioGraph
  import opened AudioBuffers
  import opened RealMath
  import opened Quaternions
  import opened Matrices
  import opened WrapperStatics
  import Renderers
  import FoaRouter
  import FoaRotator
  import HoaRotator
  import BufferLists
  import Convolvers

  /** The only value the volume field ever holds: the constructor's. */
  const InitialVolume: real := 1.0

  /** Nodes are identified by numbers: buffer sources by creation count,
      bound stream sources and callbacks by the caller's identities. */
  datatype Wrapper = Wrapper(
    order: int,
    channelMap: Option<FoaRouter.MapArg>,
    disposed: bool,
    hasContext: bool,
    hasInputGain: bool,
    renderer: Option<Renderers.Renderer>,
    hrirLoad: Option<BufferLists.Loader>,    // the renderer's HRIR loader
    renderingMode: string,
    gainTarget: Option<real>,                // last amplitude ramped to
    contentBuffer: Option<AudioBuffer>,
    duration: real,                          // seconds
    playedFrom: real,                        // fraction of the duration
    elapsedMs: real,
    startedAtMs: real,
    loop: bool,
    currentSource: Option<nat>,              // the buffer source playing
    sourceStarted: bool,                     // its start() went through
    sourceLoops: bool,                       // it was created looping
    sourceEnded: bool,                       // it played to its end
    sourcesCreated: nat,
    ticking: bool,                           // the elapsed-time interval runs
    boundSource: Option<nat>,                // streaming mode
    endedCallbacks: seq<nat>,
    progressCallback: Option<nat>,
    currentLoad: Option<BufferLists.Loader>, // load() in flight
    graph: Graph)                            // the wrapper's own connections

  /** new OmnitoneWrapper(order, channelMap) */
  function Create(order: int, channelMap: Option<FoaRouter.MapArg>): (w: Wrapper)
    ensures Good(w) && !w.disposed && !Initialized(w)
    ensures w.boundSource.None? && w.contentBuffer.None? && w.currentSource.None?
    ensures w.renderingMode == "ambisonic" && w.graph == {}
  {
    Wrapper(order, channelMap, false, false, false, None, None, "ambisonic", None, None,
            0.0, 0.0, 0.0, 0.0, false, None, false, false, false, 0, false, None, [], None, None, {})
  }

  /** What every reachable state satisfies, but for the one a dispose()
      during initialize()'s renderer await leaves (see RendererArrived): a
      renderer is well formed, its wiring matches its mode and that mode is
      the one the wrapper names (when it names one); the elapsed-time
      interval runs exactly while a buffer source exists; and only that
      source has connections. */
  predicate Good(w: Wrapper) {
    && (w.renderer.Some? ==> Renderers.Valid(w.renderer.value) && Renderers.ModeApplied(w.renderer.value))
    && (w.renderer.Some? && Renderers.ParseMode(w.renderingMode).Some? ==>
          w.renderer.value.mode == Renderers.ParseMode(w.renderingMode).value)
    && (w.ticking <==> w.currentSource.Some?)
    && (forall e: Edge :: e in w.graph && e.src.BufferSource? ==> w.currentSource == Some(e.src.id))
  }

  // ---- guards ---------------------------------------------------------------------

  predicate Initialized(w: Wrapper) {
    w.hasContext && w.hasInputGain && w.renderer.Some?
  }

  /** #assertNotDisposed */
  function NotDisposedGuard(w: Wrapper): (e: Option<Error>)
    ensures e.None? <==> !w.disposed
    ensures e.Some? ==> e.value == Disposed
  {
    if w.disposed then Some(Disposed) else None
  }

  /** #assertInitialized: disposal is reported first. */
  function InitializedGuard(w: Wrapper): (e: Option<Error>)
    ensures e.None? <==> !w.disposed && Initialized(w)
    ensures w.disposed ==> e == Some(Disposed)
    ensures !w.disposed && !Initialized(w) ==> e == Some(NotInitialized)
  {
    if w.disposed then Some(Disposed)
    else if !Initialized(w) then Some(NotInitialized)
    else None
  }

  /** #assertContentBufferPresent */
  function ContentGuard(w: Wrapper): (e: Option<Error>)
    ensures e.None? <==> !w.disposed && Initialized(w) && w.contentBuffer.Some?
    ensures InitializedGuard(w).Some? ==> e == InitializedGuard(w)
  {
    if InitializedGuard(w).Some? then InitializedGuard(w)
    else if w.contentBuffer.None? then Some(NoBuffer)
    else None
  }

  /** #assertBufferLoaded: a content buffer and a positive duration. */
  function BufferLoadedGuard(w: Wrapper): (e: Option<Error>)
    ensures e.None? <==> !w.disposed && Initialized(w) && w.contentBuffer.Some? && w.duration > 0.0
    ensures ContentGuard(w).Some? ==> e == ContentGuard(w)
    ensures ContentGuard(w).None? && w.duration <= 0.0 ==> e == Some(InvalidDuration)
  {
    if ContentGuard(w).Some? then ContentGuard(w)
    else if w.duration <= 0.0 then Some(InvalidDuration)
    else None
  }

  /** The buffer-mode checks of play, resume and prepare: the loaded buffer
      first, then streaming mode. */
  function BufferModeGuard(w: Wrapper): (e: Option<Error>)
    ensures e.None? <==> BufferLoadedGuard(w).None? && w.boundSource.None?
    ensures BufferLoadedGuard(w).None? && w.boundSource.Some? ==> e == Some(BufferModeOnly)
  {
    if BufferLoadedGuard(w).Some? then BufferLoadedGuard(w)
    else if w.boundSource.Some? then Some(BufferModeOnly)
    else None
  }

  // ---- buffer-mode getters ----------------------------------------------------------

  /** elapsedTimeInSeconds: streaming mode throws; no other check. */
  function ElapsedTimeInSeconds(w: Wrapper): (r: Result<real>)
    ensures r.Throws? <==> w.boundSource.Some?
    ensures r.Throws? ==> r.error == BufferModeOnly
    ensures r.Value? ==> r.value * 1000.0 == w.elapsedMs
  {
    if w.boundSource.Some? then Throws(BufferModeOnly) else Value(w.elapsedMs / 1000.0)
  }

  function DurationInSeconds(w: Wrapper): (r: Result<real>)
    ensures r.Throws? <==> w.boundSource.Some?
    ensures r.Throws? ==> r.error == BufferModeOnly
    ensures r.Value? ==> r.value == w.duration
  {
    if w.boundSource.Some? then Throws(BufferModeOnly) else Value(w.duration)
  }

  /** sampleRate: the content buffer's, 0 without one. */
  function SampleRate(w: Wrapper): (r: Result<real>)
    ensures r.Throws? <==> w.boundSource.Some?
    ensures r.Throws? ==> r.error == BufferModeOnly
    ensures r.Value? ==> (r.value > 0.0 <==> w.contentBuffer.Some?)
  {
    if w.boundSource.Some? then Throws(BufferModeOnly)
    else if w.contentBuffer.Some? then Value(w.contentBuffer.value.sampleRate)
    else Value(0.0)
  }

  /** totalSamples: the content buffer's length, 0 without one. */
  function TotalSamples(w: Wrapper): (r: Result<nat>)
    ensures r.Throws? <==> w.boundSource.Some?
    ensures r.Throws? ==> r.error == BufferModeOnly
    ensures r.Value? && w.contentBuffer.None? ==> r.value == 0
  {
    if w.boundSource.Some? then Throws(BufferModeOnly)
    else if w.contentBuffer.Some? then Value(w.contentBuffer.value.length)
    else Value(0)
  }

  // ---- gain, volume, output, mode ---------------------------------------------------------

  /** The gain getter hands out the input gain's parameter. */
  function Gain(w: Wrapper): (r: Result<Node>)
    ensures r.Throws? <==> InitializedGuard(w).Some?
    ensures r.Throws? ==> r.error == InitializedGuard(w).value
    ensures r.Value? ==> r.value == InputGain
  {
    if InitializedGuard(w).Some? then Throws(InitializedGuard(w).value) else Value(InputGain)
  }

  /** The gain setter: a level in decibels becomes the amplitude
      10^(dB/20) the input gain ramps to; a non-number (None) is ignored
      after the guard. */
  function SetGain(w: Wrapper, m: Math, db: Option<real>): (s: Step<Wrapper>)
    ensures InitializedGuard(w).Some? ==> s == Fail(w, InitializedGuard(w).value)
    ensures InitializedGuard(w).None? && db.None? ==> s == Ok(w)
    ensures InitializedGuard(w).None? && db.Some? ==>
              !s.Threw() && s.state.gainTarget == Some(m.pow(10.0, db.value / 20.0))
              && s.state.(gainTarget := w.gainTarget) == w
  {
    if InitializedGuard(w).Some? then Fail(w, InitializedGuard(w).value)
    else if db.None? then Ok(w)
    else Ok(w.(gainTarget := Some(DecibelsToAmplitude(m, db.value))))
  }

  /** The volume setter: the volume curve's level handed to the gain
      setter; the volume field itself is not written. */
  function SetVolume(w: Wrapper, m: Math, volume: real): (s: Step<Wrapper>)
    ensures InitializedGuard(w).Some? ==> s == Fail(w, InitializedGuard(w).value)
    ensures InitializedGuard(w).None? ==>
              !s.Threw() && s.state.(gainTarget := w.gainTarget) == w
              && s.state.gainTarget == Some(m.pow(10.0, VolumeToGain(m, volume) / 20.0))
    ensures InitializedGuard(w).None? && volume <= 0.0 ==> s.state.gainTarget == Some(m.pow(10.0, MinDb / 20.0))
  {
    SetGain(w, m, Some(VolumeToGain(m, volume)))
  }

  /** The output getter: the renderer's output node. */
  function Output(w: Wrapper): (r: Result<Node>)
    ensures r.Throws? <==> InitializedGuard(w).Some?
    ensures r.Throws? ==> r.error == InitializedGuard(w).value
    ensures r.Value? ==> r.value == RendererOutput
  {
    if InitializedGuard(w).Some? then Throws(InitializedGuard(w).value) else Value(RendererOutput)
  }

  /** The order setter: no guard, and no renderer is rebuilt. */
  function SetOrder(w: Wrapper, order: int): Wrapper
  {
    w.(order := order)
  }

  /** The channelMap setter: stored for the next initialize() only. */
  function SetChannelMap(w: Wrapper, channelMap: Option<FoaRouter.MapArg>): Wrapper
  {
    w.(channelMap := channelMap)
  }

  /** The loop setter: stored, read when the next source is created. */
  function SetLoop(w: Wrapper, loop: bool): Wrapper
  {
    w.(loop := loop)
  }

  /** The renderingMode setter: the string is stored whatever it is and
      forwarded to a renderer if there is one. */
  function SetRenderingMode(w: Wrapper, mode: string): (v: Wrapper)
    requires Good(w)
    ensures Good(v)
    ensures v.renderingMode == mode && v.renderer.Some? == w.renderer.Some?
    ensures v.(renderingMode := w.renderingMode, renderer := w.renderer) == w
    ensures w.renderer.Some? && Renderers.ParseMode(mode).Some? ==> v.renderer.value.mode == Renderers.ParseMode(mode).value
    ensures w.renderer.Some? && Renderers.ParseMode(mode).None? ==> v.renderer == w.renderer
  {
    if w.renderer.Some? then
      Renderers.SetRenderingModeKeepsModeApplied(w.renderer.value, mode);
      w.(renderingMode := mode, renderer := Some(Renderers.SetRenderingMode(w.renderer.value, mode)))
    else w.(renderingMode := mode)
  }

  /** onEnded: only functions are kept (None stands for anything else). */
  function OnEnded(w: Wrapper, callback: Option<nat>): (v: Wrapper)
    ensures callback.Some? ==> v.endedCallbacks == w.endedCallbacks + [callback.value]
    ensures callback.None? ==> v == w
    ensures v.(endedCallbacks := w.endedCallbacks) == w
  {
    if callback.Some? then w.(endedCallbacks := w.endedCallbacks + [callback.value]) else w
  }

  // ---- rotation ------------------------------------------------------------------------

  /** rotateSoundfieldWithQuaternion: disposal throws; without a renderer
      the call is a silent no-op; otherwise the renderer gets the matrix of
      the quaternion (which it ignores until its HRIRs are in). */
  function RotateWithQuaternion(w: Wrapper, m: Math, q: Quaternion): (s: Step<Wrapper>)
    requires Good(w) && m.sqrt(0.0) == 0.0
    ensures Good(s.state)
    ensures w.disposed ==> s == Fail(w, Disposed)
    ensures !w.disposed && w.renderer.None? ==> s == Ok(w)
    ensures !w.disposed && w.renderer.Some? ==>
              && !s.Threw() && s.state.(renderer := w.renderer) == w
              && s.state.renderer == Some(Renderers.SetRotationMatrix3(w.renderer.value, QuaternionToRotationMatrix3(q), m.sqrt))
  {
    if w.disposed then Fail(w, Disposed)
    else if w.renderer.None? then Ok(w)
    else Ok(w.(renderer := Some(Renderers.SetRotationMatrix3(w.renderer.value, QuaternionToRotationMatrix3(q), m.sqrt))))
  }

  /** rotateSoundfieldWithAzimuthAndElevationAngles: the same, for the
      quaternion of the two angles in the renderer's convention. */
  function RotateWithAzimuthElevation(w: Wrapper, m: Math, azimuth: real, elevation: real): (s: Step<Wrapper>)
    requires Good(w) && m.sqrt(0.0) == 0.0
    ensures Good(s.state)
    ensures s == RotateWithQuaternion(w, m, FromAzimuthElevation(m, azimuth, elevation))
  {
    RotateWithQuaternion(w, m, FromAzimuthElevation(m, azimuth, elevation))
  }

  /** notify: a missing quaternion is ignored; otherwise the head-tracker
      quaternion is converted to the renderer's convention and applied. */
  function Notify(w: Wrapper, m: Math, q: Option<Quaternion>): (s: Step<Wrapper>)
    requires Good(w) && m.sqrt(0.0) == 0.0
    ensures Good(s.state)
    ensures q.None? ==> s == Ok(w)
    ensures q.Some? ==> s == RotateWithQuaternion(w, m, ToOmnitone(q.value))
  {
    if q.None? then Ok(w) else RotateWithQuaternion(w, m, ToOmnitone(q.value))
  }

  /** At rest (azimuth and elevation 0) the renderer is turned by the
      convention shim diag(-1, 1, -1). */
  lemma AtRestRotation(w: Wrapper, m: Math)
    requires Good(w) && Lawful(m) && !w.disposed && w.renderer.Some?
    ensures RotateWithAzimuthElevation(w, m, 0.0, 0.0).state.renderer ==
              Some(Renderers.SetRotationMatrix3(w.renderer.value, Shim3, m.sqrt))
  {
    AtRestMatrix(m);
  }

  /** The shim on a ready renderer: the higher-order band-1 gains become
      the identity, the first-order rotator holds the shim itself. */
  lemma ShimRestsRenderer(r: Renderers.Renderer, sqrt: real -> real)
    requires Renderers.Valid(r) && sqrt(0.0) == 0.0 && r.ready
    ensures var t := Renderers.SetRotationMatrix3(r, Shim3, sqrt);
            && (t.stage.HigherOrder? ==> t.stage.hoa.bands[0] == Identity3)
            && (t.stage.FirstOrder? ==> FoaRotator.GetRotationMatrix3(t.stage.foa) == Shim3)
  {
    if r.stage.HigherOrder? {
      HoaRotator.Band1OfIdentityAndShim(r.stage.hoa, sqrt);
    }
  }

  /** Azimuth and elevation 0 give the convention shim's matrix. */
  lemma AtRestMatrix(m: Math)
    requires Lawful(m)
    ensures QuaternionToRotationMatrix3(FromAzimuthElevation(m, 0.0, 0.0)) == Shim3
  {
    AzimuthElevationAtRest(m);
    IdentityAndShimMatrices();
  }

  // ---- buffer sources ---------------------------------------------------------------

  /** A buffer source can be stopped once its start() went through. One
      whose start() threw was never started, and stop() on it throws the
      platform's InvalidStateError. */
  predicate Stoppable(w: Wrapper) {
    w.currentSource.None? || w.sourceStarted
  }

  /** clearCurrentBufferSource: stop and disconnect the playing source and
      stop the elapsed-time interval. Stopping a source that never started
      throws before anything has changed. */
  function ClearCurrentBufferSource(w: Wrapper): (s: Step<Wrapper>)
    requires Good(w)
    ensures Good(s.state)
    ensures s.Threw() <==> !Stoppable(w)
    ensures s.Threw() ==> s == Fail(w, InvalidStateError)
    ensures !s.Threw() ==>
              && s.state.currentSource.None? && !s.state.ticking
              && (forall e: Edge :: e in s.state.graph <==> e in w.graph && !e.src.BufferSource?)
              && s.state.(graph := w.graph, currentSource := w.currentSource, ticking := w.ticking) == w
  {
    if !Stoppable(w) then Fail(w, InvalidStateError)
    else if w.currentSource.Some? then
      Ok(w.(graph := DisconnectAll(w.graph, BufferSource(w.currentSource.value)), currentSource := None, ticking := false))
    else Ok(w.(ticking := false))
  }

  // ---- loading -------------------------------------------------------------------------

  /** finalizeLoading: needs a content buffer; rotates to rest (the
      renderer's warm-up) and sets the duration to length / sampleRate. */
  function FinalizeLoading(w: Wrapper, m: Math): (s: Step<Wrapper>)
    requires Good(w) && m.sqrt(0.0) == 0.0
    ensures Good(s.state)
    ensures ContentGuard(w).Some? ==> s == Fail(w, ContentGuard(w).value)
    ensures ContentGuard(w).None? ==>
              && !s.Threw()
              && s.state.duration == (w.contentBuffer.value.length as real) / w.contentBuffer.value.sampleRate
              && s.state.renderer == RotateWithAzimuthElevation(w, m, 0.0, 0.0).state.renderer
              && s.state.(duration := w.duration, renderer := w.renderer) == w
  {
    if ContentGuard(w).Some? then Fail(w, ContentGuard(w).value)
    else
      var rotated := RotateWithAzimuthElevation(w, m, 0.0, 0.0).state;
      var b := w.contentBuffer.value;
      Ok(rotated.(duration := (b.length as real) / b.sampleRate))
  }

  /** (order + 1)^2 channels, for whatever the order field holds. */
  function ExpectedChannels(order: int): int { (order + 1) * (order + 1) }

  /** loadFromAudioBuffer: guard, reject a missing buffer or a channel
      count other than (order+1)^2; then return to buffer mode (the bound
      source is forgotten but stays connected), drop the playing source,
      reset the position and finalize. A source that never started makes
      the drop throw, after the stream has already been forgotten. */
  function LoadFromAudioBuffer(w: Wrapper, m: Math, buffer: Option<AudioBuffer>): (s: Step<Wrapper>)
    requires Good(w) && m.sqrt(0.0) == 0.0
    ensures Good(s.state)
    ensures InitializedGuard(w).Some? ==> s == Fail(w, InitializedGuard(w).value)
    ensures InitializedGuard(w).None? && buffer.None? ==> s == Fail(w, NullArgument)
    ensures InitializedGuard(w).None? && buffer.Some? && NumberOfChannels(buffer.value) != ExpectedChannels(w.order) ==>
              s == Fail(w, ChannelMismatch)
    ensures (InitializedGuard(w).None? && buffer.Some? && NumberOfChannels(buffer.value) == ExpectedChannels(w.order)
             && !Stoppable(w)) ==> s == Fail(w.(boundSource := None), InvalidStateError)
    ensures (InitializedGuard(w).None? && buffer.Some? && NumberOfChannels(buffer.value) == ExpectedChannels(w.order)
             && Stoppable(w)) ==>
              && !s.Threw()
              && s.state.contentBuffer == buffer && s.state.boundSource.None? && s.state.currentSource.None?
              && s.state.playedFrom == 0.0 && s.state.elapsedMs == 0.0
              && s.state.duration == (buffer.value.length as real) / buffer.value.sampleRate
              && (forall e: Edge :: e in s.state.graph <==> e in w.graph && !e.src.BufferSource?)
  {
    if InitializedGuard(w).Some? then Fail(w, InitializedGuard(w).value)
    else if buffer.None? then Fail(w, NullArgument)
    else if NumberOfChannels(buffer.value) != ExpectedChannels(w.order) then Fail(w, ChannelMismatch)
    else
      var cleared := ClearCurrentBufferSource(w.(boundSource := None));
      if cleared.Threw() then cleared
      else FinalizeLoading(cleared.state.(contentBuffer := buffer, playedFrom := 0.0, elapsedMs := 0.0), m)
  }

  /** What load() is given: one URL or a list of chunk URLs. */
  datatype UrlsArg = OneUrl(url: string) | UrlList(urls: seq<string>)

  /** The URLs the chunk loader fetches AS WRITTEN: the argument goes to
      the loader unchanged, and the loader indexes whatever it is given, so
      a single URL string is fetched one character at a time. */
  function RequestedUrlsAsWritten(arg: UrlsArg): (urls: seq<string>)
    ensures arg.UrlList? ==> urls == arg.urls
    ensures arg.OneUrl? ==> |urls| == |arg.url| && forall i :: 0 <= i < |urls| ==> urls[i] == [arg.url[i]]
  {
    match arg
    case OneUrl(url) => seq(|url|, i requires 0 <= i < |url| => [url[i]])
    case UrlList(urls) => urls
  }

  /** The URLs as documented: a single URL is one chunk. */
  function RequestedUrls(arg: UrlsArg): (urls: seq<string>)
    ensures arg.OneUrl? ==> urls == [arg.url]
    ensures arg.UrlList? ==> urls == RequestedUrlsAsWritten(arg)
  {
    match arg
    case OneUrl(url) => [url]
    case UrlList(urls) => urls
  }

  /** A five-character URL becomes five one-character requests. */
  lemma SingleUrlIsSplit()
    ensures RequestedUrlsAsWritten(OneUrl("a.wav")) == ["a", ".", "w", "a", "v"]
    ensures RequestedUrls(OneUrl("a.wav")) == ["a.wav"]
  {
    var urls := RequestedUrlsAsWritten(OneUrl("a.wav"));
    assert urls[0] == ['a'] && urls[1] == ['.'] && urls[2] == ['w'] && urls[3] == ['a'] && urls[4] == ['v'];
  }

  /** load(), up to the first await: guard, keep the progress callback,
      launch one URL task per entry the loader indexes in its argument. */
  function StartLoad(w: Wrapper, urls: UrlsArg, progress: Option<nat>): (s: Step<Wrapper>)
    ensures InitializedGuard(w).Some? ==> s == Fail(w, InitializedGuard(w).value)
    ensures InitializedGuard(w).None? ==>
              && !s.Threw() && s.state.progressCallback == progress
              && s.state.currentLoad.Some? && s.state.currentLoad.value.taskCount == |RequestedUrlsAsWritten(urls)|
              && s.state.currentLoad.value.promise.Pending?
              && s.state.(progressCallback := w.progressCallback, currentLoad := w.currentLoad) == w
    ensures InitializedGuard(w).None? && urls.OneUrl? ==> s.state.currentLoad.value.taskCount == |urls.url|
  {
    if InitializedGuard(w).Some? then Fail(w, InitializedGuard(w).value)
    else Ok(w.(progressCallback := progress,
               currentLoad := Some(BufferLists.Load(|RequestedUrlsAsWritten(urls)|, BufferLists.Url))))
  }

  /** load() as documented: a single URL is a single task. */
  function StartLoadCorrected(w: Wrapper, urls: UrlsArg, progress: Option<nat>): (s: Step<Wrapper>)
    ensures InitializedGuard(w).Some? ==> s == Fail(w, InitializedGuard(w).value)
    ensures InitializedGuard(w).None? ==>
              && !s.Threw() && s.state.progressCallback == progress
              && s.state.currentLoad.Some? && s.state.currentLoad.value.taskCount == |RequestedUrls(urls)|
              && s.state.currentLoad.value.promise.Pending?
              && s.state.(progressCallback := w.progressCallback, currentLoad := w.currentLoad) == w
    ensures InitializedGuard(w).None? && urls.OneUrl? ==> s.state.currentLoad.value.taskCount == 1
  {
    if InitializedGuard(w).Some? then Fail(w, InitializedGuard(w).value)
    else Ok(w.(progressCallback := progress,
               currentLoad := Some(BufferLists.Load(|RequestedUrls(urls)|, BufferLists.Url))))
  }

  /** Both starts agree on a list of URLs, and on a single URL exactly when
      it is one character long. */
  lemma StartLoadAgrees(w: Wrapper, urls: UrlsArg, progress: Option<nat>)
    ensures urls.UrlList? ==> StartLoad(w, urls, progress) == StartLoadCorrected(w, urls, progress)
    ensures urls.OneUrl? ==> (StartLoad(w, urls, progress) == StartLoadCorrected(w, urls, progress) <==>
                              InitializedGuard(w).Some? || |urls.url| == 1)
  {
    if urls.OneUrl? && InitializedGuard(w).None? && StartLoad(w, urls, progress) == StartLoadCorrected(w, urls, progress) {
      assert StartLoad(w, urls, progress).state.currentLoad.value.taskCount == |urls.url|;
    }
  }

  /** A task callback of the load in flight (ignored when none is); only
      the load changes. */
  function LoadEvent(w: Wrapper, e: BufferLists.Event): (v: Wrapper)
    ensures w.currentLoad.None? ==> v == w
    ensures w.currentLoad.Some? ==> v.currentLoad == Some(BufferLists.Apply(w.currentLoad.value, e))
    ensures v.(currentLoad := w.currentLoad) == w
  {
    if w.currentLoad.None? then w
    else w.(currentLoad := Some(BufferLists.Apply(w.currentLoad.value, e)))
  }

  /** The same with the loader's failure path corrected to reject first. */
  function LoadEventCorrected(w: Wrapper, e: BufferLists.Event): (v: Wrapper)
    ensures w.currentLoad.None? ==> v == w
    ensures w.currentLoad.Some? ==> v.currentLoad == Some(BufferLists.ApplyCorrected(w.currentLoad.value, e))
    ensures v.(currentLoad := w.currentLoad) == w
    ensures e.Decoded? || e.HttpLoaded? || e.Abort? ==> v == LoadEvent(w, e)
  {
    if w.currentLoad.None? then w
    else
      var v := w.(currentLoad := Some(BufferLists.ApplyCorrected(w.currentLoad.value, e)));
      if e.Decoded? || e.HttpLoaded? || e.Abort? then
        BufferLists.CorrectedAgreesOnSuccess(w.currentLoad.value, e);
        v
      else v
  }

  /** abortLoad: no guard; aborts the load in flight, if any. */
  function AbortLoad(w: Wrapper): (v: Wrapper)
    ensures w.currentLoad.None? ==> v == w
    ensures w.currentLoad.Some? ==> v.currentLoad == Some(BufferLists.AbortLoad(w.currentLoad.value))
    ensures v.(currentLoad := w.currentLoad) == w
  {
    if w.currentLoad.None? then w else w.(currentLoad := Some(BufferLists.AbortLoad(w.currentLoad.value)))
  }

  /** The resolved chunks, provided none of them is null. */
  function Chunks(list: seq<Option<AudioBuffer>>): (r: Option<seq<AudioBuffer>>)
    ensures r.Some? <==> forall i :: 0 <= i < |list| ==> list[i].Some?
    ensures r.Some? ==> |r.value| == |list| && forall i :: 0 <= i < |list| ==> list[i] == Some(r.value[i])
  {
    if forall i :: 0 <= i < |list| ==> list[i].Some? then Some(Present(list)) else None
  }

  /** The resolved array of a settled loader. */
  function Resolved(loader: BufferLists.Loader): (list: seq<Option<AudioBuffer>>)
    requires loader.promise.Resolved?
    ensures |list| == loader.taskCount
  {
    BufferLists.ResolvedArray(loader.promise.buffers, loader.taskCount)
  }

  /** The rest of load(), once its promise has settled: the load is no
      longer in flight; a rejection propagates; the resolved list, null
      entries included, goes to the merge (no guard runs again) and the
      result is finalized. While the promise is pending nothing happens. */
  function FinishLoad(w: Wrapper, m: Math, engine: ChannelLimit): (s: Step<Wrapper>)
    requires Good(w) && m.sqrt(0.0) == 0.0
    ensures Good(s.state)
    ensures w.currentLoad.None? || w.currentLoad.value.promise.Pending? ==> s == Ok(w)
    ensures w.currentLoad.Some? && w.currentLoad.value.promise.Rejected? ==>
              s == Fail(w.(currentLoad := None), LoadRejected)
    ensures w.currentLoad.Some? && !w.currentLoad.value.promise.Pending? ==> s.state.currentLoad.None?
    ensures w.currentLoad.Some? && w.currentLoad.value.promise.Resolved? &&
            Chunks(Resolved(w.currentLoad.value)).None? ==>
              s.Threw() && s.state == w.(currentLoad := None) && s.thrown != Some(NotSupportedError)
    ensures w.currentLoad.Some? && w.currentLoad.value.promise.Resolved? && !s.Threw() ==>
              && s.state.contentBuffer.Some? && |s.state.contentBuffer.value.channels| <= engine
              && s.state.duration > 0.0
  {
    if w.currentLoad.None? || w.currentLoad.value.promise.Pending? then Ok(w)
    else Settle(w.(currentLoad := None), w.currentLoad.value, m, engine)
  }

  /** A settled load's promise handled on a wrapper no longer loading: the
      merge decides, null entries and the engine's channel limit included. */
  function Settle(w: Wrapper, loader: BufferLists.Loader, m: Math, engine: ChannelLimit): (s: Step<Wrapper>)
    requires Good(w) && m.sqrt(0.0) == 0.0 && w.currentLoad.None?
    ensures Good(s.state) && s.state.currentLoad.None?
    ensures loader.promise.Pending? ==> s == Ok(w)
    ensures loader.promise.Rejected? ==> s == Fail(w, LoadRejected)
    ensures loader.promise.Resolved? && Chunks(Resolved(loader)).None? ==>
              s.Threw() && s.state == w && s.thrown != Some(NotSupportedError)
    ensures loader.promise.Resolved? && Chunks(Resolved(loader)).Some? ==>
              var merged := MergeByChannel(Chunks(Resolved(loader)).value, engine);
              && (merged.Throws? ==> s == Fail(w, merged.error))
              && (merged.Value? ==> s.state.contentBuffer == Some(merged.value))
    ensures loader.promise.Resolved? && !s.Threw() ==>
              && s.state.contentBuffer.Some? && |s.state.contentBuffer.value.channels| <= engine
              && s.state.duration > 0.0
  {
    if loader.promise.Rejected? then Fail(w, LoadRejected)
    else if loader.promise.Pending? then Ok(w)
    else
      var merged := MergeEntries(Resolved(loader), engine);
      if merged.Throws? then Fail(w, merged.error)
      else StoreMerged(w, merged.value, m)
  }

  /** load() with both corrections: the loader rejects on the first failed
      task, and the merge enforces 32 channels on the final total. */
  function FinishLoadCorrected(w: Wrapper, m: Math): (s: Step<Wrapper>)
    requires Good(w) && m.sqrt(0.0) == 0.0
    ensures Good(s.state)
    ensures w.currentLoad.None? || w.currentLoad.value.promise.Pending? ==> s == Ok(w)
    ensures w.currentLoad.Some? && w.currentLoad.value.promise.Rejected? ==>
              s == Fail(w.(currentLoad := None), LoadRejected)
    ensures w.currentLoad.Some? && !w.currentLoad.value.promise.Pending? ==> s.state.currentLoad.None?
    ensures w.currentLoad.Some? && w.currentLoad.value.promise.Resolved? && !s.Threw() ==>
              && s.state.contentBuffer.Some? && |s.state.contentBuffer.value.channels| <= MaxChannels
              && s.state.duration > 0.0
  {
    if w.currentLoad.None? || w.currentLoad.value.promise.Pending? then Ok(w)
    else SettleCorrected(w.(currentLoad := None), w.currentLoad.value, m)
  }

  function SettleCorrected(w: Wrapper, loader: BufferLists.Loader, m: Math): (s: Step<Wrapper>)
    requires Good(w) && m.sqrt(0.0) == 0.0 && w.currentLoad.None?
    ensures Good(s.state) && s.state.currentLoad.None?
    ensures loader.promise.Pending? ==> s == Ok(w)
    ensures loader.promise.Rejected? ==> s == Fail(w, LoadRejected)
    ensures loader.promise.Resolved? && Chunks(Resolved(loader)).None? ==> s == Fail(w, TypeError)
    ensures loader.promise.Resolved? && !s.Threw() ==>
              && s.state.contentBuffer.Some? && |s.state.contentBuffer.value.channels| <= MaxChannels
              && s.state.duration > 0.0
  {
    if loader.promise.Rejected? then Fail(w, LoadRejected)
    else if loader.promise.Pending? then Ok(w)
    else
      var chunks := Chunks(Resolved(loader));
      if chunks.None? then Fail(w, TypeError)
      else
        var merged := MergeByChannelCorrected(chunks.value);
        if merged.Throws? then Fail(w, merged.error)
        else StoreMerged(w, merged.value, m)
  }

  /** Where no chunk is null and the channels fit in 32, the load as written
      and the corrected one settle alike, on every engine; a rejection
      settles alike too. */
  lemma SettleAgrees(w: Wrapper, loader: BufferLists.Loader, m: Math, engine: ChannelLimit)
    requires Good(w) && m.sqrt(0.0) == 0.0 && w.currentLoad.None?
    ensures !loader.promise.Resolved? ==> Settle(w, loader, m, engine) == SettleCorrected(w, loader, m)
    ensures loader.promise.Resolved? && Chunks(Resolved(loader)).Some? &&
            ChannelsBefore(Chunks(Resolved(loader)).value, loader.taskCount) <= MaxChannels ==>
              Settle(w, loader, m, engine) == SettleCorrected(w, loader, m)
  {
    if loader.promise.Resolved? && Chunks(Resolved(loader)).Some? {
      CorrectedMergeAgrees(Chunks(Resolved(loader)).value, engine);
    }
  }

  /** A load whose only chunk fails on the network resolves, as written,
      with a null entry, and the merge then fails on it with TypeError; the
      corrected loader rejects the same load instead. */
  lemma LastChunkFailure(w: Wrapper, m: Math, engine: ChannelLimit)
    requires Good(w) && m.sqrt(0.0) == 0.0 && w.currentLoad.None?
    ensures var loader := BufferLists.Apply(BufferLists.Load(1, BufferLists.Url), BufferLists.NetworkError(0));
            && loader.promise.Resolved?
            && Settle(w, loader, m, engine) == Fail(w, TypeError)
    ensures var loader := BufferLists.ApplyCorrected(BufferLists.Load(1, BufferLists.Url), BufferLists.NetworkError(0));
            SettleCorrected(w, loader, m) == Fail(w, LoadRejected)
  {
    var loader := BufferLists.Apply(BufferLists.Load(1, BufferLists.Url), BufferLists.NetworkError(0));
    assert Resolved(loader) == [None];
  }

  /** The merged buffer becomes the content and is finalized. */
  function StoreMerged(w: Wrapper, content: AudioBuffer, m: Math): (s: Step<Wrapper>)
    requires Good(w) && m.sqrt(0.0) == 0.0
    ensures Good(s.state)
    ensures s.state.contentBuffer == Some(content)
    ensures !s.Threw() ==> s.state.duration > 0.0
    ensures s.state.currentLoad == w.currentLoad
  {
    DurationPositive(content);
    FinalizeLoading(w.(contentBuffer := Some(content)), m)
  }

  /** Every buffer lasts a positive time: it holds at least one frame at a
      positive rate. */
  lemma DurationPositive(b: AudioBuffer)
    ensures (b.length as real) / b.sampleRate > 0.0
  {
    assert (b.length as real) / b.sampleRate * b.sampleRate == b.length as real;
  }

  // ---- playback --------------------------------------------------------------------

  /** play(from): needs a loaded buffer and buffer mode; replaces the
      playing source by a new one connected to the input gain, records the
      start, and starts it at from * duration seconds, which rejects with a
      RangeError when negative (after the source is in place, which then
      never starts). Replacing a source that never started rejects with
      InvalidStateError and changes nothing. */
  function Play(w: Wrapper, from: real, nowMs: real): (s: Step<Wrapper>)
    requires Good(w)
    ensures Good(s.state)
    ensures BufferModeGuard(w).Some? ==> s == Fail(w, BufferModeGuard(w).value)
    ensures BufferModeGuard(w).None? && !Stoppable(w) ==> s == Fail(w, InvalidStateError)
    ensures BufferModeGuard(w).None? && Stoppable(w) ==>
              && (s.Threw() <==> from * w.duration < 0.0)
              && (s.Threw() ==> s.thrown == Some(RangeError))
              && (s.state.sourceStarted <==> !s.Threw()) && !s.state.sourceEnded
              && s.state.sourceLoops == w.loop
              && s.state.currentSource == Some(w.sourcesCreated) && s.state.ticking
              && s.state.playedFrom == from && s.state.startedAtMs == nowMs
              && (forall e: Edge :: e in s.state.graph <==>
                    (e in w.graph && !e.src.BufferSource?) || e == Edge(BufferSource(w.sourcesCreated), 0, InputGain, 0))
  {
    if BufferModeGuard(w).Some? then Fail(w, BufferModeGuard(w).value)
    else
      var cleared := if w.currentSource.Some? then ClearCurrentBufferSource(w) else Ok(w);
      if cleared.Threw() then cleared
      else
        var id := w.sourcesCreated;
        var rejected := from * w.duration < 0.0;
        var started := cleared.state.(playedFrom := from, startedAtMs := nowMs, currentSource := Some(id),
                                      sourceStarted := !rejected, sourceLoops := w.loop, sourceEnded := false,
                                      sourcesCreated := id + 1, ticking := true,
                                      graph := Connect(cleared.state.graph, BufferSource(id), 0, InputGain, 0));
        if rejected then Fail(started, RangeError) else Ok(started)
  }

  /** One run of the 17 ms interval: elapsed = now - start + the start
      position in milliseconds. */
  function Tick(w: Wrapper, nowMs: real): (v: Wrapper)
    ensures !w.ticking ==> v == w
    ensures w.ticking ==> v.elapsedMs - w.playedFrom * w.duration * 1000.0 == nowMs - w.startedAtMs
    ensures v.(elapsedMs := w.elapsedMs) == w
  {
    if !w.ticking then w
    else w.(elapsedMs := nowMs - w.startedAtMs + w.playedFrom * w.duration * 1000.0)
  }

  /** resume(): the buffer-mode checks, then play from the elapsed
      fraction; play is not awaited, so its rejection does not reach the
      caller. */
  function Resume(w: Wrapper, nowMs: real): (s: Step<Wrapper>)
    requires Good(w)
    ensures Good(s.state)
    ensures BufferModeGuard(w).Some? ==> s == Fail(w, BufferModeGuard(w).value)
    ensures BufferModeGuard(w).None? ==> s == Ok(Play(w, w.elapsedMs / 1000.0 / w.duration, nowMs).state)
  {
    if BufferModeGuard(w).Some? then Fail(w, BufferModeGuard(w).value)
    else Ok(Play(w, w.elapsedMs / 1000.0 / w.duration, nowMs).state)
  }

  /** prepare(t): seek without playing. */
  function Prepare(w: Wrapper, seconds: real): (s: Step<Wrapper>)
    ensures BufferModeGuard(w).Some? ==> s == Fail(w, BufferModeGuard(w).value)
    ensures BufferModeGuard(w).None? ==>
              && !s.Threw() && s.state.elapsedMs == seconds * 1000.0
              && s.state.playedFrom * w.duration == seconds
              && s.state.(elapsedMs := w.elapsedMs, playedFrom := w.playedFrom) == w
  {
    if BufferModeGuard(w).Some? then Fail(w, BufferModeGuard(w).value)
    else Ok(w.(elapsedMs := seconds * 1000.0, playedFrom := seconds / w.duration))
  }

  /** stop(): only the initialisation guard, then streaming mode throws;
      otherwise the source is dropped and the position reset. Dropping a
      source that never started throws with nothing reset. */
  function Stop(w: Wrapper): (s: Step<Wrapper>)
    requires Good(w)
    ensures Good(s.state)
    ensures InitializedGuard(w).Some? ==> s == Fail(w, InitializedGuard(w).value)
    ensures InitializedGuard(w).None? && w.boundSource.Some? ==> s == Fail(w, BufferModeOnly)
    ensures InitializedGuard(w).None? && w.boundSource.None? && !Stoppable(w) ==> s == Fail(w, InvalidStateError)
    ensures InitializedGuard(w).None? && w.boundSource.None? && Stoppable(w) ==>
              && !s.Threw() && s.state.currentSource.None? && !s.state.ticking
              && s.state.playedFrom == 0.0 && s.state.elapsedMs == 0.0
              && (forall e: Edge :: e in s.state.graph ==> !e.src.BufferSource?)
  {
    if InitializedGuard(w).Some? then Fail(w, InitializedGuard(w).value)
    else if w.boundSource.Some? then Fail(w, BufferModeOnly)
    else
      var cleared := ClearCurrentBufferSource(w);
      if cleared.Threw() then cleared else Ok(cleared.state.(playedFrom := 0.0, elapsedMs := 0.0))
  }

  /** A started source that has not yet ended. */
  predicate Sounding(w: Wrapper) {
    w.currentSource.Some? && w.sourceStarted && !w.sourceEnded
  }

  /** The current source plays to its end, which a source created looping
      never does. The ended handler calls every registered callback and
      clears nothing: the source stays current, now ended, and the
      elapsed-time interval keeps running. Returns the state and the
      callbacks called. */
  function SourceEnds(w: Wrapper): (r: (Wrapper, seq<nat>))
    requires Good(w)
    ensures Good(r.0)
    ensures Sounding(w) && !w.sourceLoops ==>
              && !Sounding(r.0) && Stoppable(r.0) && r.0.currentSource == w.currentSource
              && r.1 == w.endedCallbacks
    ensures !Sounding(w) || w.sourceLoops ==> r == (w, [])
    ensures r.0.(sourceEnded := w.sourceEnded) == w
  {
    if Sounding(w) && !w.sourceLoops then (w.(sourceEnded := true), w.endedCallbacks) else (w, [])
  }

  /** prepare(t) then resume() plays from t / duration: the seek position
      survives the round trip through milliseconds. */
  lemma PrepareThenResume(w: Wrapper, seconds: real, nowMs: real)
    requires Good(w) && BufferModeGuard(w).None?
    ensures var prepared := Prepare(w, seconds).state;
            BufferModeGuard(prepared).None?
            && Resume(prepared, nowMs).state.playedFrom == seconds / w.duration
  {
    ResumeAfterPrepare(w, seconds, nowMs);
    PositionRoundTrip(seconds, w.duration);
  }

  lemma ResumeAfterPrepare(w: Wrapper, seconds: real, nowMs: real)
    requires Good(w) && BufferModeGuard(w).None?
    ensures var prepared := Prepare(w, seconds).state;
            && Good(prepared) && BufferModeGuard(prepared).None? && w.duration > 0.0
            && Resume(prepared, nowMs).state.playedFrom == seconds * 1000.0 / 1000.0 / w.duration
  {
    var prepared := Prepare(w, seconds).state;
    PreparedIsPlayable(w, seconds);
    if Stoppable(w) {
      ResumePlaysFromElapsed(prepared, nowMs);
    } else {
      PositionRoundTrip(seconds, w.duration);
    }
  }

  lemma PreparedIsPlayable(w: Wrapper, seconds: real)
    requires Good(w) && BufferModeGuard(w).None?
    ensures var prepared := Prepare(w, seconds).state;
            && Good(prepared) && BufferModeGuard(prepared).None?
            && prepared.duration == w.duration && prepared.elapsedMs == seconds * 1000.0
  {
    var prepared := Prepare(w, seconds).state;
    assert prepared.(elapsedMs := w.elapsedMs, playedFrom := w.playedFrom) == w;
  }

  lemma ResumePlaysFromElapsed(w: Wrapper, nowMs: real)
    requires Good(w) && BufferModeGuard(w).None? && Stoppable(w)
    ensures Resume(w, nowMs).state.playedFrom == w.elapsedMs / 1000.0 / w.duration
  {
  }

  /** A position stored in milliseconds, read back as a fraction of the
      duration, scales back to the seconds it came from. */
  lemma PositionRoundTrip(seconds: real, duration: real)
    requires duration > 0.0
    ensures seconds * 1000.0 / 1000.0 / duration == seconds / duration
  {
  }

  /** Once playing from the fraction seconds / duration (as resume does),
      the elapsed time d milliseconds later is the position's time in
      milliseconds plus d. */
  lemma PlayThenTick(w: Wrapper, seconds: real, nowMs: real, later: real)
    requires Good(w) && BufferModeGuard(w).None? && Stoppable(w)
    ensures Tick(Play(w, seconds / w.duration, nowMs).state, later).elapsedMs == seconds * 1000.0 + (later - nowMs)
  {
    PlayStartsClock(w, seconds / w.duration, nowMs);
    TickFromStart(Play(w, seconds / w.duration, nowMs).state, seconds, w.duration, nowMs, later);
  }

  lemma TickFromStart(p: Wrapper, seconds: real, duration: real, nowMs: real, later: real)
    requires duration > 0.0
    requires p.ticking && p.playedFrom == seconds / duration && p.duration == duration && p.startedAtMs == nowMs
    ensures Tick(p, later).elapsedMs == seconds * 1000.0 + (later - nowMs)
  {
  }

  lemma PlayStartsClock(w: Wrapper, from: real, nowMs: real)
    requires Good(w) && BufferModeGuard(w).None? && Stoppable(w)
    ensures var played := Play(w, from, nowMs).state;
            && played.ticking && played.playedFrom == from && played.startedAtMs == nowMs
            && played.duration == w.duration
  {
  }

  // ---- streaming ------------------------------------------------------------------------

  /** bindSource: a missing node throws; otherwise the previous bound
      source is disconnected, the new one recorded and connected to the
      input gain. There is no guard: without an input gain the connect
      throws a TypeError after the node has been recorded. */
  function BindSource(w: Wrapper, node: Option<nat>): (s: Step<Wrapper>)
    requires Good(w)
    ensures Good(s.state)
    ensures node.None? ==> s == Fail(w, NullArgument)
    ensures node.Some? ==> s.state.boundSource == node
    ensures node.Some? ==> (s.Threw() <==> !w.hasInputGain) && (s.Threw() ==> s.thrown == Some(TypeError))
    ensures node.Some? && w.boundSource.Some? && w.boundSource != node ==>
              Outgoing(s.state.graph, StreamSource(w.boundSource.value)) == {}
    ensures node.Some? && w.hasInputGain ==> Edge(StreamSource(node.value), 0, InputGain, 0) in s.state.graph
  {
    if node.None? then Fail(w, NullArgument)
    else
      var detached := if w.boundSource.Some? then DisconnectAll(w.graph, StreamSource(w.boundSource.value)) else w.graph;
      var bound := w.(boundSource := node, graph := detached);
      if !w.hasInputGain then Fail(bound, TypeError)
      else Ok(bound.(graph := Connect(detached, StreamSource(node.value), 0, InputGain, 0)))
  }

  // ---- dispose ----------------------------------------------------------------------------

  /** dispose, step 3: disconnect and forget the bound source. */
  function DropBoundSource(w: Wrapper): (v: Wrapper)
    ensures v.boundSource.None?
    ensures forall e: Edge :: e in v.graph <==>
              e in w.graph && (w.boundSource.Some? ==> e.src != StreamSource(w.boundSource.value))
    ensures v.(graph := w.graph, boundSource := w.boundSource) == w
  {
    if w.boundSource.Some? then w.(graph := DisconnectAll(w.graph, StreamSource(w.boundSource.value)), boundSource := None)
    else w
  }

  /** dispose, step 4: disconnect the renderer's output and drop it. */
  function DropRenderer(w: Wrapper): (v: Wrapper)
    ensures v.renderer.None?
    ensures forall e: Edge :: e in v.graph ==> e in w.graph && e.src != RendererOutput
    ensures forall e: Edge :: e in w.graph && e.src != RendererOutput ==> e in v.graph
    ensures v.(graph := w.graph, renderer := w.renderer, hrirLoad := w.hrirLoad) == w
  {
    if w.renderer.Some? then w.(graph := DisconnectAll(w.graph, RendererOutput), renderer := None, hrirLoad := None)
    else w.(graph := DisconnectAll(w.graph, RendererOutput))
  }

  /** dispose, step 5: disconnect and drop the input gain. */
  function DropInputGain(w: Wrapper): (v: Wrapper)
    ensures !v.hasInputGain
    ensures forall e: Edge :: e in v.graph ==> e in w.graph && e.src != InputGain
    ensures forall e: Edge :: e in w.graph && e.src != InputGain ==> e in v.graph
    ensures v.(graph := w.graph, hasInputGain := w.hasInputGain) == w
  {
    if w.hasInputGain then w.(graph := DisconnectAll(w.graph, InputGain), hasInputGain := false)
    else w.(graph := DisconnectAll(w.graph, InputGain))
  }

  /** dispose: the second call returns at once. The first marks the
      wrapper disposed, clears the playing source, disconnects and forgets
      the bound source, the renderer's output and the input gain, and drops
      the content buffer; the audio context is kept. A source that never
      started makes the clearing throw: the wrapper is then disposed but
      still holds everything else. */
  function Dispose(w: Wrapper): (s: Step<Wrapper>)
    requires Good(w)
    ensures Good(s.state) && s.state.disposed
    ensures w.disposed ==> s == Ok(w)
    ensures !w.disposed && !Stoppable(w) ==> s == Fail(w.(disposed := true), InvalidStateError)
    ensures !w.disposed && Stoppable(w) ==>
              var d := s.state;
              && !s.Threw()
              && d.renderer.None? && !d.hasInputGain && d.hasContext == w.hasContext
              && d.contentBuffer.None? && d.boundSource.None? && d.currentSource.None? && !d.ticking
              && (forall e: Edge :: e in d.graph ==>
                    && e in w.graph && !e.src.BufferSource? && e.src != InputGain && e.src != RendererOutput
                    && (w.boundSource.Some? ==> e.src != StreamSource(w.boundSource.value)))
  {
    if w.disposed then Ok(w)
    else
      var cleared := ClearCurrentBufferSource(w.(disposed := true));
      if cleared.Threw() then cleared
      else Ok(DropInputGain(DropRenderer(DropBoundSource(cleared.state))).(contentBuffer := None))
  }

  // ---- initialize -----------------------------------------------------------------------------

  /** The renderer configuration initialize() passes for each order. */
  function FoaConfig(w: Wrapper): Renderers.Config {
    Renderers.Config(w.channelMap, None, None, None)
  }

  function HoaConfig(w: Wrapper): Renderers.Config {
    Renderers.Config(None, None, None, Some(w.order))
  }

  /** The orders initialize() can build no renderer for, and the
      first-order configurations the renderer rejects. */
  predicate InitializeFails(w: Wrapper) {
    || !(1 <= w.order <= 3)
    || (w.order == 1 && Renderers.CreateFoaRenderer(FoaConfig(w)).Throws?)
  }

  /** What a successful initialize() leaves: a renderer of the order, not
      yet ready, loading one HRIR file per stereo pair; input gain into the
      renderer, renderer into the destination; the renderer in the
      wrapper's mode (ambisonic when the stored string names none); the
      gain at the initial volume's level. */
  predicate Started(w: Wrapper, v: Wrapper, m: Math) {
    && Initialized(v) && !v.disposed
    && v.renderer.value.order == w.order && !v.renderer.value.ready
    && v.hrirLoad.Some? && v.hrirLoad.value.promise.Pending?
    && v.hrirLoad.value.taskCount == Convolvers.PairCount(v.renderer.value.order)
    && Edge(InputGain, 0, RendererInput, 0) in v.graph
    && Edge(RendererOutput, 0, Destination, 0) in v.graph
    && (Renderers.ParseMode(w.renderingMode).None? ==> v.renderer.value.mode == Renderers.AmbisonicMode)
    && v.gainTarget == Some(m.pow(10.0, VolumeToGain(m, InitialVolume) / 20.0))
    && v.(renderer := w.renderer, hrirLoad := w.hrirLoad, graph := w.graph, gainTarget := w.gainTarget) == w
  }

  /** The part of initialize() after the renderer exists: start its HRIR
      load, wire it between the input gain and the destination, apply the
      stored mode and re-apply the volume. */
  function Install(v: Wrapper, r: Renderers.Renderer, m: Math): (u: Wrapper)
    requires Good(v) && v.hasContext && v.hasInputGain && !v.disposed
    requires Renderers.Valid(r) && Renderers.ModeApplied(r) && r.mode == Renderers.AmbisonicMode
    requires r.order == v.order && !r.ready
    ensures Good(u) && Started(v, u, m)
  {
    WiredIsGood(v, r);
    WiredShape(v, r);
    SetVolume(Wired(v, r), m, InitialVolume).state
  }

  /** The renderer starts loading its HRIRs, takes the wrapper's mode, and
      sits between the input gain and the destination. */
  function Wired(v: Wrapper, r: Renderers.Renderer): Wrapper
  {
    Attach(v, Renderers.SetRenderingMode(r, v.renderingMode), Renderers.StartHrirLoad(r))
  }

  /** Records the renderer and its loader and connects it between the input
      gain and the destination. */
  function Attach(v: Wrapper, renderer: Renderers.Renderer, loader: BufferLists.Loader): Wrapper
  {
    v.(renderer := Some(renderer), hrirLoad := Some(loader),
       graph := Connect(Connect(v.graph, InputGain, 0, RendererInput, 0), RendererOutput, 0, Destination, 0))
  }

  lemma WiredIsGood(v: Wrapper, r: Renderers.Renderer)
    requires Good(v) && v.hasContext && v.hasInputGain
    requires Renderers.Valid(r) && Renderers.ModeApplied(r)
    ensures Good(Wired(v, r)) && Initialized(Wired(v, r)) && Wired(v, r).disposed == v.disposed
  {
    WiredRenderer(v, r);
    WiredSources(v, r);
  }

  lemma WiredRenderer(v: Wrapper, r: Renderers.Renderer)
    requires Renderers.Valid(r) && Renderers.ModeApplied(r)
    ensures var u := Wired(v, r);
            && u.renderer.Some? && Renderers.Valid(u.renderer.value) && Renderers.ModeApplied(u.renderer.value)
            && (Renderers.ParseMode(u.renderingMode).Some? ==>
                  u.renderer.value.mode == Renderers.ParseMode(u.renderingMode).value)
  {
    Renderers.SetRenderingModeKeepsModeApplied(r, v.renderingMode);
  }

  lemma WiredSources(v: Wrapper, r: Renderers.Renderer)
    requires Good(v)
    ensures var u := Wired(v, r);
            && (u.ticking <==> u.currentSource.Some?)
            && forall e: Edge :: e in u.graph && e.src.BufferSource? ==> u.currentSource == Some(e.src.id)
  {
    AttachKeepsSources(v, Renderers.SetRenderingMode(r, v.renderingMode), Renderers.StartHrirLoad(r));
  }

  lemma AttachKeepsSources(v: Wrapper, renderer: Renderers.Renderer, loader: BufferLists.Loader)
    requires Good(v)
    ensures var u := Attach(v, renderer, loader);
            && (u.ticking <==> u.currentSource.Some?)
            && forall e: Edge :: e in u.graph && e.src.BufferSource? ==> u.currentSource == Some(e.src.id)
  {
    var u := Attach(v, renderer, loader);
    forall e: Edge | e in u.graph && e.src.BufferSource?
      ensures u.currentSource == Some(e.src.id)
    {
      assert e in v.graph;
    }
  }

  lemma WiredShape(v: Wrapper, r: Renderers.Renderer)
    requires Renderers.Valid(r) && r.mode == Renderers.AmbisonicMode
    ensures var u := Wired(v, r);
            && u.renderer.Some? && u.renderer.value.order == r.order && u.renderer.value.ready == r.ready
            && u.hrirLoad.Some? && u.hrirLoad.value.promise.Pending?
            && u.hrirLoad.value.taskCount == Convolvers.PairCount(r.order)
            && Edge(InputGain, 0, RendererInput, 0) in u.graph && Edge(RendererOutput, 0, Destination, 0) in u.graph
            && (Renderers.ParseMode(v.renderingMode).None? ==> u.renderer.value.mode == Renderers.AmbisonicMode)
            && u.(renderer := v.renderer, hrirLoad := v.hrirLoad, graph := v.graph) == v
  {
    Renderers.HrirsFillEveryPair(r);
  }

  /** initialize() resumed after its first await, on the audio context:
      a context that fails to resume throws; otherwise the context is kept
      and a fresh input gain created. The new gain has no connections: a
      gain left by an earlier, failed attempt is dropped together with
      every connection into or out of it (a stream bound to it included).
      Disposal is not checked again. */
  function ContextArrived(w: Wrapper, contextResumes: bool): (s: Step<Wrapper>)
    requires Good(w)
    ensures Good(s.state)
    ensures !contextResumes ==> s == Fail(w, ContextFailed)
    ensures contextResumes ==>
              && !s.Threw() && s.state.hasContext && s.state.hasInputGain
              && (forall e: Edge :: e in s.state.graph <==> e in w.graph && e.src != InputGain && e.dst != InputGain)
              && s.state.(hasContext := w.hasContext, hasInputGain := w.hasInputGain, graph := w.graph) == w
  {
    if !contextResumes then Fail(w, ContextFailed)
    else
      GoodOnFewerEdges(w, Isolate(w.graph, InputGain));
      Ok(w.(hasContext := true, hasInputGain := true, graph := Isolate(w.graph, InputGain)))
  }

  /** Dropping connections, and setting the context flags, keeps the
      invariant. */
  lemma GoodOnFewerEdges(w: Wrapper, g: Graph)
    requires Good(w) && g <= w.graph
    ensures Good(w.(hasContext := true, hasInputGain := true, graph := g))
  {
  }

  /** A retried initialize() connects the renderer to its new input gain
      only: a stream bound to the gain of the failed attempt stays recorded
      as bound but feeds nothing, so it no longer reaches the renderer. */
  lemma RetryDropsBoundStream(w: Wrapper, m: Math, r: Renderers.Renderer, id: nat)
    requires Good(w) && !w.disposed && !Initialized(w) && w.hasInputGain
    requires w.boundSource == Some(id) && Edge(StreamSource(id), 0, InputGain, 0) in w.graph
    requires Renderers.Valid(r) && Renderers.ModeApplied(r) && r.mode == Renderers.AmbisonicMode
    requires r.order == w.order && !r.ready
    ensures var s := RendererArrived(ContextArrived(w, true).state, m, Value(r));
            && !s.Threw() && Initialized(s.state) && s.state.boundSource == Some(id)
            && Edge(InputGain, 0, RendererInput, 0) in s.state.graph
            && forall e: Edge :: e in s.state.graph ==> e.dst != InputGain
  {
    var v := ContextArrived(w, true).state;
    var u := Wired(v, r);
    WiredShape(v, r);
    assert forall e: Edge :: e in u.graph ==> e in v.graph || e.dst != InputGain;
  }

  /** initialize() resumed once the renderer factory of the order has
      settled (at once for an order with no factory). No renderer throws.
      Otherwise the renderer is kept and starts loading its HRIRs; the
      input gain is connected to it, which throws TypeError when a dispose()
      during the await has dropped the gain; the renderer goes to the
      destination and takes the stored mode; last, the volume setter runs,
      whose guard throws Disposed when a dispose() came during the first
      await. The TypeError leaves the renderer in its initial mode whatever
      mode the wrapper names, so that state keeps the invariant only when
      the name is ambisonic or no mode at all. */
  function RendererArrived(v: Wrapper, m: Math, created: Result<Renderers.Renderer>): (s: Step<Wrapper>)
    requires Good(v) && v.hasContext
    requires created.Value? ==>
               && Renderers.Valid(created.value) && Renderers.ModeApplied(created.value)
               && created.value.mode == Renderers.AmbisonicMode
               && created.value.order == v.order && !created.value.ready
    ensures created.Throws? || v.hasInputGain ==> Good(s.state)
    ensures created.Throws? ==> s == Fail(v, created.error)
    ensures created.Value? && !v.hasInputGain ==>
              && (Good(s.state) <==> Renderers.ParseMode(v.renderingMode) in {None, Some(Renderers.AmbisonicMode)})
              && s.thrown == Some(TypeError) && s.state.renderer == Some(created.value) && !Initialized(s.state)
              && s.state.hrirLoad == Some(Renderers.StartHrirLoad(created.value))
              && s.state.(renderer := v.renderer, hrirLoad := v.hrirLoad) == v
    ensures created.Value? && v.hasInputGain && !v.disposed ==>
              && s == Ok(Install(v, created.value, m)) && Started(v, s.state, m)
    ensures created.Value? && v.hasInputGain && v.disposed ==>
              && s.thrown == Some(Disposed) && Initialized(s.state) && s.state.disposed
              && s.state.renderer.value.order == created.value.order
              && s.state.hrirLoad.Some? && s.state.hrirLoad.value.promise.Pending?
              && Edge(InputGain, 0, RendererInput, 0) in s.state.graph
              && Edge(RendererOutput, 0, Destination, 0) in s.state.graph
  {
    if created.Throws? then Fail(v, created.error)
    else
      var r := created.value;
      if !v.hasInputGain then
        StrandedRenderer(v, r);
        Fail(v.(renderer := Some(r), hrirLoad := Some(Renderers.StartHrirLoad(r))), TypeError)
      else if v.disposed then
        WiredWhileDisposed(v, r, m);
        SetVolume(Wired(v, r), m, InitialVolume)
      else
        WiredWhileLive(v, r, m);
        SetVolume(Wired(v, r), m, InitialVolume)
  }

  /** The wiring step on a live wrapper is the complete set-up. */
  lemma WiredWhileLive(v: Wrapper, r: Renderers.Renderer, m: Math)
    requires Good(v) && v.hasContext && v.hasInputGain && !v.disposed
    requires Renderers.Valid(r) && Renderers.ModeApplied(r) && r.mode == Renderers.AmbisonicMode
    requires r.order == v.order && !r.ready
    ensures var s := SetVolume(Wired(v, r), m, InitialVolume);
            s == Ok(Install(v, r, m)) && Good(s.state) && Started(v, s.state, m)
  {
    WiredIsGood(v, r);
  }

  /** A renderer recorded without the mode step is in the initial mode, so
      the invariant holds exactly when the wrapper names that mode or none. */
  lemma StrandedRenderer(v: Wrapper, r: Renderers.Renderer)
    requires Good(v)
    requires Renderers.Valid(r) && Renderers.ModeApplied(r) && r.mode == Renderers.AmbisonicMode
    ensures var u := v.(renderer := Some(r), hrirLoad := Some(Renderers.StartHrirLoad(r)));
            Good(u) <==> Renderers.ParseMode(v.renderingMode) in {None, Some(Renderers.AmbisonicMode)}
  {
  }

  /** The wiring step on a disposed wrapper holding a gain: everything is
      wired, then the volume setter's guard throws Disposed. */
  lemma WiredWhileDisposed(v: Wrapper, r: Renderers.Renderer, m: Math)
    requires Good(v) && v.hasContext && v.hasInputGain && v.disposed
    requires Renderers.Valid(r) && Renderers.ModeApplied(r) && r.mode == Renderers.AmbisonicMode
    ensures var s := SetVolume(Wired(v, r), m, InitialVolume);
            && Good(s.state) && s.thrown == Some(Disposed) && Initialized(s.state) && s.state.disposed
            && s.state.renderer.value.order == r.order
            && s.state.hrirLoad.Some? && s.state.hrirLoad.value.promise.Pending?
            && Edge(InputGain, 0, RendererInput, 0) in s.state.graph
            && Edge(RendererOutput, 0, Destination, 0) in s.state.graph
  {
    WiredIsGood(v, r);
    WiredShape(v, r);
  }

  /** initialize(): disposal throws; a complete set-up returns at once.
      Otherwise the context is resumed (which may fail), a fresh input gain
      created and the renderer of the order built; no renderer (an order
      other than 1, 2, 3, or a rejected first-order configuration) throws
      with the context and gain already in place. The renderer's HRIR load
      is started but not awaited. This is the call with nothing else run
      between its continuations. */
  method Initialize(w: Wrapper, m: Math, contextResumes: bool) returns (s: Step<Wrapper>)
    requires Good(w) && m.sqrt(0.0) == 0.0
    ensures Good(s.state)
    ensures w.disposed ==> s == Fail(w, Disposed)
    ensures !w.disposed && Initialized(w) ==> s == Ok(w)
    ensures !w.disposed && !Initialized(w) && !contextResumes ==> s == Fail(w, ContextFailed)
    ensures !w.disposed && !Initialized(w) && contextResumes ==>
              && s.state.hasContext && s.state.hasInputGain
              && (s.Threw() <==> InitializeFails(w))
              && (s.Threw() ==> s.state.renderer == w.renderer)
              && (!(1 <= w.order <= 3) ==> s.thrown == Some(RendererMissing))
              && (!s.Threw() ==> Started(w.(hasContext := true, hasInputGain := true), s.state, m))
  {
    if w.disposed {
      return Fail(w, Disposed);
    }
    if Initialized(w) {
      return Ok(w);
    }
    var ctx := ContextArrived(w, contextResumes);
    if ctx.Threw() {
      return ctx;
    }
    var created := CreateRenderer(ctx.state, m);
    s := RendererArrived(ctx.state, m, created);
    if !s.Threw() {
      StartedWhateverTheGraph(ctx.state, w.(hasContext := true, hasInputGain := true), s.state, m);
    }
  }

  /** Started does not depend on the graph it starts from. */
  lemma StartedWhateverTheGraph(a: Wrapper, b: Wrapper, v: Wrapper, m: Math)
    requires Started(a, v, m) && b.(graph := a.graph) == a
    ensures Started(b, v, m)
  {
  }

  /** The renderer factory initialize() picks by order: first order from
      the channel map, second and third order from the order alone. */
  method CreateRenderer(w: Wrapper, m: Math) returns (created: Result<Renderers.Renderer>)
    requires m.sqrt(0.0) == 0.0
    ensures created.Throws? <==> InitializeFails(w)
    ensures !(1 <= w.order <= 3) ==> created == Throws(RendererMissing)
    ensures created.Value? ==>
              && Renderers.Valid(created.value) && Renderers.ModeApplied(created.value)
              && created.value.mode == Renderers.AmbisonicMode
              && created.value.order == w.order && !created.value.ready
  {
    if w.order == 1 {
      created := Renderers.CreateFoaRenderer(FoaConfig(w));
      if created.Value? {
        Renderers.AmbisonicConstructionIsApplied(FoaConfig(w));
      }
    } else if w.order == 2 || w.order == 3 {
      created := Renderers.BuildHoaRenderer(HoaConfig(w), m.sqrt);
    } else {
      created := Throws(RendererMissing);
    }
  }

  /** One callback of the renderer's HRIR loader. When it resolves the
      loader, the renderer receives the resolved list, null entries
      included, re-applies its mode and becomes ready unless the HRIR
      assignment throws. A rejection leaves the renderer not ready. */
  function HrirEvent(w: Wrapper, e: BufferLists.Event): (v: Wrapper)
    requires Good(w)
    ensures Good(v)
    ensures w.renderer.None? || w.hrirLoad.None? ==> v == w
    ensures w.renderer.Some? && w.hrirLoad.Some? ==>
              && v.hrirLoad == Some(BufferLists.Apply(w.hrirLoad.value, e))
              && v.renderer.Some? && v.renderer.value.mode == w.renderer.value.mode
              && v.(renderer := w.renderer, hrirLoad := w.hrirLoad) == w
    ensures w.renderer.Some? && w.hrirLoad.Some? && !w.renderer.value.ready ==>
              (v.renderer.value.ready ==> v.hrirLoad.value.promise.Resolved?)
    ensures w.renderer.Some? && w.hrirLoad.Some? && w.hrirLoad.value.promise.Pending? &&
            v.hrirLoad.value.promise.Resolved? ==>
              (v.renderer.value.ready <==>
                 w.renderer.value.ready || !Renderers.SetHrirs(w.renderer.value, Resolved(v.hrirLoad.value)).Threw())
  {
    if w.renderer.None? || w.hrirLoad.None? then w
    else
      var before := w.hrirLoad.value;
      var after := BufferLists.Apply(before, e);
      var r := w.renderer.value;
      if before.promise.Pending? && after.promise.Resolved? then
        Renderers.CorrectedAgreesWhenApplied(r, Resolved(after));
        var loaded := Renderers.OnHrirsLoaded(r, Resolved(after));
        w.(hrirLoad := Some(after), renderer := Some(loaded.state))
      else w.(hrirLoad := Some(after))
  }

  /** The same with the loader's failure path corrected to reject first,
      and the corrected handler that installs the mode's wiring. */
  function HrirEventCorrected(w: Wrapper, e: BufferLists.Event): (v: Wrapper)
    requires Good(w)
    ensures Good(v)
    ensures w.renderer.None? || w.hrirLoad.None? ==> v == w
    ensures w.renderer.Some? && w.hrirLoad.Some? ==>
              && v.hrirLoad == Some(BufferLists.ApplyCorrected(w.hrirLoad.value, e))
              && v.renderer.Some? && v.renderer.value.mode == w.renderer.value.mode
              && v.(renderer := w.renderer, hrirLoad := w.hrirLoad) == w
    ensures w.renderer.Some? && w.hrirLoad.Some? && !w.renderer.value.ready ==>
              (v.renderer.value.ready ==> v.hrirLoad.value.promise.Resolved?)
  {
    if w.renderer.None? || w.hrirLoad.None? then w
    else
      var before := w.hrirLoad.value;
      var after := BufferLists.ApplyCorrected(before, e);
      var r := w.renderer.value;
      if before.promise.Pending? && after.promise.Resolved? then
        var loaded := Renderers.OnHrirsLoadedCorrected(r, Resolved(after));
        w.(hrirLoad := Some(after), renderer := Some(loaded.state))
      else w.(hrirLoad := Some(after))
  }

  /** On a success, a response or an abort both handlers agree. */
  lemma HrirEventAgrees(w: Wrapper, e: BufferLists.Event)
    requires Good(w) && (e.Decoded? || e.HttpLoaded? || e.Abort?)
    ensures HrirEvent(w, e) == HrirEventCorrected(w, e)
  {
    if w.renderer.Some? && w.hrirLoad.Some? {
      BufferLists.CorrectedAgreesOnSuccess(w.hrirLoad.value, e);
      var after := BufferLists.Apply(w.hrirLoad.value, e);
      if w.hrirLoad.value.promise.Pending? && after.promise.Resolved? {
        Renderers.CorrectedAgreesWhenApplied(w.renderer.value, Resolved(after));
      }
    }
  }

  /** As written, a failed decode that is the last outstanding report still
      resolves the HRIR load, with a null entry, and the renderer becomes
      ready unless the assignment throws; the corrected loader rejects on the
      same report and the renderer stays unready. */
  lemma LastHrirFailureResolves(w: Wrapper, id: nat)
    requires Good(w) && w.renderer.Some? && w.hrirLoad.Some? && !w.renderer.value.ready
    requires var l := w.hrirLoad.value; !l.aborted && !l.hasSettled && l.promise.Pending? && l.remaining == 1
    ensures var v := HrirEvent(w, BufferLists.DecodeFailed(id));
            && v.hrirLoad.value.promise.Resolved?
            && v.hrirLoad.value.promise.buffers[id] == None
            && (v.renderer.value.ready <==> !Renderers.SetHrirs(w.renderer.value, Resolved(v.hrirLoad.value)).Threw())
    ensures var v := HrirEventCorrected(w, BufferLists.DecodeFailed(id));
            v.hrirLoad.value.promise.Rejected? && !v.renderer.value.ready
  {
  }

  // ---- lifecycle properties -----------------------------------------------------------

  /** After dispose every asserting member throws Disposed, including the
      rotations, and a second dispose changes nothing. */
  lemma DisposedRejectsEverything(w: Wrapper, m: Math, q: Quaternion, volume: real, buffer: Option<AudioBuffer>,
                                  urls: UrlsArg, progress: Option<nat>, from: real, nowMs: real, seconds: real)
    requires Good(w) && w.disposed && m.sqrt(0.0) == 0.0
    ensures Gain(w) == Throws(Disposed) && Output(w) == Throws(Disposed)
    ensures SetVolume(w, m, volume) == Fail(w, Disposed)
    ensures StartLoad(w, urls, progress) == Fail(w, Disposed)
    ensures LoadFromAudioBuffer(w, m, buffer) == Fail(w, Disposed)
    ensures Play(w, from, nowMs) == Fail(w, Disposed) && Resume(w, nowMs) == Fail(w, Disposed)
    ensures Prepare(w, seconds) == Fail(w, Disposed) && Stop(w) == Fail(w, Disposed)
    ensures RotateWithQuaternion(w, m, q) == Fail(w, Disposed)
    ensures RotateWithAzimuthElevation(w, m, 0.0, 0.0) == Fail(w, Disposed)
    ensures Dispose(w) == Ok(w)
  {
  }

  /** Before initialize() the asserting members throw NotInitialized while
      the rotations and notify quietly do nothing. */
  lemma FreshWrapperGuards(order: int, channelMap: Option<FoaRouter.MapArg>, m: Math, q: Quaternion,
                           volume: real, buffer: Option<AudioBuffer>, urls: UrlsArg, from: real, nowMs: real)
    requires m.sqrt(0.0) == 0.0
    ensures var w := Create(order, channelMap);
            && Gain(w) == Throws(NotInitialized) && Output(w) == Throws(NotInitialized)
            && SetVolume(w, m, volume) == Fail(w, NotInitialized)
            && StartLoad(w, urls, None) == Fail(w, NotInitialized)
            && LoadFromAudioBuffer(w, m, buffer) == Fail(w, NotInitialized)
            && Play(w, from, nowMs) == Fail(w, NotInitialized) && Stop(w) == Fail(w, NotInitialized)
            && RotateWithQuaternion(w, m, q) == Ok(w) && Notify(w, m, Some(q)) == Ok(w)
  {
  }

  /** Once a source is bound, the buffer-mode getters and controls throw,
      whatever else holds. */
  lemma StreamingLocksBufferControls(w: Wrapper, from: real, nowMs: real, seconds: real)
    requires Good(w) && w.boundSource.Some? && InitializedGuard(w).None?
    ensures ElapsedTimeInSeconds(w) == Throws(BufferModeOnly) && DurationInSeconds(w) == Throws(BufferModeOnly)
    ensures SampleRate(w) == Throws(BufferModeOnly) && TotalSamples(w) == Throws(BufferModeOnly)
    ensures Stop(w) == Fail(w, BufferModeOnly)
    ensures BufferLoadedGuard(w).None? ==>
              && Play(w, from, nowMs) == Fail(w, BufferModeOnly) && Resume(w, nowMs) == Fail(w, BufferModeOnly)
              && Prepare(w, seconds) == Fail(w, BufferModeOnly)
  {
  }

  /** bindSource has no guard: on a wrapper that was never initialized it
      records the node, then throws, and the wrapper is in streaming mode. */
  lemma BindBeforeInitialize(order: int, channelMap: Option<FoaRouter.MapArg>, id: nat)
    ensures var w := Create(order, channelMap);
            var s := BindSource(w, Some(id));
            && s == Fail(w.(boundSource := Some(id)), TypeError)
            && ElapsedTimeInSeconds(s.state) == Throws(BufferModeOnly)
  {
  }

  /** loadFromAudioBuffer forgets the bound source without disconnecting
      it: the stream stays connected to the input gain, and a later
      bindSource of another node no longer reaches it. */
  lemma LoadFromAudioBufferKeepsStream(w: Wrapper, m: Math, b: AudioBuffer, id: nat, next: nat)
    requires Good(w) && m.sqrt(0.0) == 0.0 && InitializedGuard(w).None?
    requires NumberOfChannels(b) == ExpectedChannels(w.order)
    requires w.boundSource == Some(id) && Edge(StreamSource(id), 0, InputGain, 0) in w.graph
    ensures var loaded := LoadFromAudioBuffer(w, m, Some(b)).state;
            && loaded.boundSource.None?
            && Edge(StreamSource(id), 0, InputGain, 0) in loaded.graph
            && (next != id ==> Edge(StreamSource(id), 0, InputGain, 0) in BindSource(loaded, Some(next)).state.graph)
  {
    var loaded := LoadFromAudioBuffer(w, m, Some(b)).state;
    assert Edge(StreamSource(id), 0, InputGain, 0) in loaded.graph;
  }

  /** The order setter after initialize() retargets validation without
      rebuilding the renderer: a first-order wrapper switched to order 3
      rejects the 4-channel buffer it accepted before. */
  lemma OrderChangeRetargetsValidation(w: Wrapper, m: Math, b: AudioBuffer)
    requires Good(w) && m.sqrt(0.0) == 0.0 && InitializedGuard(w).None?
    requires w.order == 1 && NumberOfChannels(b) == 4
    ensures LoadFromAudioBuffer(w, m, Some(b)).thrown != Some(ChannelMismatch)
    ensures var v := SetOrder(w, 3);
            LoadFromAudioBuffer(v, m, Some(b)) == Fail(v, ChannelMismatch) && v.renderer == w.renderer
  {
    assert ExpectedChannels(1) == 4 && ExpectedChannels(3) == 16;
  }

  /** A load whose promise settles after dispose still stores the merged
      buffer, and only then throws from finalizeLoading. */
  lemma LateLoadAfterDispose(w: Wrapper, m: Math, engine: ChannelLimit)
    requires Good(w) && m.sqrt(0.0) == 0.0 && w.disposed
    requires w.currentLoad.Some? && w.currentLoad.value.promise.Resolved?
    requires var chunks := Chunks(Resolved(w.currentLoad.value));
             chunks.Some? && MergeByChannel(chunks.value, engine).Value?
    ensures var chunks := Chunks(Resolved(w.currentLoad.value));
            var s := FinishLoad(w, m, engine);
            && s.thrown == Some(Disposed)
            && s.state.contentBuffer == Some(MergeByChannel(chunks.value, engine).value)
  {
  }

  /** prepare(t) with t < 0, then resume(): start() throws RangeError and the
      new source never starts. From then on stop() and play() throw
      InvalidStateError, and dispose() throws it too, leaving a disposed
      wrapper that still holds its renderer, input gain and content. */
  lemma NegativeSeekStrandsSource(w: Wrapper, seconds: real, nowMs: real, later: real)
    requires Good(w) && BufferModeGuard(w).None? && Stoppable(w) && seconds < 0.0
    ensures var stuck := Resume(Prepare(w, seconds).state, nowMs).state;
            && stuck.currentSource.Some? && !Stoppable(stuck)
            && Stop(stuck) == Fail(stuck, InvalidStateError)
            && Play(stuck, 0.0, later) == Fail(stuck, InvalidStateError)
            && Dispose(stuck).thrown == Some(InvalidStateError)
            && Dispose(stuck).state.disposed
            && Dispose(stuck).state.renderer == w.renderer
            && Dispose(stuck).state.hasInputGain
            && Dispose(stuck).state.contentBuffer == w.contentBuffer
  {
    var prepared := Prepare(w, seconds).state;
    PreparedIsPlayable(w, seconds);
    var from := prepared.elapsedMs / 1000.0 / prepared.duration;
    NegativeOffset(seconds, w.duration);
    assert from * prepared.duration < 0.0;
  }

  /** A negative position in seconds gives a negative start offset. */
  lemma NegativeOffset(seconds: real, duration: real)
    requires seconds < 0.0 && duration > 0.0
    ensures seconds * 1000.0 / 1000.0 / duration * duration < 0.0
  {
    assert seconds * 1000.0 / 1000.0 == seconds;
    assert seconds / duration * duration == seconds;
  }

  /** A position of t >= 0 seconds gives a non-negative start offset. */
  lemma NonNegativeOffset(seconds: real, duration: real)
    requires 0.0 <= seconds && duration > 0.0
    ensures seconds * 1000.0 / 1000.0 / duration * duration >= 0.0
  {
    assert seconds * 1000.0 / 1000.0 == seconds;
    assert seconds / duration * duration == seconds;
  }

  /** dispose() while initialize() awaits the audio context: the
      continuation creates an input gain, wires the renderer between it and
      the destination and starts the HRIR load on the disposed wrapper;
      only the volume setter's guard then throws Disposed. */
  lemma LateInitializeAfterDispose(w: Wrapper, m: Math, r: Renderers.Renderer)
    requires Good(w) && !w.disposed && !Initialized(w)
    requires Renderers.Valid(r) && Renderers.ModeApplied(r) && r.mode == Renderers.AmbisonicMode
    requires r.order == w.order && !r.ready
    ensures var ctx := ContextArrived(Dispose(w).state, true).state;
            var s := RendererArrived(ctx, m, Value(r));
            && s.thrown == Some(Disposed) && s.state.disposed && Initialized(s.state)
            && s.state.renderer.value.order == w.order
            && s.state.hrirLoad.Some? && s.state.hrirLoad.value.promise.Pending?
            && Edge(InputGain, 0, RendererInput, 0) in s.state.graph
            && Edge(RendererOutput, 0, Destination, 0) in s.state.graph
  {
  }

  /** dispose() while initialize() awaits the renderer: the continuation
      keeps the renderer and starts its HRIR load, then throws TypeError on
      the dropped input gain, leaving the renderer connected to nothing. */
  lemma DisposeDuringRendererAwait(w: Wrapper, m: Math, r: Renderers.Renderer)
    requires Good(w) && !w.disposed && !Initialized(w) && Stoppable(w)
    requires Renderers.Valid(r) && Renderers.ModeApplied(r) && r.mode == Renderers.AmbisonicMode
    requires r.order == w.order && !r.ready
    ensures var d := Dispose(ContextArrived(w, true).state).state;
            var s := RendererArrived(d, m, Value(r));
            && s.thrown == Some(TypeError) && s.state.disposed && !s.state.hasInputGain
            && s.state.renderer == Some(r)
            && s.state.hrirLoad == Some(Renderers.StartHrirLoad(r)) && s.state.hrirLoad.value.promise.Pending?
            && forall e: Edge :: e in s.state.graph ==> e.src != RendererOutput && e.src != InputGain
  {
    Renderers.HrirsFillEveryPair(r);
  }
}

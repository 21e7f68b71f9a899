/** FOARenderer and HOARenderer: the façade that chains router (first order
    only), rotator and convolver, keeps a bypass path from input to output,
    switches between the rendering modes and gates rotation and channel
    remapping until its HRIRs have loaded. Both renderers share one model;
    the stage says which rotator (and whether a router) is in the chain. */
module Renderers {
  import opened Outcomes
  import opened AudioGraph
  import opened AudioBuffers
  import opened Acn
  import opened Matrices
  import opened Convolvers
  import BufferLists
  import FoaRouter
  import FoaRotator
  import HoaRotator

  // ---- rendering modes -----------------------------------------------------

  datatype Mode = AmbisonicMode | BypassMode | OffMode

  function ModeName(m: Mode): string
  {
    match m
    case AmbisonicMode => "ambisonic"
    case BypassMode => "bypass"
    case OffMode => "off"
  }

  /** The mode a string names, if any. */
  function ParseMode(s: string): (m: Option<Mode>)
    ensures m.Some? ==> ModeName(m.value) == s
    ensures m.None? ==> s != "ambisonic" && s != "bypass" && s != "off"
  {
    if s == "ambisonic" then Some(AmbisonicMode)
    else if s == "bypass" then Some(BypassMode)
    else if s == "off" then Some(OffMode)
    else None
  }

  lemma ParseModeName(m: Mode)
    ensures ParseMode(ModeName(m)) == Some(m)
  {
  }

  // ---- configuration ---------------------------------------------------------

  /** The hrirPathList option: an array of URLs, or any other value. */
  datatype PathsArg = PathArray(paths: seq<string>) | NotAPathArray

  /** The config object; None stands for a missing or falsy option (an
      ambisonicOrder of 0 is falsy and so means "missing"). */
  datatype Config = Config(
    channelMap: Option<FoaRouter.MapArg>,
    hrirPathList: Option<PathsArg>,
    renderingMode: Option<string>,
    ambisonicOrder: Option<int>)

  /** A channel map option is accepted when missing or a 4-element array. */
  predicate MapAccepted(arg: Option<FoaRouter.MapArg>) {
    arg.None? || (arg.value.ArrayArg? && |arg.value.entries| == 4)
  }

  function MapOf(arg: Option<FoaRouter.MapArg>): seq<int>
    requires MapAccepted(arg)
  {
    if arg.None? then FoaRouter.DefaultMap else arg.value.entries
  }

  /** A path list option is accepted when missing or an array of n URLs. */
  predicate PathsAccepted(arg: Option<PathsArg>, n: nat) {
    arg.None? || (arg.value.PathArray? && |arg.value.paths| == n)
  }

  function PathsOf(arg: Option<PathsArg>): Option<seq<string>>
  {
    if arg.Some? && arg.value.PathArray? then Some(arg.value.paths) else None
  }

  /** An unknown mode is logged and the default, ambisonic, kept. */
  function ConfiguredMode(config: Config): (m: Mode)
    ensures config.renderingMode.Some? && ParseMode(config.renderingMode.value).Some? ==>
              m == ParseMode(config.renderingMode.value).value
    ensures config.renderingMode.None? || ParseMode(config.renderingMode.value).None? ==> m == AmbisonicMode
  {
    if config.renderingMode.Some? && ParseMode(config.renderingMode.value).Some?
    then ParseMode(config.renderingMode.value).value
    else AmbisonicMode
  }

  /** Orders 2 and 3 are supported; anything else falls back to 3. */
  function HoaOrderOf(config: Config): (order: nat)
    ensures order == 2 <==> config.ambisonicOrder == Some(2)
    ensures order == 2 || order == 3
  {
    if config.ambisonicOrder == Some(2) then 2 else 3
  }

  // ---- the renderer ----------------------------------------------------------

  /** The part of the chain that differs between the two renderers. */
  datatype Stage =
    | FirstOrder(channelMap: seq<int>, router: FoaRouter.Router, foa: FoaRotator.Rotator)
    | HigherOrder(hoa: HoaRotator.Rotator)

  /** mode is _config.renderingMode; graph holds the façade's connections,
      the convolver's, and for higher orders the rotator's gain-matrix
      wiring. The first-order rotator keeps its matrix in the stage and
      adds no edges; the first-order router keeps its own in the stage. */
  datatype Renderer = Renderer(
    order: nat,
    stage: Stage,
    mode: Mode,
    pathList: Option<seq<string>>,
    ready: bool,
    convolver: Convolver,
    graph: Graph)

  /** What every constructed renderer satisfies. */
  predicate Valid(r: Renderer) {
    && 1 <= r.order <= 3
    && (r.stage.FirstOrder? <==> r.order == 1)
    && (r.stage.HigherOrder? ==> HoaRotator.Valid(r.stage.hoa) && r.stage.hoa.order == r.order)
    && (r.pathList.Some? ==> |r.pathList.value| == PairCount(r.order))
  }

  const BypassFeed := Edge(RendererInput, 0, Bypass, 0)
  /** The connection bypass mode adds. */
  const BypassEdge := Edge(Bypass, 0, RendererOutput, 0)
  const ConvolverFeed := Edge(RotatorMerger, 0, ConvolverSplitter, 0)
  const OutputFeed := Edge(ConvolverOutput, 0, RendererOutput, 0)

  /** The first-order façade: input to router and bypass, router to
      rotator to convolver to output. */
  const FoaChain: set<Edge> := {
    Edge(RendererInput, 0, RouterSplitter, 0), BypassFeed,
    Edge(RouterMerger, 0, RotatorSplitter, 0), ConvolverFeed, OutputFeed
  }

  /** The higher-order façade: input to rotator and bypass, rotator to
      convolver to output. */
  const HoaChain: set<Edge> := {
    Edge(RendererInput, 0, RotatorSplitter, 0), BypassFeed, ConvolverFeed, OutputFeed
  }

  /** Every connection of the renderer, the router's included. */
  function Connections(r: Renderer): (g: Graph)
    ensures r.graph <= g
    ensures r.stage.FirstOrder? ==> r.stage.router.graph <= g
  {
    if r.stage.FirstOrder? then r.graph + r.stage.router.graph else r.graph
  }

  /** The wiring of the current mode is in place: the convolver feeds the
      output exactly in ambisonic mode, the bypass exactly in bypass mode,
      and neither the binaural merger nor the bypass has other outputs. */
  predicate ModeApplied(r: Renderer) {
    && (r.convolver.active <==> r.mode == AmbisonicMode)
    && (OutputEdge in r.graph <==> r.mode == AmbisonicMode)
    && (BypassEdge in r.graph <==> r.mode == BypassMode)
    && NoStrayOutputs(r)
  }

  /** The binaural merger feeds nothing but the output, the bypass nothing
      but the renderer's output. */
  predicate NoStrayOutputs(r: Renderer) {
    && (forall e: Edge :: e in r.graph && e.src == BinauralMerger ==> e == OutputEdge)
    && (forall e: Edge :: e in r.graph && e.src == Bypass ==> e == BypassEdge)
  }

  /** The first-order constructor: the channel map option must be a
      4-element array and the path list a 2-element array (each otherwise
      throws); an unknown mode falls back to ambisonic. The router then
      wires the map and throws on an entry naming no merger input. The
      convolver starts enabled and the bypass unconnected whatever mode
      was configured. */
  function CreateFoaRenderer(config: Config): (r: Result<Renderer>)
    ensures !MapAccepted(config.channelMap) ==> r == Throws(InvalidChannelMap)
    ensures MapAccepted(config.channelMap) && !PathsAccepted(config.hrirPathList, 2) ==> r == Throws(InvalidHrirList)
    ensures MapAccepted(config.channelMap) && PathsAccepted(config.hrirPathList, 2) ==>
              (r.Throws? <==> !FoaRouter.ValidBetween(MapOf(config.channelMap), 0, 4))
    ensures r.Throws? && MapAccepted(config.channelMap) && PathsAccepted(config.hrirPathList, 2) ==> r.error == IndexSizeError
    ensures r.Value? ==> FreshFoa(r.value, config)
  {
    if !MapAccepted(config.channelMap) then Throws(InvalidChannelMap)
    else if !PathsAccepted(config.hrirPathList, 2) then Throws(InvalidHrirList)
    else
      var channelMap := MapOf(config.channelMap);
      var router := FoaRouter.CreateRouter({}, Some(FoaRouter.ArrayArg(channelMap)));
      FoaRouterThrowsOnlyIndexSize(channelMap);
      if router.Threw() then Throws(router.thrown.value)
      else Value(AssembleFoa(config, channelMap, router.state))
  }

  /** The state the first-order constructor leaves: not ready, the
      configured mode recorded, the configured map routed, the convolver
      enabled without HRIRs, and the façade, convolver and output
      connections in place. */
  predicate FreshFoa(r: Renderer, config: Config)
    requires MapAccepted(config.channelMap)
  {
    && Valid(r) && r.order == 1 && !r.ready
    && r.mode == ConfiguredMode(config)
    && r.pathList == PathsOf(config.hrirPathList)
    && r.stage.channelMap == MapOf(config.channelMap)
    && r.stage.router.channelMap == Some(MapOf(config.channelMap))
    && r.convolver.active && !r.convolver.bufferLoaded
    && r.graph == FoaChain + FoaStaticEdges + {OutputEdge}
  }

  /** A fresh first-order renderer is wired for the ambisonic mode, and
      neither the binaural merger nor the bypass feeds anything else. */
  lemma FreshFoaWiring(r: Renderer, config: Config)
    requires MapAccepted(config.channelMap) && FreshFoa(r, config)
    ensures NoStrayOutputs(r) && OutputEdge in r.graph && BypassEdge !in r.graph && r.convolver.active
  {
    FoaStaticSources();
    FacadeSources();
  }

  /** The façade connections leave neither the bypass nor the binaural
      merger. */
  lemma FacadeSources()
    ensures forall e :: e in FoaChain ==> e.src != Bypass && e.src != BinauralMerger
    ensures forall e :: e in HoaChain ==> e.src != Bypass && e.src != BinauralMerger
  {
  }

  function AssembleFoa(config: Config, channelMap: seq<int>, router: FoaRouter.Router): (r: Renderer)
    requires MapAccepted(config.channelMap) && PathsAccepted(config.hrirPathList, 2)
    requires channelMap == MapOf(config.channelMap) && router.channelMap == Some(channelMap)
    ensures FreshFoa(r, config)
  {
    var w := CreateFoaConvolver(None).state;
    Renderer(1, FirstOrder(channelMap, router, FoaRotator.CreateRotator()),
             ConfiguredMode(config), PathsOf(config.hrirPathList), false,
             w.convolver, w.graph + FoaChain)
  }

  /** The router's constructor throws exactly when the map has an entry
      naming no merger input, and then IndexSizeError. */
  lemma FoaRouterThrowsOnlyIndexSize(m: seq<int>)
    ensures var s := FoaRouter.CreateRouter({}, Some(FoaRouter.ArrayArg(m)));
            && (s.Threw() <==> !FoaRouter.ValidBetween(m, 0, 4))
            && (s.Threw() ==> s.thrown == Some(IndexSizeError))
  {
    if !FoaRouter.ValidBetween(m, 0, 4) {
      var k :| 0 <= k < 4 && !FoaRouter.Valid(m, k);
      var first := FirstInvalid(m, k);
      assert FoaRouter.FirstInvalidFrom(m, 0, first);
    }
  }

  /** The least channel whose target does not exist. */
  function FirstInvalid(m: seq<int>, k: nat): (first: nat)
    requires k < 4 && !FoaRouter.Valid(m, k)
    ensures first <= k && !FoaRouter.Valid(m, first) && FoaRouter.ValidBetween(m, 0, first)
  {
    if k == 0 || FoaRouter.ValidBetween(m, 0, k) then k
    else
      var j :| 0 <= j < k && !FoaRouter.Valid(m, j);
      FirstInvalid(m, j)
  }

  /** The higher-order constructor. The order falls back to 3 unless 2 is
      asked for; the path list must hold one URL per stereo pair; an unknown
      mode falls back to ambisonic. The rotator's and convolver's
      connections are the graphs their builders return. */
  function CreateHoaRenderer(config: Config, rotatorGraph: Graph, convolverGraph: Graph, sqrt: real -> real): (r: Result<Renderer>)
    requires sqrt(0.0) == 0.0
    ensures r.Throws? <==> !PathsAccepted(config.hrirPathList, PairCount(HoaOrderOf(config)))
    ensures r.Throws? ==> r.error == InvalidHrirList
    ensures r.Value? ==>
              && Valid(r.value) && r.value.order == HoaOrderOf(config) && !r.value.ready
              && r.value.mode == ConfiguredMode(config)
              && r.value.pathList == PathsOf(config.hrirPathList)
              && r.value.stage.hoa.bands[0] == Shim3
              && r.value.convolver.active && !r.value.convolver.bufferLoaded
              && (forall e: Edge :: e in r.value.graph <==> e in HoaChain || e in rotatorGraph || e in convolverGraph || e == OutputEdge)
  {
    var order := HoaOrderOf(config);
    if !PathsAccepted(config.hrirPathList, PairCount(order)) then Throws(InvalidHrirList)
    else
      var rotator := HoaRotator.CreateRotator(order, sqrt);
      var w := CreateHoaConvolver(order, convolverGraph, None);
      Value(Renderer(order, HigherOrder(rotator.value), ConfiguredMode(config), PathsOf(config.hrirPathList),
                     false, w.state.convolver, w.state.graph + rotatorGraph + HoaChain))
  }

  /** The higher-order constructor with the component graphs built: every
      connection is a façade connection, a rotator connection, a per-channel
      convolver connection, a bus connection or the convolver's output. */
  method BuildHoaRenderer(config: Config, sqrt: real -> real) returns (r: Result<Renderer>)
    requires sqrt(0.0) == 0.0
    ensures r.Throws? <==> !PathsAccepted(config.hrirPathList, PairCount(HoaOrderOf(config)))
    ensures r.Value? ==>
              forall e: Edge :: e in r.value.graph <==>
                || e in HoaChain
                || HoaRotator.RotatorEdge(HoaOrderOf(config), e)
                || WiredBefore(ChannelCount(HoaOrderOf(config)), e) || e in BusEdges
                || e == OutputEdge
    ensures r.Value? ==> && Valid(r.value) && r.value.order == HoaOrderOf(config) && !r.value.ready
                         && r.value.mode == ConfiguredMode(config)
                         && r.value.convolver.active && !r.value.convolver.bufferLoaded
                         && NoStrayOutputs(r.value) && OutputEdge in r.value.graph && BypassEdge !in r.value.graph
  {
    var order := HoaOrderOf(config);
    var rotatorGraph := HoaRotator.BuildRotatorGraph(order);
    var convolverGraph := BuildHoaConvolverGraph(order);
    r := CreateHoaRenderer(config, rotatorGraph, convolverGraph, sqrt);
    if r.Value? {
      FacadeSources();
      forall e: Edge | e in r.value.graph
        ensures (e.src != Bypass && e.src != BinauralMerger) || e == OutputEdge
      {
        HoaComponentSources(order, e);
      }
    }
  }

  /** No rotator, per-channel or bus connection leaves the bypass or the
      binaural merger. */
  lemma HoaComponentSources(order: nat, e: Edge)
    ensures HoaRotator.RotatorEdge(order, e) || WiredBefore(ChannelCount(order), e) || e in BusEdges ==>
              e.src != Bypass && e.src != BinauralMerger
  {
  }

  /** The default HRIR sets hold 2, 5 and 8 files for orders 1, 2 and 3. */
  function DefaultHrirCount(order: nat): nat
  {
    if order == 1 then 2 else if order == 2 then 5 else 8
  }

  /** Number of load tasks initialize() starts: one per configured URL, or
      one per default HRIR. */
  function HrirTaskCount(r: Renderer): nat
  {
    if r.pathList.Some? then |r.pathList.value| else DefaultHrirCount(r.order)
  }

  /** initialize(): URLs are fetched, the built-in HRIRs are base64. */
  function StartHrirLoad(r: Renderer): (l: BufferLists.Loader)
    ensures l.taskCount == HrirTaskCount(r) && l.promise.Pending?
    ensures r.pathList.Some? ==> forall i: nat :: i in l.openRequests <==> i < HrirTaskCount(r)
    ensures r.pathList.None? ==> l.openRequests == {}
  {
    BufferLists.Load(HrirTaskCount(r), if r.pathList.Some? then BufferLists.Url else BufferLists.Base64)
  }

  /** Whichever source the HRIRs come from, there is one per convolver. */
  lemma HrirsFillEveryPair(r: Renderer)
    requires Valid(r)
    ensures HrirTaskCount(r) == PairCount(r.order)
  {
  }

  // ---- mode switching ----------------------------------------------------------

  /** The wiring of one mode (the body of setRenderingMode's switch). */
  function ApplyMode(r: Renderer, m: Mode): (t: Renderer)
    ensures t.mode == m
    ensures NoStrayOutputs(r) ==> ModeApplied(t)
    ensures t.stage == r.stage && t.ready == r.ready && t.order == r.order && t.pathList == r.pathList
    ensures t.convolver.hrirs == r.convolver.hrirs && t.convolver.bufferLoaded == r.convolver.bufferLoaded
    ensures forall e: Edge :: e.src != Bypass && e.src != BinauralMerger ==> (e in t.graph <==> e in r.graph)
  {
    match m
    case AmbisonicMode =>
      var w := Enable(Wired(r.convolver, r.graph));
      r.(convolver := w.convolver, graph := DisconnectAll(w.graph, Bypass), mode := m)
    case BypassMode =>
      var w := Disable(Wired(r.convolver, r.graph));
      r.(convolver := w.convolver, graph := Connect(w.graph, Bypass, 0, RendererOutput, 0), mode := m)
    case OffMode =>
      var w := Disable(Wired(r.convolver, r.graph));
      r.(convolver := w.convolver, graph := DisconnectAll(w.graph, Bypass), mode := m)
  }

  /** setRenderingMode: the current mode and unknown strings change nothing;
      any other mode installs its wiring. */
  function SetRenderingMode(r: Renderer, s: string): (t: Renderer)
    ensures ParseMode(s).None? || ParseMode(s) == Some(r.mode) ==> t == r
    ensures ParseMode(s).Some? ==> t.mode == ParseMode(s).value
    ensures ParseMode(s).Some? && ParseMode(s) != Some(r.mode) && NoStrayOutputs(r) ==> ModeApplied(t)
    ensures t.stage == r.stage && t.ready == r.ready && t.order == r.order && t.pathList == r.pathList
    ensures Valid(r) ==> Valid(t)
    ensures t.convolver.hrirs == r.convolver.hrirs && t.convolver.bufferLoaded == r.convolver.bufferLoaded
    ensures forall e: Edge :: e.src != Bypass && e.src != BinauralMerger ==> (e in t.graph <==> e in r.graph)
  {
    var requested := ParseMode(s);
    if requested.None? || requested == Some(r.mode) then r
    else ApplyMode(r, requested.value)
  }

  /** Switching modes keeps the wiring consistent with the mode, and asking
      for the same mode twice is asking once. */
  lemma SetRenderingModeKeepsModeApplied(r: Renderer, s: string)
    requires ModeApplied(r)
    ensures ModeApplied(SetRenderingMode(r, s))
    ensures SetRenderingMode(SetRenderingMode(r, s), s) == SetRenderingMode(r, s)
  {
  }

  // ---- HRIRs loaded --------------------------------------------------------------

  /** The HRIRs go to the convolver of the stage. */
  function SetHrirs(r: Renderer, list: seq<Option<AudioBuffer>>): (s: Step<Convolver>)
  {
    if r.stage.FirstOrder? then SetFoaHrirs(r.convolver, list) else SetHoaHrirs(r.convolver, list)
  }

  /** The load promise's fulfilment handler as written: store the HRIRs,
      call setRenderingMode with the configured mode, become ready. Since
      the configured mode is the current one, that call changes nothing:
      the wiring the constructor left (convolver on, bypass off) stays,
      whatever mode was configured. A throwing HRIR assignment ends the
      handler before the renderer becomes ready. */
  function OnHrirsLoaded(r: Renderer, list: seq<Option<AudioBuffer>>): (s: Step<Renderer>)
    ensures s.thrown == SetHrirs(r, list).thrown
    ensures s.state.convolver.hrirs == SetHrirs(r, list).state.hrirs
    ensures s.state.ready <==> r.ready || !s.Threw()
    ensures s.state.graph == r.graph && s.state.mode == r.mode
    ensures s.state.convolver.active == r.convolver.active
  {
    var c := SetHrirs(r, list);
    if c.Threw() then Step(r.(convolver := c.state), c.thrown)
    else
      ParseModeName(r.mode);
      Ok(SetRenderingMode(r.(convolver := c.state), ModeName(r.mode)).(ready := true))
  }

  /** On a renderer as constructed (one buffer slot per pair, nothing set
      yet) the handler makes it ready exactly when every HRIR that reaches a
      convolver is accepted by the buffer setter and, at higher orders, the
      list fits the convolvers; an HRIR of, say, three channels throws
      NotSupportedError before the renderer becomes ready. */
  lemma ReadyIffHrirsAccepted(r: Renderer, list: seq<Option<AudioBuffer>>)
    requires Valid(r) && !r.ready && !r.convolver.bufferLoaded && |r.convolver.hrirs| == PairCount(r.order)
    ensures OnHrirsLoaded(r, list).state.ready <==>
              && (forall i :: 0 <= i < |list| && i < PairCount(r.order) ==> Accepted(list[i]))
              && (r.stage.FirstOrder? || |list| <= PairCount(r.order))
    ensures OnHrirsLoaded(r, list).thrown == Some(NotSupportedError) <==>
              exists i :: 0 <= i < |list| && i < PairCount(r.order) && !Accepted(list[i])
  {
    if r.stage.FirstOrder? {
      assert PairCount(r.order) == 2;
      forall i | 0 <= i < 2 ensures EntryOrNone(list, i) == (if i < |list| then list[i] else None) {}
    }
  }

  /** A first-order renderer configured for bypass still convolves once its
      HRIRs are in: the mode says bypass, the wiring says ambisonic. It
      becomes ready unless the HRIR assignment throws, and the wiring is
      the same either way. */
  lemma ConfiguredBypassNeverApplied(list: seq<Option<AudioBuffer>>)
    ensures var created := CreateFoaRenderer(Config(None, None, Some("bypass"), None));
            && created.Value?
            && var s := OnHrirsLoaded(created.value, list);
               && (s.state.ready <==> !s.Threw()) && s.state.mode == BypassMode
               && s.state.convolver.active && OutputEdge in s.state.graph && BypassEdge !in s.state.graph
               && !ModeApplied(s.state)
  {
    var config := Config(None, None, Some("bypass"), None);
    assert ParseMode("bypass") == Some(BypassMode);
    assert FoaRouter.ValidBetween(FoaRouter.DefaultMap, 0, 4) by {
      forall j | 0 <= j < 4 ensures FoaRouter.Valid(FoaRouter.DefaultMap, j) {
        assert FoaRouter.EntryOr0(FoaRouter.DefaultMap, j) == j;
      }
    }
    var created := CreateFoaRenderer(config);
    FreshFoaWiring(created.value, config);
  }

  /** The evident intent: install the configured mode's wiring when the
      HRIRs arrive, so the renderer renders in the mode it reports. */
  function OnHrirsLoadedCorrected(r: Renderer, list: seq<Option<AudioBuffer>>): (s: Step<Renderer>)
    ensures s.thrown == SetHrirs(r, list).thrown
    ensures s.state.convolver.hrirs == SetHrirs(r, list).state.hrirs
    ensures s.state.ready <==> r.ready || !s.Threw()
    ensures s.state.mode == r.mode
    ensures !s.Threw() && NoStrayOutputs(r) ==> ModeApplied(s.state)
    ensures Valid(r) ==> Valid(s.state)
    ensures ModeApplied(r) ==> ModeApplied(s.state)
  {
    var c := SetHrirs(r, list);
    if c.Threw() then Step(r.(convolver := c.state), c.thrown)
    else Ok(ApplyMode(r.(convolver := c.state), r.mode).(ready := true))
  }

  /** Where the wiring already matched the mode (always so for the
      ambisonic default) the correction changes nothing. */
  lemma CorrectedAgreesWhenApplied(r: Renderer, list: seq<Option<AudioBuffer>>)
    requires ModeApplied(r)
    ensures OnHrirsLoadedCorrected(r, list) == OnHrirsLoaded(r, list)
  {
    var c := SetHrirs(r, list);
    if !c.Threw() {
      var base := r.(convolver := c.state);
      var applied := ApplyMode(base, r.mode);
      assert applied.graph == base.graph;
      assert applied.convolver == base.convolver;
    }
  }

  /** A freshly constructed renderer configured for the ambisonic mode has
      its mode's wiring. */
  lemma AmbisonicConstructionIsApplied(config: Config)
    requires ConfiguredMode(config) == AmbisonicMode
    ensures CreateFoaRenderer(config).Value? ==> ModeApplied(CreateFoaRenderer(config).value)
  {
    var created := CreateFoaRenderer(config);
    if created.Value? {
      FreshFoaWiring(created.value, config);
    }
  }

  // ---- gated operations ------------------------------------------------------------

  /** setRotationMatrix3: ignored until ready; then the stage's rotator takes
      the matrix (the higher-order one as its flipped band-1 block). */
  function SetRotationMatrix3(r: Renderer, m: Matrix3, sqrt: real -> real): (t: Renderer)
    requires Valid(r) && sqrt(0.0) == 0.0
    ensures Valid(t) && t.(stage := r.stage) == r
    ensures !r.ready ==> t == r
    ensures r.ready && r.stage.FirstOrder? ==>
              t.stage.FirstOrder? && FoaRotator.GetRotationMatrix3(t.stage.foa) == m
              && t.stage.router == r.stage.router && t.stage.channelMap == r.stage.channelMap
    ensures r.ready && r.stage.HigherOrder? ==> t.stage.HigherOrder? && t.stage.hoa.bands[0] == Flip(m)
  {
    if !r.ready then r
    else
      match r.stage
      case FirstOrder(channelMap, router, foa) => r.(stage := FirstOrder(channelMap, router, FoaRotator.SetRotationMatrix3(foa, m)))
      case HigherOrder(hoa) => r.(stage := HigherOrder(HoaRotator.SetRotationMatrix3(hoa, m, sqrt)))
  }

  /** setRotationMatrix4: the same gate; the rotators read the 3x3 block. */
  function SetRotationMatrix4(r: Renderer, m: Matrix4, sqrt: real -> real): (t: Renderer)
    requires Valid(r) && sqrt(0.0) == 0.0
    ensures Valid(t) && t.(stage := r.stage) == r
    ensures !r.ready ==> t == r
    ensures r.ready ==> t == SetRotationMatrix3(r, Block(m), sqrt)
  {
    if !r.ready then r
    else
      match r.stage
      case FirstOrder(channelMap, router, foa) => r.(stage := FirstOrder(channelMap, router, FoaRotator.SetRotationMatrix4(foa, m)))
      case HigherOrder(hoa) => r.(stage := HigherOrder(HoaRotator.SetRotationMatrix4(hoa, m, sqrt)))
  }

  /** The first-order renderer's setChannelMap: ignored until ready and when
      the map equals the configured one (compared as strings, which for
      integer arrays is element-wise equality); otherwise the map is stored
      and the router rewired, which throws on an entry naming no input. */
  function SetChannelMap(r: Renderer, m: seq<int>): (s: Step<Renderer>)
    requires r.stage.FirstOrder?
    ensures !r.ready || m == r.stage.channelMap ==> s == Ok(r)
    ensures r.ready && m != r.stage.channelMap ==>
              && s.state.stage.FirstOrder? && s.state.stage.channelMap == m
              && s.state.stage.router.channelMap == Some(m)
              && s.state.(stage := r.stage) == r
              && (s.Threw() <==> !FoaRouter.ValidBetween(m, 0, 4))
    ensures r.ready && m != r.stage.channelMap && |m| == 4 && (forall i :: 0 <= i < 4 ==> 0 <= m[i] < 4) ==>
              forall e: Edge :: e.src == RouterSplitter ==>
                (e in s.state.stage.router.graph <==> e.dst == RouterMerger && e.srcOutput < 4 && e.dstInput == m[e.srcOutput])
  {
    if !r.ready || m == r.stage.channelMap then Ok(r)
    else
      var routed := FoaRouter.SetChannelMap(r.stage.router, FoaRouter.ArrayArg(m));
      if |m| == 4 && (forall i :: 0 <= i < 4 ==> 0 <= m[i] < 4) then
        FoaRouter.ValidMapRoutesEachChannel(r.stage.router, m);
        RouterThrowsOnlyOnInvalid(r.stage.router, m);
        Step(r.(stage := r.stage.(channelMap := m, router := routed.state)), routed.thrown)
      else
        RouterThrowsOnlyOnInvalid(r.stage.router, m);
        Step(r.(stage := r.stage.(channelMap := m, router := routed.state)), routed.thrown)
  }

  lemma RouterThrowsOnlyOnInvalid(router: FoaRouter.Router, m: seq<int>)
    ensures FoaRouter.SetChannelMap(router, FoaRouter.ArrayArg(m)).Threw() <==> !FoaRouter.ValidBetween(m, 0, 4)
  {
    if !FoaRouter.ValidBetween(m, 0, 4) {
      var k :| 0 <= k < 4 && !FoaRouter.Valid(m, k);
      assert FoaRouter.FirstInvalidFrom(m, 0, FirstInvalid(m, k));
    }
  }
}

/** FOAConvolver and HOAConvolver: the binaural stage. Ambisonic channels
    are packed two by two into stereo pairs, each pair runs through one
    convolver holding a stereo HRIR, and the results are summed into the
    left ear directly and into the right ear with the sign of their
    channel's left-right symmetry: channels of negative index m (the
    antisymmetric harmonics) reach the right ear through an inverter. */
module Convolvers {
  import opened Outcomes
  import opened AudioGraph
  import opened AudioBuffers
  import opened Acn

  /** The state besides the connections: whether the binaural merger feeds
      the output, whether HRIRs have been set, and the buffer of each pair's
      convolver (None: no buffer). */
  datatype Convolver = Convolver(active: bool, bufferLoaded: bool, hrirs: seq<Option<AudioBuffer>>)

  datatype Wired = Wired(convolver: Convolver, graph: Graph)

  /** The connection enable() makes and disable() removes. */
  const OutputEdge := Edge(BinauralMerger, 0, ConvolverOutput, 0)

  /** Number of stereo pairs (and convolvers) of an order: 2 for first order. */
  function PairCount(order: nat): nat { StereoCount(ChannelCount(order)) }

  /** enable(): connect the binaural merger to the output. */
  function Enable(w: Wired): (r: Wired)
    ensures r.convolver.active && OutputEdge in r.graph
    ensures r.convolver.hrirs == w.convolver.hrirs && r.convolver.bufferLoaded == w.convolver.bufferLoaded
    ensures forall e: Edge :: e != OutputEdge ==> (e in r.graph <==> e in w.graph)
  {
    Wired(w.convolver.(active := true), Connect(w.graph, BinauralMerger, 0, ConvolverOutput, 0))
  }

  /** disable(): disconnect everything leaving the binaural merger. */
  function Disable(w: Wired): (r: Wired)
    ensures !r.convolver.active && Outgoing(r.graph, BinauralMerger) == {}
    ensures r.convolver.hrirs == w.convolver.hrirs && r.convolver.bufferLoaded == w.convolver.bufferLoaded
    ensures forall e: Edge :: e.src != BinauralMerger ==> (e in r.graph <==> e in w.graph)
  {
    Wired(w.convolver.(active := false), DisconnectAll(w.graph, BinauralMerger))
  }

  /** The two undo each other on a convolver whose merger feeds only the
      output: disabling then enabling restores it, and enabling is
      idempotent. */
  lemma EnableDisableRoundTrip(w: Wired)
    requires w.convolver.active && Outgoing(w.graph, BinauralMerger) == {OutputEdge}
    ensures Enable(Disable(w)) == w
    ensures Enable(w) == w
  {
    var r := Enable(Disable(w));
    forall e: Edge
      ensures e in r.graph <==> e in w.graph
    {
      if e.src == BinauralMerger {
        assert e in w.graph ==> e in Outgoing(w.graph, BinauralMerger);
      }
    }
  }

  /** buffer = x where x may be undefined: an entry past the list's end
      arrives as undefined and is stored as no buffer. */
  function EntryOrNone(list: seq<Option<AudioBuffer>>, i: nat): Option<AudioBuffer>
  {
    if i < |list| then list[i] else None
  }

  /** list[i] when the list has an entry i, otherwise the given value. */
  function EntryOr(list: seq<Option<AudioBuffer>>, i: nat, otherwise: Option<AudioBuffer>): Option<AudioBuffer>
  {
    if i < |list| then list[i] else otherwise
  }

  /** The ConvolverNode buffer setter takes null and buffers of one, two or
      four channels; a buffer of any other channel count makes it throw
      NotSupportedError (the ConvolverNode interface of the Web Audio API). */
  predicate Accepted(b: Option<AudioBuffer>) {
    b.None? || NumberOfChannels(b.value) in {1, 2, 4}
  }

  /** FOAConvolver.setHRIRBufferList: only the first call has an effect; it
      assigns entry 0 to the first pair's convolver, then entry 1 to the
      second's, and marks the buffers loaded. A refused buffer throws at its
      assignment, after the earlier one, and leaves the buffers unmarked. */
  function SetFoaHrirs(c: Convolver, list: seq<Option<AudioBuffer>>): (r: Step<Convolver>)
    ensures c.bufferLoaded ==> r == Ok(c)
    ensures r.state.active == c.active
    ensures !c.bufferLoaded ==> |r.state.hrirs| == 2 && (r.state.bufferLoaded <==> !r.Threw())
    ensures !c.bufferLoaded ==> (r.Threw() <==> exists i :: 0 <= i < 2 && !Accepted(EntryOrNone(list, i)))
    ensures r.Threw() ==> r.thrown == Some(NotSupportedError)
    ensures !c.bufferLoaded ==> forall i :: 0 <= i < 2 ==>
              r.state.hrirs[i] == (if forall j :: 0 <= j <= i ==> Accepted(EntryOrNone(list, j))
                                   then EntryOrNone(list, i) else EntryOrNone(c.hrirs, i))
  {
    if c.bufferLoaded then Ok(c)
    else
      var first := EntryOrNone(list, 0);
      var second := EntryOrNone(list, 1);
      if !Accepted(first) then Fail(c.(hrirs := [EntryOrNone(c.hrirs, 0), EntryOrNone(c.hrirs, 1)]), NotSupportedError)
      else if !Accepted(second) then Fail(c.(hrirs := [first, EntryOrNone(c.hrirs, 1)]), NotSupportedError)
      else Ok(c.(hrirs := [first, second], bufferLoaded := true))
  }

  /** Where the assignment loop of HOAConvolver.setHRIRBufferList stops,
      looking from index i on: at the end of the list, at the first index
      with no convolver, or at the first buffer the setter refuses. */
  function LoopStop(list: seq<Option<AudioBuffer>>, count: nat, i: nat): (k: nat)
    requires i <= |list|
    decreases |list| - i
    ensures i <= k <= |list|
    ensures k == i || k <= count
    ensures forall j :: i <= j < k ==> Accepted(list[j])
    ensures k < |list| ==> k >= count || !Accepted(list[k])
  {
    if i == |list| || i >= count || !Accepted(list[i]) then i
    else LoopStop(list, count, i + 1)
  }

  /** HOAConvolver.setHRIRBufferList: only the first call has an effect; it
      assigns list[i] to convolver i for i = 0, 1, ... A list longer than
      the number of convolvers throws a TypeError at the first missing
      convolver, and a refused buffer throws NotSupportedError at its own
      assignment; either way the earlier assignments stay and the buffers
      are left unmarked, so that a later call may retry. */
  function SetHoaHrirs(c: Convolver, list: seq<Option<AudioBuffer>>): (r: Step<Convolver>)
    ensures c.bufferLoaded ==> r == Ok(c)
    ensures |r.state.hrirs| == |c.hrirs| && r.state.active == c.active
    ensures !c.bufferLoaded ==> (r.state.bufferLoaded <==> !r.Threw())
    ensures !c.bufferLoaded ==>
              (r.Threw() <==> |list| > |c.hrirs| || exists i :: 0 <= i < |list| && i < |c.hrirs| && !Accepted(list[i]))
    ensures !c.bufferLoaded ==>
              (r.thrown == Some(NotSupportedError) <==> exists i :: 0 <= i < |list| && i < |c.hrirs| && !Accepted(list[i]))
    ensures !c.bufferLoaded ==>
              (r.thrown == Some(TypeError) <==> |list| > |c.hrirs| && forall i :: 0 <= i < |c.hrirs| ==> Accepted(list[i]))
    ensures !c.bufferLoaded ==> forall i :: 0 <= i < |c.hrirs| ==>
              r.state.hrirs[i] == (if i < |list| && forall j :: 0 <= j <= i ==> Accepted(list[j])
                                   then list[i] else c.hrirs[i])
  {
    if c.bufferLoaded then Ok(c)
    else
      var k := LoopStop(list, |c.hrirs|, 0);
      var stored := seq(|c.hrirs|, i requires 0 <= i < |c.hrirs| => if i < k then list[i] else c.hrirs[i]);
      if k == |list| then Ok(c.(hrirs := stored, bufferLoaded := true))
      else if k >= |c.hrirs| then Fail(c.(hrirs := stored), TypeError)
      else Fail(c.(hrirs := stored), NotSupportedError)
  }

  /** On two pairs the first-order setter is the higher-order loop run over
      entries 0 and 1, read as undefined past the list's end: the same
      stored buffers, the same error. */
  lemma FoaSetterIsHoaLoopOverTwo(c: Convolver, list: seq<Option<AudioBuffer>>)
    requires |c.hrirs| == 2
    ensures SetFoaHrirs(c, list) == SetHoaHrirs(c, [EntryOrNone(list, 0), EntryOrNone(list, 1)])
  {
    var padded := [EntryOrNone(list, 0), EntryOrNone(list, 1)];
    if !c.bufferLoaded {
      var f := SetFoaHrirs(c, list);
      var h := SetHoaHrirs(c, padded);
      assert f.state.hrirs == h.state.hrirs by {
        forall i | 0 <= i < 2 ensures f.state.hrirs[i] == h.state.hrirs[i] {
          assert forall j :: 0 <= j <= i ==> padded[j] == EntryOrNone(list, j);
        }
      }
      assert f.thrown == h.thrown by {
        assert forall i :: 0 <= i < 2 ==> padded[i] == EntryOrNone(list, i);
      }
    }
  }

  /** Once a call has gone through, neither setter changes anything again;
      a call that threw leaves the buffers open to the next one. */
  lemma SetHrirsOnlyOnce(c: Convolver, first: seq<Option<AudioBuffer>>, second: seq<Option<AudioBuffer>>)
    ensures !SetHoaHrirs(c, first).Threw() ==>
              SetHoaHrirs(SetHoaHrirs(c, first).state, second) == Ok(SetHoaHrirs(c, first).state)
    ensures !SetFoaHrirs(c, first).Threw() ==>
              SetFoaHrirs(SetFoaHrirs(c, first).state, second) == Ok(SetFoaHrirs(c, first).state)
    ensures SetHoaHrirs(c, first).Threw() ==> !SetHoaHrirs(c, first).state.bufferLoaded
    ensures SetFoaHrirs(c, first).Threw() ==> !SetFoaHrirs(c, first).state.bufferLoaded
  {
  }

  // ---- first-order wiring --------------------------------------------------
  // splitterWYZX is the ConvolverSplitter, mergerWY/convolverWY/splitterWY
  // are pair 0 (channels W, Y) and mergerZX/convolverZX/splitterZX pair 1
  // (channels Z, X); the summing bus is the ConvolverOutput.

  /** The connections the first-order constructor makes before enable(). */
  const FoaStaticEdges: set<Edge> := {
    Edge(ConvolverSplitter, 0, PairMerger(0), 0),
    Edge(ConvolverSplitter, 1, PairMerger(0), 1),
    Edge(ConvolverSplitter, 2, PairMerger(1), 0),
    Edge(ConvolverSplitter, 3, PairMerger(1), 1),
    Edge(PairMerger(0), 0, PairConvolver(0), 0),
    Edge(PairMerger(1), 0, PairConvolver(1), 0),
    Edge(PairConvolver(0), 0, PairSplitter(0), 0),
    Edge(PairConvolver(1), 0, PairSplitter(1), 0),
    Edge(PairSplitter(0), 0, BinauralMerger, 0),
    Edge(PairSplitter(0), 0, BinauralMerger, 1),
    Edge(PairSplitter(0), 1, BinauralMerger, 0),
    Edge(PairSplitter(0), 1, Inverter, 0),
    Edge(Inverter, 0, BinauralMerger, 1),
    Edge(PairSplitter(1), 0, BinauralMerger, 0),
    Edge(PairSplitter(1), 0, BinauralMerger, 1),
    Edge(PairSplitter(1), 1, BinauralMerger, 0),
    Edge(PairSplitter(1), 1, BinauralMerger, 1)
  }

  /** The fixed first-order connections leave neither the binaural merger
      nor anything outside the convolver. */
  lemma FoaStaticSources()
    ensures forall e :: e in FoaStaticEdges ==> e.src != Bypass && e.src != BinauralMerger
  {
  }

  /** The first-order constructor: build the graph, set the HRIRs when a
      list is given, then enable. A refused HRIR throws out of the
      constructor before enable(). */
  function CreateFoaConvolver(hrirs: Option<seq<Option<AudioBuffer>>>): (r: Step<Wired>)
    ensures |r.state.convolver.hrirs| == 2
    ensures r.Threw() <==> hrirs.Some? && exists i :: 0 <= i < 2 && !Accepted(EntryOrNone(hrirs.value, i))
    ensures r.Threw() ==> r.thrown == Some(NotSupportedError) && !r.state.convolver.active
    ensures !r.Threw() ==> r.state.convolver.active && (r.state.convolver.bufferLoaded <==> hrirs.Some?)
    ensures forall e: Edge :: e in r.state.graph <==> e in FoaStaticEdges || (e == OutputEdge && !r.Threw())
  {
    var empty := Convolver(false, false, [None, None]);
    if hrirs.None? then Ok(Enable(Wired(empty, FoaStaticEdges)))
    else
      var s := SetFoaHrirs(empty, hrirs.value);
      if s.Threw() then Step(Wired(s.state, FoaStaticEdges), s.thrown)
      else Ok(Enable(Wired(s.state, FoaStaticEdges)))
  }

  // ---- higher-order wiring -------------------------------------------------

  /** The bus a channel is summed into: the positive-index bus feeds both
      ears, the negative-index bus feeds the left ear directly and the right
      ear through the inverter. */
  function BusOf(acn: nat): Node { if Degree(acn) >= 0 then PositiveBus else NegativeBus }

  /** The four connections made for channel acn: into its pair's merger
      slot, merger to convolver and convolver to splitter of its pair, and
      from the splitter slot to the bus of its sign. */
  function ChannelEdges(acn: nat): set<Edge>
  {
    {Edge(ConvolverSplitter, acn, PairMerger(acn / 2), acn % 2),
     Edge(PairMerger(acn / 2), 0, PairConvolver(acn / 2), 0),
     Edge(PairConvolver(acn / 2), 0, PairSplitter(acn / 2), 0),
     Edge(PairSplitter(acn / 2), acn % 2, BusOf(acn), 0)}
  }

  /** The five connections after the loops: the buses into the ears. */
  const BusEdges: set<Edge> := {
    Edge(PositiveBus, 0, BinauralMerger, 0),
    Edge(PositiveBus, 0, BinauralMerger, 1),
    Edge(NegativeBus, 0, BinauralMerger, 0),
    Edge(NegativeBus, 0, Inverter, 0),
    Edge(Inverter, 0, BinauralMerger, 1)
  }

  /** The per-channel connections made for channels 0 .. n-1, described
      edge by edge: channel c = 2p + slot goes through pair p. */
  predicate WiredBefore(n: nat, e: Edge) {
    || (e.src == ConvolverSplitter && e.srcOutput < n
        && e.dst == PairMerger(e.srcOutput / 2) && e.dstInput == e.srcOutput % 2)
    || (e.src.PairMerger? && 2 * e.src.pair < n && e == Edge(e.src, 0, PairConvolver(e.src.pair), 0))
    || (e.src.PairConvolver? && 2 * e.src.pair < n && e == Edge(e.src, 0, PairSplitter(e.src.pair), 0))
    || (e.src.PairSplitter? && e.srcOutput < 2 && 2 * e.src.pair + e.srcOutput < n
        && e.dst == BusOf(2 * e.src.pair + e.srcOutput) && e.dstInput == 0)
  }

  lemma WireStep(n: nat, e: Edge)
    ensures WiredBefore(n + 1, e) <==> WiredBefore(n, e) || e in ChannelEdges(n)
  {
  }

  /** The higher-order constructor's loops, before enable(): for l = 0..order
      and m = -l..l, the channel acn = l*l + l + m is wired. */
  method BuildHoaConvolverGraph(order: nat) returns (g: Graph)
    ensures forall e: Edge :: e in g <==> WiredBefore(ChannelCount(order), e) || e in BusEdges
  {
    g := {};
    for l := 0 to order + 1
      invariant forall e :: e in g <==> WiredBefore(l * l, e)
    {
      g := WireBand(g, l);
      assert (l + 1) * (l + 1) == l * l + 2 * l + 1;
    }
    g := g + BusEdges;
  }

  /** The inner loop: m = -l..l. */
  method WireBand(g0: Graph, l: nat) returns (g: Graph)
    requires forall e :: e in g0 <==> WiredBefore(l * l, e)
    ensures forall e: Edge :: e in g <==> WiredBefore(l * l + 2 * l + 1, e)
  {
    g := g0;
    var m: int := -(l as int);
    while m <= l as int
      invariant -(l as int) <= m <= l as int + 1
      invariant forall e :: e in g <==> WiredBefore(l * l + l + m, e)
    {
      var acn := l * l + l + m;
      IndexRoundTrip(l, m);
      assert BusOf(acn) == (if m >= 0 then PositiveBus else NegativeBus);
      var pair := acn / 2;
      g := Connect(g, ConvolverSplitter, acn, PairMerger(pair), acn % 2);
      g := Connect(g, PairMerger(pair), 0, PairConvolver(pair), 0);
      g := Connect(g, PairConvolver(pair), 0, PairSplitter(pair), 0);
      if m >= 0 {
        g := Connect(g, PairSplitter(pair), acn % 2, PositiveBus, 0);
      } else {
        g := Connect(g, PairSplitter(pair), acn % 2, NegativeBus, 0);
      }
      forall e: Edge
        ensures e in g <==> WiredBefore(acn + 1, e)
      {
        WireStep(acn, e);
      }
      m := m + 1;
    }
  }

  /** The higher-order constructor: build the graph, set the HRIRs when a
      list is given, then enable; an error of the setter leaves the
      constructor before enable(). The graph is an argument: it is the one
      BuildHoaConvolverGraph(order) returns. */
  function CreateHoaConvolver(order: nat, graph: Graph, hrirs: Option<seq<Option<AudioBuffer>>>): (r: Step<Wired>)
    ensures |r.state.convolver.hrirs| == PairCount(order)
    ensures hrirs.None? ==> !r.Threw() && !r.state.convolver.bufferLoaded
    ensures hrirs.Some? ==>
              (r.Threw() <==>
                 || |hrirs.value| > PairCount(order)
                 || exists i :: 0 <= i < |hrirs.value| && i < PairCount(order) && !Accepted(hrirs.value[i]))
    ensures r.thrown == Some(NotSupportedError) <==>
              hrirs.Some? && exists i :: 0 <= i < |hrirs.value| && i < PairCount(order) && !Accepted(hrirs.value[i])
    ensures !r.Threw() ==> r.state.convolver.active && OutputEdge in r.state.graph
    ensures forall e: Edge :: e != OutputEdge ==> (e in r.state.graph <==> e in graph)
  {
    var empty := Convolver(false, false, seq(PairCount(order), _ => None));
    if hrirs.None? then Ok(Enable(Wired(empty, graph)))
    else
      var s := SetHoaHrirs(empty, hrirs.value);
      if s.Threw() then Step(Wired(s.state, graph), s.thrown)
      else Ok(Enable(Wired(s.state, graph)))
  }

  /** Channel acn of the order passes through exactly one pair, a pair that
      exists, in the slot acn % 2: every channel gets its own convolver
      input, and the map is onto the pairs' slots. */
  lemma ChannelReachesItsPair(order: nat, acn: nat)
    requires acn < ChannelCount(order)
    ensures acn / 2 < PairCount(order)
    ensures WiredBefore(ChannelCount(order), Edge(ConvolverSplitter, acn, PairMerger(acn / 2), acn % 2))
    ensures forall p: nat, slot: nat ::
              WiredBefore(ChannelCount(order), Edge(ConvolverSplitter, acn, PairMerger(p), slot)) <==> p == acn / 2 && slot == acn % 2
    ensures WiredBefore(ChannelCount(order), Edge(PairSplitter(acn / 2), acn % 2, BusOf(acn), 0))
  {
  }

  /** No connection names a pair beyond the last convolver, and every
      pair's merger, convolver and splitter are chained. */
  lemma PairsWithinCount(order: nat, e: Edge)
    requires WiredBefore(ChannelCount(order), e)
    ensures e.dst.PairMerger? ==> e.dst.pair < PairCount(order)
    ensures e.src.PairMerger? || e.src.PairConvolver? || e.src.PairSplitter? ==> e.src.pair < PairCount(order)
  {
  }

  lemma EveryPairChained(order: nat, p: nat)
    requires p < PairCount(order)
    ensures WiredBefore(ChannelCount(order), Edge(PairMerger(p), 0, PairConvolver(p), 0))
    ensures WiredBefore(ChannelCount(order), Edge(PairConvolver(p), 0, PairSplitter(p), 0))
  {
  }

  /** At first order the fixed wiring of the first-order convolver agrees
      with the per-channel rule of the higher-order one: the same pair and
      slot per channel, the same pair chains, and the right ear hears a
      channel through the inverter exactly when its index m is negative,
      directly otherwise. (The first-order convolver connects the
      splitters straight to the ears instead of through the buses.) */
  lemma FoaAgreesWithHoaAtFirstOrder(e: Edge, acn: nat)
    requires acn < 4
    ensures e.src.ConvolverSplitter? || e.src.PairMerger? || e.src.PairConvolver? ==>
              (e in FoaStaticEdges <==> WiredBefore(ChannelCount(1), e))
    ensures Edge(PairSplitter(acn / 2), acn % 2, BinauralMerger, 0) in FoaStaticEdges
    ensures Edge(PairSplitter(acn / 2), acn % 2, Inverter, 0) in FoaStaticEdges <==> BusOf(acn) == NegativeBus
    ensures Edge(PairSplitter(acn / 2), acn % 2, BinauralMerger, 1) in FoaStaticEdges <==> BusOf(acn) == PositiveBus
  {
    FoaStaticMatchesWiring(e);
    FoaEarsMatchBuses(acn);
  }

  lemma FoaStaticMatchesWiring(e: Edge)
    ensures e.src.ConvolverSplitter? || e.src.PairMerger? || e.src.PairConvolver? ==>
              (e in FoaStaticEdges <==> WiredBefore(ChannelCount(1), e))
  {
    assert ChannelCount(1) == 4;
    if e.src == ConvolverSplitter {
      FoaSplitterEdges(e);
    } else if e.src.PairMerger? {
      FoaPairEdges(e);
    } else if e.src.PairConvolver? {
      FoaPairEdges(e);
    }
  }

  lemma FoaSplitterEdges(e: Edge)
    requires e.src == ConvolverSplitter
    ensures e in FoaStaticEdges <==> WiredBefore(4, e)
  {
    if WiredBefore(4, e) {
      assert e.srcOutput == 0 || e.srcOutput == 1 || e.srcOutput == 2 || e.srcOutput == 3;
    }
  }

  lemma FoaPairEdges(e: Edge)
    requires e.src.PairMerger? || e.src.PairConvolver?
    ensures e in FoaStaticEdges <==> WiredBefore(4, e)
  {
    if WiredBefore(4, e) {
      assert e.src.pair == 0 || e.src.pair == 1;
    }
  }

  lemma FoaEarsMatchBuses(acn: nat)
    requires acn < 4
    ensures Edge(PairSplitter(acn / 2), acn % 2, BinauralMerger, 0) in FoaStaticEdges
    ensures Edge(PairSplitter(acn / 2), acn % 2, Inverter, 0) in FoaStaticEdges <==> BusOf(acn) == NegativeBus
    ensures Edge(PairSplitter(acn / 2), acn % 2, BinauralMerger, 1) in FoaStaticEdges <==> BusOf(acn) == PositiveBus
  {
    FirstOrderBuses();
    FoaEarEdges(acn / 2, acn % 2, BusOf(acn));
  }

  /** The ear connections of slot `slot` of pair `pair` by bus. */
  lemma FoaEarEdges(pair: nat, slot: nat, bus: Node)
    requires pair < 2 && slot < 2
    requires bus == (if pair == 0 && slot == 1 then NegativeBus else PositiveBus)
    ensures Edge(PairSplitter(pair), slot, BinauralMerger, 0) in FoaStaticEdges
    ensures Edge(PairSplitter(pair), slot, Inverter, 0) in FoaStaticEdges <==> bus == NegativeBus
    ensures Edge(PairSplitter(pair), slot, BinauralMerger, 1) in FoaStaticEdges <==> bus == PositiveBus
  {
  }

  /** Channels 0, 2 and 3 (m >= 0) sum into the positive bus, channel 1
      (m = -1) into the negative one. */
  lemma FirstOrderBuses()
    ensures BusOf(0) == PositiveBus && BusOf(2) == PositiveBus && BusOf(3) == PositiveBus
    ensures BusOf(1) == NegativeBus
  {
    BandUnique(0, 0);
    BandUnique(1, 1);
    BandUnique(2, 1);
    BandUnique(3, 1);
  }
}

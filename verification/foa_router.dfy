/** FOARouter: a 4-channel splitter wired into a 4-input merger according
    to a channel map, so merger input map[i] receives ambisonic channel i. */
module FoaRouter {
  import opened Outcomes
  import opened AudioGraph

  /** Channel maps the renderer recognises by name. */
  const DefaultMap: seq<int> := [0, 1, 2, 3]
  const SafariMap: seq<int> := [2, 0, 1, 3]
  const FumaMap: seq<int> := [0, 3, 1, 2]

  /** The argument of setChannelMap: an array, or any other value. */
  datatype MapArg = ArrayArg(entries: seq<int>) | NotAnArray

  /** channelMap is None until a first array has been accepted. */
  datatype Router = Router(channelMap: Option<seq<int>>, graph: Graph)

  /** map[i], where a missing entry is undefined and connect() treats an
      undefined input index as 0. */
  function EntryOr0(m: seq<int>, i: nat): int
  {
    if i < |m| then m[i] else 0
  }

  /** The merger input channel i is sent to. */
  function Target(m: seq<int>, i: nat): nat
  {
    UnsignedLong(EntryOr0(m, i))
  }

  predicate Valid(m: seq<int>, i: nat) { Target(m, i) < 4 }

  /** Channels i .. k-1 name merger inputs that exist. */
  predicate ValidBetween(m: seq<int>, i: nat, k: nat) {
    forall j :: i <= j < k ==> Valid(m, j)
  }

  /** Channel k is the first channel from i on whose target does not exist. */
  predicate FirstInvalidFrom(m: seq<int>, i: nat, k: nat) {
    i <= k < 4 && ValidBetween(m, i, k) && !Valid(m, k)
  }

  /** The splitter-to-merger edges for channels i .. k-1. */
  function RoutedBetween(m: seq<int>, i: nat, k: nat): set<Edge>
  {
    set j | i <= j < k :: Edge(RouterSplitter, j, RouterMerger, Target(m, j))
  }

  lemma RoutedBetweenSplit(m: seq<int>, i: nat)
    ensures forall k :: i < k ==>
              RoutedBetween(m, i, k) == {Edge(RouterSplitter, i, RouterMerger, Target(m, i))} + RoutedBetween(m, i + 1, k)
  {
  }

  /** The connect() calls for channels i .. 3, stopping at the first that
      throws; the edges already added stay. */
  function WireFrom(g: Graph, m: seq<int>, i: nat): (r: Step<Graph>)
    requires i <= 4
    ensures forall e: Edge :: e.src != RouterSplitter ==> (e in r.state <==> e in g)
    ensures ValidBetween(m, i, 4) ==>
              !r.Threw() && Outgoing(r.state, RouterSplitter) == Outgoing(g, RouterSplitter) + RoutedBetween(m, i, 4)
    ensures forall k :: FirstInvalidFrom(m, i, k) ==>
              r.thrown == Some(IndexSizeError) &&
              Outgoing(r.state, RouterSplitter) == Outgoing(g, RouterSplitter) + RoutedBetween(m, i, k)
    decreases 4 - i
  {
    if i == 4 then Ok(g)
    else
      var s := ConnectChecked(g, RouterSplitter, i, RouterMerger, 4, EntryOr0(m, i));
      if s.Threw() then
        assert !Valid(m, i);
        s
      else
        assert Valid(m, i);
        assert forall k :: FirstInvalidFrom(m, i, k) ==> i < k && FirstInvalidFrom(m, i + 1, k);
        RoutedBetweenSplit(m, i);
        WireFrom(s.state, m, i + 1)
  }

  /** setChannelMap: a non-array is ignored; otherwise the map is stored,
      every splitter edge is removed and the four channels are rewired. */
  function SetChannelMap(r: Router, arg: MapArg): (s: Step<Router>)
    ensures arg.NotAnArray? ==> s == Ok(r)
    ensures arg.ArrayArg? ==> s.state.channelMap == Some(arg.entries)
    ensures forall e: Edge :: e.src != RouterSplitter ==> (e in s.state.graph <==> e in r.graph)
    ensures arg.ArrayArg? && ValidBetween(arg.entries, 0, 4) ==>
              !s.Threw() && Outgoing(s.state.graph, RouterSplitter) == RoutedBetween(arg.entries, 0, 4)
    ensures arg.ArrayArg? ==> forall k :: FirstInvalidFrom(arg.entries, 0, k) ==>
              s.thrown == Some(IndexSizeError) &&
              Outgoing(s.state.graph, RouterSplitter) == RoutedBetween(arg.entries, 0, k)
  {
    match arg
    case NotAnArray => Ok(r)
    case ArrayArg(m) =>
      var wired := WireFrom(DisconnectAll(r.graph, RouterSplitter), m, 0);
      Step(Router(Some(m), wired.state), wired.thrown)
  }

  /** The constructor: a missing map means the default one. */
  function CreateRouter(g: Graph, channelMap: Option<MapArg>): (s: Step<Router>)
    ensures channelMap.None? ==> !s.Threw() && s.state.channelMap == Some(DefaultMap)
  {
    var arg := if channelMap.None? then ArrayArg(DefaultMap) else channelMap.value;
    SetChannelMap(Router(None, g), arg)
  }

  /** A valid map yields exactly one edge per channel, from splitter output
      i to merger input map[i]. */
  lemma ValidMapRoutesEachChannel(r: Router, m: seq<int>)
    requires |m| == 4 && forall i :: 0 <= i < 4 ==> 0 <= m[i] < 4
    ensures var s := SetChannelMap(r, ArrayArg(m));
            && !s.Threw()
            && forall e: Edge :: e in s.state.graph && e.src == RouterSplitter <==>
                 e.src == RouterSplitter && e.dst == RouterMerger && e.srcOutput < 4 && e.dstInput == m[e.srcOutput]
  {
    assert ValidBetween(m, 0, 4);
    var s := SetChannelMap(r, ArrayArg(m));
    forall e: Edge | e.src == RouterSplitter && e.dst == RouterMerger && e.srcOutput < 4 && e.dstInput == m[e.srcOutput]
      ensures e in s.state.graph
    {
      assert e == Edge(RouterSplitter, e.srcOutput, RouterMerger, Target(m, e.srcOutput));
      assert e in RoutedBetween(m, 0, 4);
    }
  }

  /** An out-of-range entry at index 2 (here -1, which converts to
      4294967295) throws after channels 0 and 1 have been wired. */
  lemma PartialRewireOnBadEntry(r: Router)
    ensures var s := SetChannelMap(r, ArrayArg([0, 1, -1, 3]));
            && s.thrown == Some(IndexSizeError)
            && Outgoing(s.state.graph, RouterSplitter) ==
                 {Edge(RouterSplitter, 0, RouterMerger, 0), Edge(RouterSplitter, 1, RouterMerger, 1)}
  {
    var m := [0, 1, -1, 3];
    assert Target(m, 2) == 0xFFFF_FFFF;
    assert FirstInvalidFrom(m, 0, 2);
    RoutedBetweenSplit(m, 0);
    RoutedBetweenSplit(m, 1);
  }
}

/** The Web Audio graph as a set of connection edges. Audio nodes are opaque
    identities; only which output of which node feeds which input of which
    node is recorded. A repeated connect() adds nothing (the platform ignores
    duplicate connections) and node.disconnect() with no argument removes
    every outgoing connection of that node. */
module AudioGraph {
  import opened Outcomes

  /** Every node the modelled code creates, named by its role. */
  datatype Node =
    // renderer façade (both orders)
    | RendererInput | RendererOutput | Bypass
    // first-order channel router
    | RouterSplitter | RouterMerger
    // rotators: input splitter and output merger
    | RotatorSplitter | RotatorMerger
    // higher-order rotator gain nodes, band l >= 1, entry index within the band
    | RotatorGain(band: nat, entry: nat)
    // convolvers: input splitter, one merger/convolver/splitter per stereo pair
    | ConvolverSplitter | PairMerger(pair: nat) | PairConvolver(pair: nat) | PairSplitter(pair: nat)
    | PositiveBus | NegativeBus | Inverter | BinauralMerger | ConvolverOutput
    // engine wrapper
    | InputGain | Destination | BufferSource(id: nat) | StreamSource(id: nat)

  datatype Edge = Edge(src: Node, srcOutput: nat, dst: Node, dstInput: nat)

  type Graph = set<Edge>

  /** a.connect(b, output, input) */
  function Connect(g: Graph, src: Node, output: nat, dst: Node, input: nat): (r: Graph)
    ensures Edge(src, output, dst, input) in r
    ensures forall e :: e in g ==> e in r
    ensures forall e :: e in r && e != Edge(src, output, dst, input) ==> e in g
  {
    g + {Edge(src, output, dst, input)}
  }

  /** a.disconnect(): drop every edge leaving a, keep everything else. */
  function DisconnectAll(g: Graph, n: Node): (r: Graph)
    ensures forall e :: e in r <==> e in g && e.src != n
  {
    set e | e in g && e.src != n
  }

  /** The graph once n is dropped for a new node in its place: no edge into
      or out of n is left. */
  function Isolate(g: Graph, n: Node): (r: Graph)
    ensures r <= g
    ensures forall e :: e in r <==> e in g && e.src != n && e.dst != n
  {
    set e | e in g && e.src != n && e.dst != n
  }

  /** The edges leaving n. */
  function Outgoing(g: Graph, n: Node): (r: set<Edge>)
    ensures forall e :: e in r <==> e in g && e.src == n
  {
    set e | e in g && e.src == n
  }

  /** Disconnecting is idempotent and leaves n without outgoing edges. */
  lemma DisconnectAllIdempotent(g: Graph, n: Node)
    ensures DisconnectAll(DisconnectAll(g, n), n) == DisconnectAll(g, n)
    ensures Outgoing(DisconnectAll(g, n), n) == {}
  {
  }

  /** Disconnecting one node leaves the outgoing edges of every other node alone. */
  lemma DisconnectAllIsLocal(g: Graph, n: Node, other: Node)
    requires other != n
    ensures Outgoing(DisconnectAll(g, n), other) == Outgoing(g, other)
  {
  }

  /** WebIDL conversion of a connect() index to unsigned long: reduce
      modulo 2^32, so -1 becomes 4294967295. */
  function UnsignedLong(v: int): (u: nat)
    ensures u < 0x1_0000_0000
    ensures 0 <= v < 0x1_0000_0000 ==> u == v
  {
    v % 0x1_0000_0000
  }

  /** a.connect(b, output, input) where b has inputCount inputs: an input
      index past the last one throws IndexSizeError and adds nothing. */
  function ConnectChecked(g: Graph, src: Node, output: nat, dst: Node, inputCount: nat, input: int): (r: Step<Graph>)
    ensures r.Threw() <==> UnsignedLong(input) >= inputCount
    ensures r.Threw() ==> r == Fail(g, IndexSizeError)
    ensures !r.Threw() ==> r.state == Connect(g, src, output, dst, UnsignedLong(input))
  {
    var index := UnsignedLong(input);
    if index >= inputCount then Fail(g, IndexSizeError) else Ok(Connect(g, src, output, dst, index))
  }
}

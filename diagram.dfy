/**
  The pipeline diagram as a structured graph description: the statements the
  diagram builders emit, in emission order, with the attributes that carry
  meaning (shape, label, visibility, fill colour, tooltip). The colour
  gradient shared by the diagram and the critical-path list lives here too.
*/
module Diagram {
  import opened Base

  // ---------------------------------------------------------------------------
  // The colour gradient
  // ---------------------------------------------------------------------------

  /** The 22 colours of the usage gradient, from white (idle) to red (saturated). */
  const Palette: seq<string> := [
    "#ffffff", "#eaffea", "#d5ffd5", "#c0ffc0", "#aaffaa", "#95ff95",
    "#80ff80", "#7ffb6e", "#86f55d", "#96ee4d", "#abe63d", "#bfde2d",
    "#d4d51e", "#e6ca11", "#f2bb07", "#f8a800", "#f18c00", "#ea7000",
    "#e35400", "#dc3800", "#d51c00", "#ce0000"
  ]

  /** What a template literal prints for a read past either end of a JavaScript array. */
  const Undefined: string := "undefined"

  /** `Math.floor(percent / 5)`: the gradient index of a percentage, not clamped. */
  function ColorIndex(percent: real): int
  {
    (percent / 5.0).Floor
  }

  /** `color[index]`: the palette entry, or `undefined` outside the table. */
  function PaletteAt(index: int): string
  {
    if 0 <= index < |Palette| then Palette[index] else Undefined
  }

  /** The colour a percentage is painted with: `color[Math.floor(percent / 5)]`. */
  function UsageColor(percent: real): string
  {
    PaletteAt(ColorIndex(percent))
  }

  /** The gradient index is the k with 5k <= p < 5k + 5. */
  lemma ColorIndexBand(p: real, k: int)
    ensures ColorIndex(p) == k <==> 5.0 * k as real <= p < 5.0 * k as real + 5.0
  {
  }

  /** Every percentage in [0, 100] has an index in [0, 20], so it is inside the table. */
  lemma ColorIndexInTable(p: real)
    requires 0.0 <= p <= 100.0
    ensures 0 <= ColorIndex(p) <= 20
    ensures UsageColor(p) == Palette[ColorIndex(p)]
  {
  }

  /** The two ends of the percentage range: 0 gives index 0 and 100 gives index 20, not 21. */
  lemma ColorIndexEnds()
    ensures ColorIndex(0.0) == 0 && UsageColor(0.0) == "#ffffff"
    ensures ColorIndex(100.0) == 20 && UsageColor(100.0) == "#d51c00"
  {
    ColorIndexBand(100.0, 20);
  }

  /** A higher percentage never gets a lower gradient index. */
  lemma ColorIndexMonotone(p: real, q: real)
    requires p <= q
    ensures ColorIndex(p) <= ColorIndex(q)
  {
  }

  /** The index is not clamped: from 110 upwards, and below 0, the colour is `undefined`. */
  lemma ColorIndexUnclamped(p: real)
    ensures p >= 110.0 || p < 0.0 <==> UsageColor(p) == Undefined
  {
    assert Undefined !in Palette;
  }

  // ---------------------------------------------------------------------------
  // Usage sample
  // ---------------------------------------------------------------------------

  /**
    Per-stage and per-port utilisation in percent. `ports[i]` is the value of
    port column i; `None` stands for an `undefined` entry.
  */
  datatype UsageSample = UsageSample(dispatch: real, execute: real, retire: real, ports: seq<Option<real>>)

  /** `usage.ports[i]`, which is `undefined` past the last entry. */
  function PortUsage(u: UsageSample, i: nat): Option<real>
  {
    if i < |u.ports| then u.ports[i] else None
  }

  // ---------------------------------------------------------------------------
  // Graph statements
  // ---------------------------------------------------------------------------

  /** The nodes of the pipeline topology; `Port(i)` is written `Pi`. */
  datatype NodeId = Fetch | WaitingBuffer | Port(index: nat) | Ellipsis | Registers | Rob

  datatype Shape = Point | Box | Box3d

  /** `OwnName` is a label equal to the node's name (`P2 [label="P2"]`, or no label at all). */
  datatype NodeLabel = OwnName | Text(text: string)

  datatype NodeDecl = NodeDecl(
    id: NodeId,
    shape: Shape,
    caption: NodeLabel,
    visible: bool,
    fill: Option<string>,
    tooltip: Option<real>)   // "Usage: <percent>%"

  datatype StageName = Dispatch | Retire

  /** Percentage and background colour of an annotated stage label. */
  datatype Annotation = Annotation(percent: real, background: string)

  /** "Dispatch = 6" or, annotated, "Dispatch = 6 (49.5%)" on a coloured background. */
  datatype EdgeLabel = NoLabel | StageLabel(stage: StageName, width: int, annotation: Option<Annotation>)

  datatype EdgeDecl = EdgeDecl(from: NodeId, to: NodeId, caption: EdgeLabel, visible: bool, tooltip: Option<real>)

  datatype RankKind = Same | Sink

  /** One statement of the graph description. */
  datatype Stmt =
    | Node(decl: NodeDecl)
    | Edge(edge: EdgeDecl)
    | Rank(kind: RankKind, members: seq<NodeId>)   // { rank=same; A; B; }
    | OpenCluster                                  // subgraph cluster_execute {
    | CloseCluster(title: Option<string>)          // label = "..."; }

  type Graph = seq<Stmt>

  /** An unlabelled, visible edge. */
  function PlainEdge(from: NodeId, to: NodeId): Stmt
  {
    Edge(EdgeDecl(from, to, NoLabel, true, None))
  }

  // ---------------------------------------------------------------------------
  // Queries on a graph
  // ---------------------------------------------------------------------------

  /** What is counted: edges between two nodes, or declarations of one node. */
  datatype Pattern = EdgeBetween(from: NodeId, to: NodeId) | DeclOf(id: NodeId)

  predicate Matches(s: Stmt, p: Pattern)
  {
    match p
    case EdgeBetween(a, b) => s.Edge? && s.edge.from == a && s.edge.to == b
    case DeclOf(id) => s.Node? && s.decl.id == id
  }

  /** How many statements of `g` match `p`. */
  function Count(g: Graph, p: Pattern): nat
    decreases |g|
  {
    if g == [] then 0 else (if Matches(g[0], p) then 1 else 0) + Count(g[1..], p)
  }

  lemma {:induction false} CountAppend(a: Graph, b: Graph, p: Pattern)
    ensures Count(a + b, p) == Count(a, p) + Count(b, p)
    decreases |a|
  {
    if a == [] {
      assert a + b == b;
    } else {
      assert (a + b)[1..] == a[1..] + b;
      CountAppend(a[1..], b, p);
    }
  }

  lemma {:induction false} CountNone(g: Graph, p: Pattern)
    requires forall k :: 0 <= k < |g| ==> !Matches(g[k], p)
    ensures Count(g, p) == 0
    decreases |g|
  {
    if g != [] {
      CountNone(g[1..], p);
    }
  }

  /** Whether a statement names a node: declares it, has it as an end point, or ranks it. */
  predicate Mentions(s: Stmt, id: NodeId)
  {
    match s
    case Node(d) => d.id == id
    case Edge(e) => e.from == id || e.to == id
    case Rank(_, members) => id in members
    case OpenCluster => false
    case CloseCluster(_) => false
  }

  /** Every port that appears anywhere in `g` is one of `allowed`. */
  ghost predicate PortsWithin(g: Graph, allowed: seq<nat>)
  {
    forall k, i: nat :: 0 <= k < |g| && Mentions(g[k], Port(i)) ==> i in allowed
  }

  /** `id` appears in a rank group of the given kind. */
  predicate InRank(g: Graph, kind: RankKind, id: NodeId)
  {
    exists k :: 0 <= k < |g| && g[k].Rank? && g[k].kind == kind && id in g[k].members
  }

  /** `id` appears anywhere in `g`. */
  predicate MentionedIn(g: Graph, id: NodeId)
  {
    exists k :: 0 <= k < |g| && Mentions(g[k], id)
  }

  /** The port indices declared by `g`, in declaration order. */
  function DeclaredPorts(g: Graph): seq<nat>
    decreases |g|
  {
    if g == [] then []
    else (if g[0].Node? && g[0].decl.id.Port? then [g[0].decl.id.index] else []) + DeclaredPorts(g[1..])
  }

  // ---------------------------------------------------------------------------
  // How the queries distribute over concatenation
  // ---------------------------------------------------------------------------

  /** A statement that matches exactly once is counted once. */
  lemma CountUnique(g: Graph, p: Pattern, k: nat)
    requires k < |g| && Matches(g[k], p)
    requires forall j :: 0 <= j < |g| && j != k ==> !Matches(g[j], p)
    ensures Count(g, p) == 1
  {
    assert g == g[..k] + [g[k]] + g[k + 1..];
    CountAppend(g[..k] + [g[k]], g[k + 1..], p);
    CountAppend(g[..k], [g[k]], p);
    CountNone(g[..k], p);
    CountNone(g[k + 1..], p);
  }

  /** What is counted is there. */
  lemma {:induction false} CountPositive(g: Graph, p: Pattern)
    requires Count(g, p) > 0
    ensures exists k :: 0 <= k < |g| && Matches(g[k], p)
    decreases |g|
  {
    if !Matches(g[0], p) {
      CountPositive(g[1..], p);
      var k :| 0 <= k < |g[1..]| && Matches(g[1..][k], p);
      assert Matches(g[k + 1], p);
    }
  }

  lemma PortsWithinAppend(a: Graph, b: Graph, allowed: seq<nat>)
    requires PortsWithin(a, allowed) && PortsWithin(b, allowed)
    ensures PortsWithin(a + b, allowed)
  {
    forall k, i: nat | 0 <= k < |a + b| && Mentions((a + b)[k], Port(i))
      ensures i in allowed
    {
      if k < |a| {
        assert Mentions(a[k], Port(i));
      } else {
        assert Mentions(b[k - |a|], Port(i));
      }
    }
  }

  lemma InRankAppend(a: Graph, b: Graph, kind: RankKind, id: NodeId)
    requires InRank(a, kind, id) || InRank(b, kind, id)
    ensures InRank(a + b, kind, id)
  {
    if InRank(a, kind, id) {
      var k :| 0 <= k < |a| && a[k].Rank? && a[k].kind == kind && id in a[k].members;
      assert (a + b)[k] == a[k];
    } else {
      var k :| 0 <= k < |b| && b[k].Rank? && b[k].kind == kind && id in b[k].members;
      assert (a + b)[|a| + k] == b[k];
    }
  }

  lemma MentionedInAppend(a: Graph, b: Graph, id: NodeId)
    ensures MentionedIn(a + b, id) <==> MentionedIn(a, id) || MentionedIn(b, id)
  {
    if MentionedIn(a + b, id) {
      var k :| 0 <= k < |a + b| && Mentions((a + b)[k], id);
      if k < |a| {
        assert Mentions(a[k], id);
      } else {
        assert Mentions(b[k - |a|], id);
      }
    }
    if MentionedIn(a, id) {
      var k :| 0 <= k < |a| && Mentions(a[k], id);
      assert (a + b)[k] == a[k];
    }
    if MentionedIn(b, id) {
      var k :| 0 <= k < |b| && Mentions(b[k], id);
      assert (a + b)[|a| + k] == b[k];
    }
  }

  lemma {:induction false} DeclaredPortsAppend(a: Graph, b: Graph)
    ensures DeclaredPorts(a + b) == DeclaredPorts(a) + DeclaredPorts(b)
    decreases |a|
  {
    if a == [] {
      assert a + b == b;
    } else {
      assert (a + b)[1..] == a[1..] + b;
      DeclaredPortsAppend(a[1..], b);
    }
  }

  lemma {:induction false} DeclaredPortsNone(g: Graph)
    requires forall k :: 0 <= k < |g| ==> !(g[k].Node? && g[k].decl.id.Port?)
    ensures DeclaredPorts(g) == []
    decreases |g|
  {
    if g != [] {
      DeclaredPortsNone(g[1..]);
    }
  }

  /** Whether counting `p` is about node `id`. */
  predicate Involves(p: Pattern, id: NodeId)
  {
    match p
    case EdgeBetween(a, b) => a == id || b == id
    case DeclOf(x) => x == id
  }

  /** A node that `g` never mentions has no edges and no declarations in it. */
  lemma CountAbsent(g: Graph, p: Pattern, id: NodeId)
    requires !MentionedIn(g, id) && Involves(p, id)
    ensures Count(g, p) == 0
  {
    forall k | 0 <= k < |g|
      ensures !Matches(g[k], p)
    {
      assert !Mentions(g[k], id);
    }
    CountNone(g, p);
  }

  /** The declarations of node `id` in `g`, in order. */
  function DeclsOf(g: Graph, id: NodeId): seq<NodeDecl>
    decreases |g|
  {
    if g == [] then []
    else (if g[0].Node? && g[0].decl.id == id then [g[0].decl] else []) + DeclsOf(g[1..], id)
  }

  lemma {:induction false} DeclsOfAppend(a: Graph, b: Graph, id: NodeId)
    ensures DeclsOf(a + b, id) == DeclsOf(a, id) + DeclsOf(b, id)
    decreases |a|
  {
    if a == [] {
      assert a + b == b;
    } else {
      assert (a + b)[1..] == a[1..] + b;
      DeclsOfAppend(a[1..], b, id);
    }
  }

  lemma {:induction false} DeclsOfNone(g: Graph, id: NodeId)
    requires forall k :: 0 <= k < |g| ==> !(g[k].Node? && g[k].decl.id == id)
    ensures DeclsOf(g, id) == []
    decreases |g|
  {
    if g != [] {
      DeclsOfNone(g[1..], id);
    }
  }

  lemma DeclaredPortsSingle(s: Stmt)
    ensures DeclaredPorts([s]) == if s.Node? && s.decl.id.Port? then [s.decl.id.index] else []
  {
    assert [s][1..] == [];
  }

  lemma DeclsOfSingle(s: Stmt, id: NodeId)
    ensures DeclsOf([s], id) == if s.Node? && s.decl.id == id then [s.decl] else []
  {
    assert [s][1..] == [];
  }

  /** A port mentioned in a graph whose ports are within `allowed` is one of them. */
  lemma MentionedWithin(g: Graph, allowed: seq<nat>, i: nat)
    requires PortsWithin(g, allowed) && MentionedIn(g, Port(i))
    ensures i in allowed
  {
    var k :| 0 <= k < |g| && Mentions(g[k], Port(i));
  }
}

/**
  The two pipeline-diagram builders of public/processor.js.

  The reduced diagram (no usage data) elides ports: from four ports on it
  shows P0, P1, P2 and the last port, with a "..." placeholder when there are
  more than four. The full diagram (with usage data) draws every port and
  colours the stage labels and the ports from the usage gradient.

  Each builder is a method that grows the statement sequence step by step, as
  the source grows its DOT text, and is proved equal to a declarative
  definition (`Reduced`, `Full`); the properties of the diagrams are lemmas
  about those definitions.
*/
module Processor {
  import opened Base
  import opened Diagram

  // ---------------------------------------------------------------------------
  // Port orders
  // ---------------------------------------------------------------------------

  /** n-1, n-2, ..., 0: the order of `for (let i = n - 1; i >= 0; i--)`. */
  function Descending(n: nat): seq<nat>
  {
    seq(n, k requires 0 <= k < n => n - 1 - k)
  }

  /** 0, 1, ..., n-1. */
  function Ascending(n: nat): seq<nat>
  {
    seq(n, k requires 0 <= k < n => k)
  }

  /** `shown_ports` of the reduced diagram. */
  function ShownPorts(n: nat): seq<nat>
  {
    if n >= 4 then [0, 1, 2, n - 1] else Descending(n)
  }

  function PortIds(ports: seq<nat>): seq<NodeId>
  {
    seq(|ports|, k requires 0 <= k < |ports| => Port(ports[k]))
  }

  // ---------------------------------------------------------------------------
  // Statements shared by both diagrams
  // ---------------------------------------------------------------------------

  /** The invisible point the dispatch edge starts from. */
  const FetchPoint: Stmt := Node(NodeDecl(Fetch, Point, Text(""), false, None, None))
  const WaitingBufferDecl: Stmt := Node(NodeDecl(WaitingBuffer, Box, Text("Waiting\\nBuffer"), true, None, None))
  const RegistersDecl: Stmt := Node(NodeDecl(Registers, Box, OwnName, true, None, None))
  const RobSink: Stmt := Rank(Sink, [Rob])

  /** The reorder buffer, labelled with the ROB size read from the page. */
  function RobDecl(robSize: string): Stmt
  {
    Node(NodeDecl(Rob, Box, Text("ROB: " + robSize + " entries"), true, None, None))
  }

  /** The usage annotation of a stage label: the percentage and its gradient colour. */
  function StageAnnotation(percent: real): Annotation
  {
    Annotation(percent, UsageColor(percent))
  }

  /** Fetch -> "Waiting Buffer", labelled "Dispatch = <width>" (and its usage, when annotated). */
  function DispatchEdge(width: int, annotation: Option<Annotation>): Stmt
  {
    Edge(EdgeDecl(Fetch, WaitingBuffer, StageLabel(Dispatch, width, annotation), true,
                  if annotation.Some? then Some(annotation.value.percent) else None))
  }

  /** ROB -> Registers, labelled "Retire = <width>" (and its usage, when annotated). */
  function RetireEdge(width: int, annotation: Option<Annotation>): Stmt
  {
    Edge(EdgeDecl(Rob, Registers, StageLabel(Retire, width, annotation), true,
                  if annotation.Some? then Some(annotation.value.percent) else None))
  }

  /** `"Waiting Buffer" -> P<i>` for each port of `ports`, in order. */
  function EdgesFrom(src: NodeId, ports: seq<nat>): Graph
  {
    seq(|ports|, k requires 0 <= k < |ports| => PlainEdge(src, Port(ports[k])))
  }

  /** `P<i> -> ROB` for each port of `ports`, in order. */
  function EdgesTo(ports: seq<nat>, dst: NodeId): Graph
  {
    seq(|ports|, k requires 0 <= k < |ports| => PlainEdge(Port(ports[k]), dst))
  }

  // ---------------------------------------------------------------------------
  // The reduced diagram
  // ---------------------------------------------------------------------------

  /** A node of the execute cluster, which takes the cluster's box3d default. */
  function ClusterNode(id: NodeId): Stmt
  {
    Node(NodeDecl(id, Box3d, OwnName, true, None, None))
  }

  function ClusterNodes(ports: seq<nat>): Graph
  {
    seq(|ports|, k requires 0 <= k < |ports| => ClusterNode(Port(ports[k])))
  }

  const EllipsisEdge: Stmt := Edge(EdgeDecl(WaitingBuffer, Ellipsis, NoLabel, false, None))

  function ReducedPrologue(dispatchWidth: int): Graph
  {
    [FetchPoint, Node(NodeDecl(Fetch, Box, OwnName, false, None, None)),
     DispatchEdge(dispatchWidth, None), WaitingBufferDecl]
  }

  /** The execute cluster: P<n-1>, "..." (above four ports), P2, P1, P0; or every port, highest first. */
  function ReducedCluster(n: nat): Graph
  {
    [OpenCluster]
    + (if n >= 4 then
         [ClusterNode(Port(n - 1))] + (if n > 4 then [ClusterNode(Ellipsis)] else []) + ClusterNodes([2, 1, 0])
       else ClusterNodes(Descending(n)))
    + [CloseCluster(None)]
  }

  function ReducedEllipsisEdge(n: nat): Graph
  {
    if n > 4 then [EllipsisEdge] else []
  }

  /** The ports of the `rank=same` row: P0; P1; P2; "..."; P<n-1>, or the shown ports in order. */
  function ReducedRow(n: nat): seq<NodeId>
  {
    if n >= 4 then PortIds([0, 1, 2]) + (if n > 4 then [Ellipsis] else []) + PortIds([n - 1])
    else PortIds(ShownPorts(n))
  }

  function ReducedMiddle(n: nat, robSize: string): Graph
  {
    [RegistersDecl, Rank(Same, [Fetch, WaitingBuffer] + ReducedRow(n) + [Registers]),
     RobDecl(robSize), RobSink, PlainEdge(Fetch, Rob)]
  }

  /** The reduced diagram of `construct_reduced_processor_dot`, statement by statement. */
  function Reduced(dispatchWidth: int, n: nat, retireWidth: int, robSize: string): Graph
  {
    ReducedPrologue(dispatchWidth)
    + ReducedCluster(n)
    + EdgesFrom(WaitingBuffer, ShownPorts(n))
    + ReducedEllipsisEdge(n)
    + ReducedMiddle(n, robSize)
    + EdgesTo(ShownPorts(n), Rob)
    + [RetireEdge(retireWidth, None)]
  }

  /** The cluster body as the source emits it, together with `shown_ports`. */
  method ReducedPortNodes(numPorts: nat) returns (shown: seq<nat>, nodes: Graph)
    ensures shown == ShownPorts(numPorts)
    ensures [OpenCluster] + nodes + [CloseCluster(None)] == ReducedCluster(numPorts)
  {
    shown := [];
    nodes := [];
    if numPorts >= 4 {
      shown := [0, 1, 2, numPorts - 1];
      nodes := nodes + [ClusterNode(Port(numPorts - 1))];
      if numPorts > 4 {
        nodes := nodes + [ClusterNode(Ellipsis)];
      }
      nodes := nodes + [ClusterNode(Port(2))];
      nodes := nodes + [ClusterNode(Port(1))];
      nodes := nodes + [ClusterNode(Port(0))];
      assert nodes == [ClusterNode(Port(numPorts - 1))] + (if numPorts > 4 then [ClusterNode(Ellipsis)] else [])
                      + ClusterNodes([2, 1, 0]);
    } else {
      var i: int := numPorts - 1;
      while i >= 0
        invariant -1 <= i < numPorts
        invariant shown == Descending(numPorts)[..numPorts - 1 - i]
        invariant nodes == ClusterNodes(shown)
      {
        assert Descending(numPorts)[..numPorts - i] == Descending(numPorts)[..numPorts - 1 - i] + [i];
        shown := shown + [i];
        nodes := nodes + [ClusterNode(Port(i))];
        i := i - 1;
      }
      assert Descending(numPorts)[..numPorts] == Descending(numPorts);
    }
  }

  /** `for (idx ...) dot_code += `"Waiting Buffer" -> P${shown_ports[idx]}``; and likewise towards ROB. */
  method AppendPortEdges(g: Graph, ports: seq<nat>, towardsRob: bool) returns (r: Graph)
    ensures r == g + (if towardsRob then EdgesTo(ports, Rob) else EdgesFrom(WaitingBuffer, ports))
  {
    r := g;
    var idx := 0;
    while idx < |ports|
      invariant 0 <= idx <= |ports|
      invariant r == g + (if towardsRob then EdgesTo(ports[..idx], Rob) else EdgesFrom(WaitingBuffer, ports[..idx]))
    {
      if towardsRob {
        assert EdgesTo(ports[..idx + 1], Rob) == EdgesTo(ports[..idx], Rob) + [PlainEdge(Port(ports[idx]), Rob)];
        r := r + [PlainEdge(Port(ports[idx]), Rob)];
      } else {
        assert EdgesFrom(WaitingBuffer, ports[..idx + 1])
            == EdgesFrom(WaitingBuffer, ports[..idx]) + [PlainEdge(WaitingBuffer, Port(ports[idx]))];
        r := r + [PlainEdge(WaitingBuffer, Port(ports[idx]))];
      }
      idx := idx + 1;
    }
    assert ports[..|ports|] == ports;
  }

  /** The ports of the `rank=same` group, as the source appends them. */
  method ReducedRowMembers(numPorts: nat, shown: seq<nat>) returns (row: seq<NodeId>)
    requires shown == ShownPorts(numPorts)
    ensures row == ReducedRow(numPorts)
  {
    row := [];
    if numPorts >= 4 {
      row := row + [Port(0), Port(1), Port(2)];
      if numPorts > 4 {
        row := row + [Ellipsis];
      }
      row := row + [Port(numPorts - 1)];
    } else {
      var j := 0;
      while j < |shown|
        invariant 0 <= j <= |shown|
        invariant row == PortIds(shown[..j])
      {
        assert PortIds(shown[..j + 1]) == PortIds(shown[..j]) + [Port(shown[j])];
        row := row + [Port(shown[j])];
        j := j + 1;
      }
      assert shown[..|shown|] == shown;
    }
  }

  /**
    `construct_reduced_processor_dot(dispatch_width, num_ports, retire_width, cache)`
    with the ROB size read from the page passed as `robSize`.
  */
  method BuildReduced(dispatchWidth: int, numPorts: nat, retireWidth: int, robSize: string) returns (g: Graph)
    ensures g == Reduced(dispatchWidth, numPorts, retireWidth, robSize)
  {
    g := ReducedPrologue(dispatchWidth);
    var shown, nodes := ReducedPortNodes(numPorts);
    g := g + ([OpenCluster] + nodes + [CloseCluster(None)]);
    g := AppendPortEdges(g, shown, false);
    if numPorts > 4 {
      g := g + [EllipsisEdge];
    }
    assert g == ReducedPrologue(dispatchWidth) + ReducedCluster(numPorts)
      + EdgesFrom(WaitingBuffer, ShownPorts(numPorts)) + ReducedEllipsisEdge(numPorts);
    var row := ReducedRowMembers(numPorts, shown);
    g := g + [RegistersDecl, Rank(Same, [Fetch, WaitingBuffer] + row + [Registers])];
    g := g + [RobDecl(robSize), RobSink];
    g := g + [PlainEdge(Fetch, Rob)];
    assert g == ReducedPrologue(dispatchWidth) + ReducedCluster(numPorts)
      + EdgesFrom(WaitingBuffer, ShownPorts(numPorts)) + ReducedEllipsisEdge(numPorts)
      + ReducedMiddle(numPorts, robSize);
    g := AppendPortEdges(g, shown, true);
    g := g + [RetireEdge(retireWidth, None)];
  }

  // ---------------------------------------------------------------------------
  // Facts about the port orders and the repeated segments
  // ---------------------------------------------------------------------------

  lemma DescendingFacts(n: nat)
    ensures |Descending(n)| == n && Distinct(Descending(n))
    ensures forall p: int :: p in Descending(n) <==> 0 <= p < n
  {
    forall p: int | 0 <= p < n
      ensures p in Descending(n)
    {
      assert Descending(n)[n - 1 - p] == p;
    }
  }

  lemma AscendingFacts(n: nat)
    ensures |Ascending(n)| == n && Distinct(Ascending(n))
    ensures forall p: int :: p in Ascending(n) <==> 0 <= p < n
  {
    forall p: int | 0 <= p < n
      ensures p in Ascending(n)
    {
      assert Ascending(n)[p] == p;
    }
  }

  /** The shown ports of the reduced diagram: {0, 1, 2, n-1} from four ports on, every port below that. */
  lemma ShownPortsExactly(n: nat, p: nat)
    ensures Distinct(ShownPorts(n))
    ensures n >= 4 ==> (p in ShownPorts(n) <==> p == 0 || p == 1 || p == 2 || p == n - 1)
    ensures n < 4 ==> (p in ShownPorts(n) <==> p < n)
    ensures n < 4 ==> |ShownPorts(n)| == n && forall k :: 0 <= k < n ==> ShownPorts(n)[k] == n - 1 - k
  {
    DescendingFacts(n);
  }

  /** Among edges fanning out of `src` to distinct ports, each port has exactly one. */
  lemma EdgesFromCount(src: NodeId, ports: seq<nat>, p: Pattern)
    requires Distinct(ports) && !src.Port?
    ensures Count(EdgesFrom(src, ports), p)
         == if p.EdgeBetween? && p.from == src && p.to.Port? && p.to.index in ports then 1 else 0
  {
    var g := EdgesFrom(src, ports);
    if p.EdgeBetween? && p.from == src && p.to.Port? && p.to.index in ports {
      var k :| 0 <= k < |ports| && ports[k] == p.to.index;
      CountUnique(g, p, k);
    } else {
      CountNone(g, p);
    }
  }

  /** Among edges from distinct ports into `dst`, each port has exactly one. */
  lemma EdgesToCount(ports: seq<nat>, dst: NodeId, p: Pattern)
    requires Distinct(ports) && !dst.Port?
    ensures Count(EdgesTo(ports, dst), p)
         == if p.EdgeBetween? && p.to == dst && p.from.Port? && p.from.index in ports then 1 else 0
  {
    var g := EdgesTo(ports, dst);
    if p.EdgeBetween? && p.to == dst && p.from.Port? && p.from.index in ports {
      var k :| 0 <= k < |ports| && ports[k] == p.from.index;
      CountUnique(g, p, k);
    } else {
      CountNone(g, p);
    }
  }

  lemma {:induction false} ClusterNodesDeclare(ports: seq<nat>)
    ensures DeclaredPorts(ClusterNodes(ports)) == ports
    decreases |ports|
  {
    if ports != [] {
      assert ClusterNodes(ports) == [ClusterNode(Port(ports[0]))] + ClusterNodes(ports[1..]);
      DeclaredPortsAppend([ClusterNode(Port(ports[0]))], ClusterNodes(ports[1..]));
      ClusterNodesDeclare(ports[1..]);
    }
  }

  // ---------------------------------------------------------------------------
  // Properties of the reduced diagram
  // ---------------------------------------------------------------------------

  /** Counting over seven consecutive segments. */
  lemma CountSeven(s1: Graph, s2: Graph, s3: Graph, s4: Graph, s5: Graph, s6: Graph, s7: Graph, p: Pattern)
    ensures Count(s1 + s2 + s3 + s4 + s5 + s6 + s7, p)
         == Count(s1, p) + Count(s2, p) + Count(s3, p) + Count(s4, p) + Count(s5, p) + Count(s6, p) + Count(s7, p)
  {
    CountAppend(s1, s2, p);
    CountAppend(s1 + s2, s3, p);
    CountAppend(s1 + s2 + s3, s4, p);
    CountAppend(s1 + s2 + s3 + s4, s5, p);
    CountAppend(s1 + s2 + s3 + s4 + s5, s6, p);
    CountAppend(s1 + s2 + s3 + s4 + s5 + s6, s7, p);
  }

  lemma PortsWithinSeven(s1: Graph, s2: Graph, s3: Graph, s4: Graph, s5: Graph, s6: Graph, s7: Graph, allowed: seq<nat>)
    requires PortsWithin(s1, allowed) && PortsWithin(s2, allowed) && PortsWithin(s3, allowed) && PortsWithin(s4, allowed)
    requires PortsWithin(s5, allowed) && PortsWithin(s6, allowed) && PortsWithin(s7, allowed)
    ensures PortsWithin(s1 + s2 + s3 + s4 + s5 + s6 + s7, allowed)
  {
    PortsWithinAppend(s1, s2, allowed);
    PortsWithinAppend(s1 + s2, s3, allowed);
    PortsWithinAppend(s1 + s2 + s3, s4, allowed);
    PortsWithinAppend(s1 + s2 + s3 + s4, s5, allowed);
    PortsWithinAppend(s1 + s2 + s3 + s4 + s5, s6, allowed);
    PortsWithinAppend(s1 + s2 + s3 + s4 + s5 + s6, s7, allowed);
  }

  /** Seven consecutive segments of which only the second declares ports declare the second's ports. */
  lemma DeclaredPortsOnlySecond(s1: Graph, s2: Graph, s3: Graph, s4: Graph, s5: Graph, s6: Graph, s7: Graph)
    requires DeclaredPorts(s1) == [] && DeclaredPorts(s3) == [] && DeclaredPorts(s4) == []
    requires DeclaredPorts(s5) == [] && DeclaredPorts(s6) == [] && DeclaredPorts(s7) == []
    ensures DeclaredPorts(s1 + s2 + s3 + s4 + s5 + s6 + s7) == DeclaredPorts(s2)
  {
    DeclaredPortsAppend(s1, s2);
    DeclaredPortsAppend(s1 + s2, s3);
    DeclaredPortsAppend(s1 + s2 + s3, s4);
    DeclaredPortsAppend(s1 + s2 + s3 + s4, s5);
    DeclaredPortsAppend(s1 + s2 + s3 + s4 + s5, s6);
    DeclaredPortsAppend(s1 + s2 + s3 + s4 + s5 + s6, s7);
  }

  /** The segments of the reduced diagram other than the port edges hold no edge touching a port. */
  lemma ReducedFixedSegmentsNoPortEdges(dispatchWidth: int, n: nat, retireWidth: int, robSize: string, p: Pattern)
    requires p.EdgeBetween? && (p.from.Port? || p.to.Port?)
    ensures Count(ReducedPrologue(dispatchWidth), p) == 0
    ensures Count(ReducedCluster(n), p) == 0
    ensures Count(ReducedEllipsisEdge(n), p) == 0
    ensures Count(ReducedMiddle(n, robSize), p) == 0
    ensures Count([RetireEdge(retireWidth, None)], p) == 0
  {
    CountNone(ReducedPrologue(dispatchWidth), p);
    var c := ReducedCluster(n);
    forall k | 0 <= k < |c|
      ensures !c[k].Edge?
    {
    }
    CountNone(c, p);
    CountNone(ReducedEllipsisEdge(n), p);
    CountNone(ReducedMiddle(n, robSize), p);
    CountNone([RetireEdge(retireWidth, None)], p);
  }

  /** Each shown port has exactly one edge from the Waiting Buffer and one into the ROB. */
  lemma ReducedPortEdges(dispatchWidth: int, n: nat, retireWidth: int, robSize: string, p: nat)
    requires p in ShownPorts(n)
    ensures Count(Reduced(dispatchWidth, n, retireWidth, robSize), EdgeBetween(WaitingBuffer, Port(p))) == 1
    ensures Count(Reduced(dispatchWidth, n, retireWidth, robSize), EdgeBetween(Port(p), Rob)) == 1
  {
    var shown := ShownPorts(n);
    ShownPortsExactly(n, p);
    var s1, s2, s3, s4 := ReducedPrologue(dispatchWidth), ReducedCluster(n), EdgesFrom(WaitingBuffer, shown), ReducedEllipsisEdge(n);
    var s5, s6, s7 := ReducedMiddle(n, robSize), EdgesTo(shown, Rob), [RetireEdge(retireWidth, None)];
    var inEdge, outEdge := EdgeBetween(WaitingBuffer, Port(p)), EdgeBetween(Port(p), Rob);
    CountSeven(s1, s2, s3, s4, s5, s6, s7, inEdge);
    ReducedFixedSegmentsNoPortEdges(dispatchWidth, n, retireWidth, robSize, inEdge);
    EdgesFromCount(WaitingBuffer, shown, inEdge);
    EdgesToCount(shown, Rob, inEdge);
    CountSeven(s1, s2, s3, s4, s5, s6, s7, outEdge);
    ReducedFixedSegmentsNoPortEdges(dispatchWidth, n, retireWidth, robSize, outEdge);
    EdgesFromCount(WaitingBuffer, shown, outEdge);
    EdgesToCount(shown, Rob, outEdge);
  }

  /** Each shown port is a member of the `rank=same` row. */
  lemma ReducedRowHolds(n: nat, p: nat)
    requires p in ShownPorts(n)
    ensures Port(p) in ReducedRow(n)
  {
    var shown := ShownPorts(n);
    ShownPortsExactly(n, p);
    if n >= 4 {
      assert PortIds([0, 1, 2]) == [Port(0), Port(1), Port(2)];
      assert PortIds([n - 1]) == [Port(n - 1)];
    } else {
      var k :| 0 <= k < |shown| && shown[k] == p;
      assert PortIds(shown)[k] == Port(p);
    }
  }

  /** A rank group of a middle segment stays in the whole. */
  lemma InRankAfter(front: Graph, mid: Graph, back1: Graph, back2: Graph, kind: RankKind, id: NodeId)
    requires InRank(mid, kind, id)
    ensures InRank(front + mid + back1 + back2, kind, id)
  {
    InRankAppend(front, mid, kind, id);
    InRankAppend(front + mid, back1, kind, id);
    InRankAppend(front + mid + back1, back2, kind, id);
  }

  /** A statement of a middle segment stays in the whole. */
  lemma InAfter(front: Graph, mid: Graph, back1: Graph, back2: Graph, s: Stmt)
    requires s in mid
    ensures s in front + mid + back1 + back2
  {
  }

  /** Every shown port sits in the `rank=same` row. */
  lemma ReducedPortRanked(dispatchWidth: int, n: nat, retireWidth: int, robSize: string, p: nat)
    requires p in ShownPorts(n)
    ensures InRank(Reduced(dispatchWidth, n, retireWidth, robSize), Same, Port(p))
  {
    var shown := ShownPorts(n);
    ReducedRowHolds(n, p);
    var front := ReducedPrologue(dispatchWidth) + ReducedCluster(n) + EdgesFrom(WaitingBuffer, shown) + ReducedEllipsisEdge(n);
    var middle := ReducedMiddle(n, robSize);
    assert InRank(middle, Same, Port(p)) by {
      assert middle[1] == Rank(Same, [Fetch, WaitingBuffer] + ReducedRow(n) + [Registers]);
    }
    InRankAfter(front, middle, EdgesTo(shown, Rob), [RetireEdge(retireWidth, None)], Same, Port(p));
  }

  lemma ReducedClusterPortsWithin(n: nat)
    ensures PortsWithin(ReducedCluster(n), ShownPorts(n))
  {
    var c := ReducedCluster(n);
    forall k, i: nat | 0 <= k < |c| && Mentions(c[k], Port(i))
      ensures i in ShownPorts(n)
    {
      if n >= 4 {
        assert i == n - 1 || i == 2 || i == 1 || i == 0;
      }
    }
  }

  lemma ReducedMiddlePortsWithin(n: nat, robSize: string)
    ensures PortsWithin(ReducedMiddle(n, robSize), ShownPorts(n))
  {
    var m := ReducedMiddle(n, robSize);
    forall k, i: nat | 0 <= k < |m| && Mentions(m[k], Port(i))
      ensures i in ShownPorts(n)
    {
      assert k == 1;
      assert Port(i) in ReducedRow(n);
      if n < 4 {
        var j :| 0 <= j < |PortIds(ShownPorts(n))| && PortIds(ShownPorts(n))[j] == Port(i);
      }
    }
  }

  /** Ports appear in the reduced diagram only if they are shown. */
  lemma ReducedPortsWithin(dispatchWidth: int, n: nat, retireWidth: int, robSize: string)
    ensures PortsWithin(Reduced(dispatchWidth, n, retireWidth, robSize), ShownPorts(n))
  {
    var shown := ShownPorts(n);
    var s1, s2, s3, s4 := ReducedPrologue(dispatchWidth), ReducedCluster(n), EdgesFrom(WaitingBuffer, shown), ReducedEllipsisEdge(n);
    var s5, s6, s7 := ReducedMiddle(n, robSize), EdgesTo(shown, Rob), [RetireEdge(retireWidth, None)];
    ReducedClusterPortsWithin(n);
    ReducedMiddlePortsWithin(n, robSize);
    PortsWithinSeven(s1, s2, s3, s4, s5, s6, s7, shown);
  }

  /**
    Port elision: a port appears in the reduced diagram exactly when it is one
    of the shown ports, and then it has one edge from the Waiting Buffer, one
    into the ROB and a place in the `rank=same` row.
  */
  lemma ReducedPorts(dispatchWidth: int, n: nat, retireWidth: int, robSize: string, p: nat)
    ensures var g := Reduced(dispatchWidth, n, retireWidth, robSize);
      && (MentionedIn(g, Port(p)) <==> p in ShownPorts(n))
      && (p in ShownPorts(n) ==>
            && Count(g, EdgeBetween(WaitingBuffer, Port(p))) == 1
            && Count(g, EdgeBetween(Port(p), Rob)) == 1
            && InRank(g, Same, Port(p)))
  {
    var g := Reduced(dispatchWidth, n, retireWidth, robSize);
    ReducedPortsWithin(dispatchWidth, n, retireWidth, robSize);
    if p in ShownPorts(n) {
      ReducedPortEdges(dispatchWidth, n, retireWidth, robSize, p);
      ReducedPortRanked(dispatchWidth, n, retireWidth, robSize, p);
      CountPositive(g, EdgeBetween(WaitingBuffer, Port(p)));
    }
  }

  /** The cluster brackets declare nothing: a cluster declares what its body declares. */
  lemma ClusterBodyDeclares(body: Graph, title: Option<string>)
    ensures DeclaredPorts([OpenCluster] + body + [CloseCluster(title)]) == DeclaredPorts(body)
  {
    DeclaredPortsAppend([OpenCluster] + body, [CloseCluster(title)]);
    DeclaredPortsAppend([OpenCluster], body);
    DeclaredPortsSingle(OpenCluster);
    DeclaredPortsSingle(CloseCluster(title));
  }

  /** From four ports on the cluster body declares P<n-1>, P2, P1, P0: the placeholder is no port. */
  lemma ReducedClusterBodyDeclares(n: nat)
    requires n >= 4
    ensures DeclaredPorts([ClusterNode(Port(n - 1))] + (if n > 4 then [ClusterNode(Ellipsis)] else []) + ClusterNodes([2, 1, 0]))
         == [n - 1, 2, 1, 0]
  {
    var e: Graph := if n > 4 then [ClusterNode(Ellipsis)] else [];
    DeclaredPortsAppend([ClusterNode(Port(n - 1))] + e, ClusterNodes([2, 1, 0]));
    DeclaredPortsAppend([ClusterNode(Port(n - 1))], e);
    DeclaredPortsSingle(ClusterNode(Port(n - 1)));
    DeclaredPortsNone(e);
    ClusterNodesDeclare([2, 1, 0]);
  }

  lemma ReducedClusterDeclares(n: nat)
    ensures DeclaredPorts(ReducedCluster(n)) == if n >= 4 then [n - 1, 2, 1, 0] else Descending(n)
  {
    var body := if n >= 4 then
                  [ClusterNode(Port(n - 1))] + (if n > 4 then [ClusterNode(Ellipsis)] else []) + ClusterNodes([2, 1, 0])
                else ClusterNodes(Descending(n));
    ClusterBodyDeclares(body, None);
    if n >= 4 {
      ReducedClusterBodyDeclares(n);
    } else {
      ClusterNodesDeclare(Descending(n));
    }
  }

  lemma ReducedEndsDeclareNoPorts(dispatchWidth: int, n: nat, retireWidth: int)
    ensures DeclaredPorts(ReducedPrologue(dispatchWidth)) == []
    ensures DeclaredPorts(ReducedEllipsisEdge(n)) == []
    ensures DeclaredPorts([RetireEdge(retireWidth, None)]) == []
  {
    DeclaredPortsNone(ReducedPrologue(dispatchWidth));
    DeclaredPortsNone(ReducedEllipsisEdge(n));
    DeclaredPortsNone([RetireEdge(retireWidth, None)]);
  }

  lemma ReducedEdgesDeclareNoPorts(n: nat, robSize: string)
    ensures DeclaredPorts(EdgesFrom(WaitingBuffer, ShownPorts(n))) == []
    ensures DeclaredPorts(ReducedMiddle(n, robSize)) == []
    ensures DeclaredPorts(EdgesTo(ShownPorts(n), Rob)) == []
  {
    DeclaredPortsNone(EdgesFrom(WaitingBuffer, ShownPorts(n)));
    DeclaredPortsNone(ReducedMiddle(n, robSize));
    DeclaredPortsNone(EdgesTo(ShownPorts(n), Rob));
  }

  /** The reduced diagram declares its ports highest first: P<n-1>, P2, P1, P0, or every port downwards. */
  lemma ReducedDeclarationOrder(dispatchWidth: int, n: nat, retireWidth: int, robSize: string)
    ensures DeclaredPorts(Reduced(dispatchWidth, n, retireWidth, robSize))
         == if n >= 4 then [n - 1, 2, 1, 0] else Descending(n)
  {
    var shown := ShownPorts(n);
    ReducedEndsDeclareNoPorts(dispatchWidth, n, retireWidth);
    ReducedEdgesDeclareNoPorts(n, robSize);
    ReducedClusterDeclares(n);
    DeclaredPortsOnlySecond(ReducedPrologue(dispatchWidth), ReducedCluster(n), EdgesFrom(WaitingBuffer, shown), ReducedEllipsisEdge(n),
      ReducedMiddle(n, robSize), EdgesTo(shown, Rob), [RetireEdge(retireWidth, None)]);
  }

  lemma ReducedEllipsisSegments(dispatchWidth: int, n: nat, retireWidth: int, robSize: string, p: Pattern)
    requires Involves(p, Ellipsis) && !Involves(p, Port(0)) && !Involves(p, Port(1))
    ensures Count(ReducedPrologue(dispatchWidth), p) == 0
    ensures Count(EdgesFrom(WaitingBuffer, ShownPorts(n)), p) == 0
    ensures Count(ReducedMiddle(n, robSize), p) == 0
    ensures Count(EdgesTo(ShownPorts(n), Rob), p) == 0
    ensures Count([RetireEdge(retireWidth, None)], p) == 0
  {
    CountNone(ReducedPrologue(dispatchWidth), p);
    CountNone(EdgesFrom(WaitingBuffer, ShownPorts(n)), p);
    CountNone(ReducedMiddle(n, robSize), p);
    CountNone(EdgesTo(ShownPorts(n), Rob), p);
    CountNone([RetireEdge(retireWidth, None)], p);
  }

  lemma MentionedInSeven(s1: Graph, s2: Graph, s3: Graph, s4: Graph, s5: Graph, s6: Graph, s7: Graph, id: NodeId)
    ensures MentionedIn(s1 + s2 + s3 + s4 + s5 + s6 + s7, id)
        <==> (|| MentionedIn(s1, id) || MentionedIn(s2, id) || MentionedIn(s3, id) || MentionedIn(s4, id)
              || MentionedIn(s5, id) || MentionedIn(s6, id) || MentionedIn(s7, id))
  {
    MentionedInAppend(s1, s2, id);
    MentionedInAppend(s1 + s2, s3, id);
    MentionedInAppend(s1 + s2 + s3, s4, id);
    MentionedInAppend(s1 + s2 + s3 + s4, s5, id);
    MentionedInAppend(s1 + s2 + s3 + s4 + s5, s6, id);
    MentionedInAppend(s1 + s2 + s3 + s4 + s5 + s6, s7, id);
  }

  /** With at most four ports, no segment of the reduced diagram names the placeholder. */
  lemma ReducedSegmentsNoEllipsis(dispatchWidth: int, n: nat, retireWidth: int, robSize: string)
    requires n <= 4
    ensures !MentionedIn(ReducedPrologue(dispatchWidth), Ellipsis)
    ensures !MentionedIn(ReducedCluster(n), Ellipsis)
    ensures !MentionedIn(EdgesFrom(WaitingBuffer, ShownPorts(n)), Ellipsis)
    ensures !MentionedIn(ReducedEllipsisEdge(n), Ellipsis)
    ensures !MentionedIn(ReducedMiddle(n, robSize), Ellipsis)
    ensures !MentionedIn(EdgesTo(ShownPorts(n), Rob), Ellipsis)
    ensures !MentionedIn([RetireEdge(retireWidth, None)], Ellipsis)
  {
    var c := ReducedCluster(n);
    forall k | 0 <= k < |c| ensures !Mentions(c[k], Ellipsis) {
    }
    assert Ellipsis !in ReducedRow(n);
  }

  /** With at most four ports, the reduced diagram never names the placeholder. */
  lemma ReducedNoEllipsis(dispatchWidth: int, n: nat, retireWidth: int, robSize: string)
    requires n <= 4
    ensures !MentionedIn(Reduced(dispatchWidth, n, retireWidth, robSize), Ellipsis)
  {
    var shown := ShownPorts(n);
    ReducedSegmentsNoEllipsis(dispatchWidth, n, retireWidth, robSize);
    MentionedInSeven(ReducedPrologue(dispatchWidth), ReducedCluster(n), EdgesFrom(WaitingBuffer, shown), ReducedEllipsisEdge(n),
      ReducedMiddle(n, robSize), EdgesTo(shown, Rob), [RetireEdge(retireWidth, None)], Ellipsis);
  }

  /**
    The "..." placeholder is declared, and joined to the Waiting Buffer by one
    edge, the invisible `EllipsisEdge`, exactly when there are more than four ports.
  */
  lemma ReducedEllipsis(dispatchWidth: int, n: nat, retireWidth: int, robSize: string)
    ensures var g := Reduced(dispatchWidth, n, retireWidth, robSize);
      && (MentionedIn(g, Ellipsis) <==> n > 4)
      && Count(g, DeclOf(Ellipsis)) == (if n > 4 then 1 else 0)
      && Count(g, EdgeBetween(WaitingBuffer, Ellipsis)) == (if n > 4 then 1 else 0)
      && (EllipsisEdge in g <==> n > 4) && !EllipsisEdge.edge.visible
  {
    var g := Reduced(dispatchWidth, n, retireWidth, robSize);
    var decl, edge := DeclOf(Ellipsis), EdgeBetween(WaitingBuffer, Ellipsis);
    ReducedEllipsisCount(dispatchWidth, n, retireWidth, robSize, decl);
    ReducedEllipsisCount(dispatchWidth, n, retireWidth, robSize, edge);
    if n > 4 {
      CountPositive(g, decl);
      var front := ReducedPrologue(dispatchWidth) + ReducedCluster(n) + EdgesFrom(WaitingBuffer, ShownPorts(n));
      assert g[|front|] == EllipsisEdge;
    } else {
      if EllipsisEdge in g {
        var k :| 0 <= k < |g| && g[k] == EllipsisEdge;
        assert Mentions(g[k], Ellipsis);
      }
      ReducedNoEllipsis(dispatchWidth, n, retireWidth, robSize);
    }
  }

  /** The cluster declares the placeholder once from five ports on, and holds no edge. */
  lemma ReducedClusterEllipsis(n: nat)
    ensures Count(ReducedCluster(n), DeclOf(Ellipsis)) == (if n > 4 then 1 else 0)
    ensures Count(ReducedCluster(n), EdgeBetween(WaitingBuffer, Ellipsis)) == 0
  {
    var c := ReducedCluster(n);
    if n > 4 {
      CountUnique(c, DeclOf(Ellipsis), 2);
    } else {
      CountNone(c, DeclOf(Ellipsis));
    }
    forall k | 0 <= k < |c| ensures !c[k].Edge? {
    }
    CountNone(c, EdgeBetween(WaitingBuffer, Ellipsis));
  }

  /** The placeholder's own segment is its one edge from five ports on, and declares nothing. */
  lemma ReducedEllipsisEdgeSegment(n: nat)
    ensures Count(ReducedEllipsisEdge(n), DeclOf(Ellipsis)) == 0
    ensures Count(ReducedEllipsisEdge(n), EdgeBetween(WaitingBuffer, Ellipsis)) == (if n > 4 then 1 else 0)
  {
    var e := ReducedEllipsisEdge(n);
    CountNone(e, DeclOf(Ellipsis));
    if n > 4 {
      CountUnique(e, EdgeBetween(WaitingBuffer, Ellipsis), 0);
    } else {
      CountNone(e, EdgeBetween(WaitingBuffer, Ellipsis));
    }
  }

  /** Only the cluster declares the placeholder and only its own edge joins it, both present from five ports on. */
  lemma ReducedEllipsisCount(dispatchWidth: int, n: nat, retireWidth: int, robSize: string, p: Pattern)
    requires p == DeclOf(Ellipsis) || p == EdgeBetween(WaitingBuffer, Ellipsis)
    ensures Count(Reduced(dispatchWidth, n, retireWidth, robSize), p) == if n > 4 then 1 else 0
  {
    var shown := ShownPorts(n);
    var s1, s2, s3, s4 := ReducedPrologue(dispatchWidth), ReducedCluster(n), EdgesFrom(WaitingBuffer, shown), ReducedEllipsisEdge(n);
    var s5, s6, s7 := ReducedMiddle(n, robSize), EdgesTo(shown, Rob), [RetireEdge(retireWidth, None)];
    CountSeven(s1, s2, s3, s4, s5, s6, s7, p);
    ReducedEllipsisSegments(dispatchWidth, n, retireWidth, robSize, p);
    ReducedClusterEllipsis(n);
    ReducedEllipsisEdgeSegment(n);
  }

  /** An index into the first of seven segments. */
  lemma IndexFirstOfSeven(s1: Graph, s2: Graph, s3: Graph, s4: Graph, s5: Graph, s6: Graph, s7: Graph, i: nat)
    requires i < |s1|
    ensures var g := s1 + s2 + s3 + s4 + s5 + s6 + s7; i < |g| && g[i] == s1[i]
  {
  }

  /** The last statement of seven segments ending in a single one. */
  lemma LastOfSeven(s1: Graph, s2: Graph, s3: Graph, s4: Graph, s5: Graph, s6: Graph, s: Stmt)
    ensures var g := s1 + s2 + s3 + s4 + s5 + s6 + [s]; g[|g| - 1] == s
  {
  }

  /** The ROB is declared with its size and pinned to the sink rank. */
  lemma ReducedRob(dispatchWidth: int, n: nat, retireWidth: int, robSize: string)
    ensures var g := Reduced(dispatchWidth, n, retireWidth, robSize);
      InRank(g, Sink, Rob) && RobDecl(robSize) in g
  {
    var shown := ShownPorts(n);
    var front := ReducedPrologue(dispatchWidth) + ReducedCluster(n) + EdgesFrom(WaitingBuffer, shown) + ReducedEllipsisEdge(n);
    var s5 := ReducedMiddle(n, robSize);
    assert s5[3] == RobSink && s5[2] == RobDecl(robSize);
    InRankAfter(front, s5, EdgesTo(shown, Rob), [RetireEdge(retireWidth, None)], Sink, Rob);
    InAfter(front, s5, EdgesTo(shown, Rob), [RetireEdge(retireWidth, None)], RobDecl(robSize));
  }

  /**
    The stage labels carry the literal widths and no usage, the ROB is labelled
    with its size and pinned to the sink rank.
  */
  lemma ReducedStages(dispatchWidth: int, n: nat, retireWidth: int, robSize: string)
    ensures var g := Reduced(dispatchWidth, n, retireWidth, robSize);
      && g[2].Edge? && g[2].edge.from == Fetch && g[2].edge.to == WaitingBuffer
      && g[2].edge.caption == StageLabel(Dispatch, dispatchWidth, None)
      && g[|g| - 1].Edge? && g[|g| - 1].edge.from == Rob && g[|g| - 1].edge.to == Registers
      && g[|g| - 1].edge.caption == StageLabel(Retire, retireWidth, None)
      && InRank(g, Sink, Rob)
      && RobDecl(robSize) in g
  {
    var shown := ShownPorts(n);
    var s1, s2, s3, s4 := ReducedPrologue(dispatchWidth), ReducedCluster(n), EdgesFrom(WaitingBuffer, shown), ReducedEllipsisEdge(n);
    var s5, s6 := ReducedMiddle(n, robSize), EdgesTo(shown, Rob);
    IndexFirstOfSeven(s1, s2, s3, s4, s5, s6, [RetireEdge(retireWidth, None)], 2);
    LastOfSeven(s1, s2, s3, s4, s5, s6, RetireEdge(retireWidth, None));
    ReducedRob(dispatchWidth, n, retireWidth, robSize);
  }

  // ---------------------------------------------------------------------------
  // The full diagram
  // ---------------------------------------------------------------------------

  /**
    Why `construct_full_processor_dot` throws: `usage` left at its `null`
    default (read at `usage.dispatch`), or a port whose usage is `undefined`
    (read at `toFixed`).
  */
  datatype DiagramError = NullUsage | UndefinedPortUsage

  /** Every port below `n` has a usage value. */
  predicate AllPortsKnown(u: UsageSample, n: nat)
  {
    forall i :: 0 <= i < n ==> PortUsage(u, i).Some?
  }

  /**
    A port of the full diagram: filled with its gradient colour unless its
    usage is exactly zero. Its tooltip is the usage (the literal "0.0%" of the
    unfilled branch is the same text as a zero usage printed to one decimal).
  */
  function FullPortDecl(i: nat, usage: real): NodeDecl
  {
    NodeDecl(Port(i), Box3d, OwnName, true, if usage != 0.0 then Some(UsageColor(usage)) else None, Some(usage))
  }

  /** One iteration of the port loop: the port, then its edge from the Waiting Buffer. */
  function FullPortPair(i: nat, usage: real): Graph
  {
    [Node(FullPortDecl(i, usage)), PlainEdge(WaitingBuffer, Port(i))]
  }

  /** The port loop over `ports`, in order. */
  function FullPortBlock(ports: seq<nat>, u: UsageSample): Graph
    requires forall k :: 0 <= k < |ports| ==> PortUsage(u, ports[k]).Some?
    decreases |ports|
  {
    if ports == [] then []
    else
      var last := ports[|ports| - 1];
      FullPortBlock(ports[..|ports| - 1], u) + FullPortPair(last, PortUsage(u, last).value)
  }

  function FullPrologue(dispatchWidth: int, u: UsageSample): Graph
  {
    [FetchPoint, DispatchEdge(dispatchWidth, Some(StageAnnotation(u.dispatch))), WaitingBufferDecl]
  }

  function FullCluster(n: nat, u: UsageSample): Graph
    requires AllPortsKnown(u, n)
  {
    DescendingFacts(n);
    [OpenCluster] + FullPortBlock(Descending(n), u) + [CloseCluster(Some("Execute"))]
  }

  function FullMiddle(n: nat, robSize: string): Graph
  {
    [RegistersDecl, Rank(Same, [Fetch, WaitingBuffer] + PortIds(Ascending(n)) + [Registers]),
     RobDecl(robSize), RobSink, PlainEdge(Fetch, Rob)]
  }

  /** The full diagram when it is drawn. */
  function FullGraph(dispatchWidth: int, n: nat, retireWidth: int, robSize: string, u: UsageSample): Graph
    requires AllPortsKnown(u, n)
  {
    FullPrologue(dispatchWidth, u)
    + FullCluster(n, u)
    + FullMiddle(n, robSize)
    + EdgesTo(Ascending(n), Rob)
    + [RetireEdge(retireWidth, Some(StageAnnotation(u.retire)))]
  }

  /** `construct_full_processor_dot`: the diagram, or the exception it throws. */
  function Full(dispatchWidth: int, n: nat, retireWidth: int, robSize: string, usage: Option<UsageSample>)
    : Result<Graph, DiagramError>
  {
    if usage.None? then Failure(NullUsage)
    else if !AllPortsKnown(usage.value, n) then Failure(UndefinedPortUsage)
    else Success(FullGraph(dispatchWidth, n, retireWidth, robSize, usage.value))
  }

  /** The port loop `for (let i = num_ports-1; i >= 0; i--)`, stopping at the first `undefined` usage. */
  method FullPortLoop(u: UsageSample, numPorts: nat) returns (r: Result<Graph, DiagramError>)
    ensures AllPortsKnown(u, numPorts) ==> (DescendingFacts(numPorts); r == Success(FullPortBlock(Descending(numPorts), u)))
    ensures !AllPortsKnown(u, numPorts) ==> r == Failure(UndefinedPortUsage)
  {
    DescendingFacts(numPorts);
    var block: Graph := [];
    var i: int := numPorts - 1;
    while i >= 0
      invariant -1 <= i < numPorts
      invariant forall j :: i < j < numPorts ==> PortUsage(u, j).Some?
      invariant block == FullPortBlock(Descending(numPorts)[..numPorts - 1 - i], u)
    {
      var v := PortUsage(u, i);
      if v.None? {
        return Failure(UndefinedPortUsage);
      }
      var done := Descending(numPorts)[..numPorts - 1 - i];
      assert Descending(numPorts)[..numPorts - i] == done + [i];
      assert (done + [i])[..|done|] == done;
      block := block + FullPortPair(i, v.value);
      i := i - 1;
    }
    assert Descending(numPorts)[..numPorts] == Descending(numPorts);
    r := Success(block);
  }

  /**
    `construct_full_processor_dot(dispatch_width, num_ports, retire_width, usage)`
    with the ROB size read from the page passed as `robSize`.
  */
  method BuildFull(dispatchWidth: int, numPorts: nat, retireWidth: int, robSize: string, usage: Option<UsageSample>)
    returns (r: Result<Graph, DiagramError>)
    ensures r == Full(dispatchWidth, numPorts, retireWidth, robSize, usage)
  {
    if usage.None? {
      return Failure(NullUsage);
    }
    var u := usage.value;
    var g := FullPrologue(dispatchWidth, u);
    var block := FullPortLoop(u, numPorts);
    if block.Failure? {
      return block;
    }
    g := g + ([OpenCluster] + block.value + [CloseCluster(Some("Execute"))]);
    g := g + FullMiddle(numPorts, robSize);
    g := AppendPortEdges(g, Ascending(numPorts), true);
    g := g + [RetireEdge(retireWidth, Some(StageAnnotation(u.retire)))];
    assert g == FullGraph(dispatchWidth, numPorts, retireWidth, robSize, u);
    r := Success(g);
  }

  // ---------------------------------------------------------------------------
  // Properties of the full diagram
  // ---------------------------------------------------------------------------

  /** The full diagram throws exactly when usage is `null` or some port's usage is `undefined`. */
  lemma FullFailsExactly(dispatchWidth: int, n: nat, retireWidth: int, robSize: string, usage: Option<UsageSample>)
    ensures var r := Full(dispatchWidth, n, retireWidth, robSize, usage);
      && (r == Failure(NullUsage) <==> usage.None?)
      && (r == Failure(UndefinedPortUsage) <==> usage.Some? && exists i :: 0 <= i < n && PortUsage(usage.value, i).None?)
  {
  }

  /** The port loop declares the ports of the list, in order. */
  lemma {:induction false} FullPortBlockDeclares(ports: seq<nat>, u: UsageSample)
    requires forall k :: 0 <= k < |ports| ==> PortUsage(u, ports[k]).Some?
    ensures DeclaredPorts(FullPortBlock(ports, u)) == ports
    decreases |ports|
  {
    if ports != [] {
      var init, last := ports[..|ports| - 1], ports[|ports| - 1];
      var pair := FullPortPair(last, PortUsage(u, last).value);
      FullPortBlockDeclares(init, u);
      DeclaredPortsAppend(FullPortBlock(init, u), pair);
      assert DeclaredPorts(pair) == [last] by {
        assert pair == [pair[0]] + [pair[1]];
        DeclaredPortsAppend([pair[0]], [pair[1]]);
        DeclaredPortsSingle(pair[0]);
        DeclaredPortsSingle(pair[1]);
      }
      assert ports == init + [last];
    }
  }

  /** One iteration of the port loop declares its own port and nothing else. */
  lemma FullPortPairDecls(i: nat, v: real, p: nat)
    ensures DeclsOf(FullPortPair(i, v), Port(p)) == if p == i then [FullPortDecl(i, v)] else []
  {
    var pair := FullPortPair(i, v);
    assert pair == [pair[0]] + [pair[1]];
    DeclsOfAppend([pair[0]], [pair[1]], Port(p));
    DeclsOfSingle(pair[0], Port(p));
    DeclsOfSingle(pair[1], Port(p));
  }

  /** Dropping the last element of a list of distinct elements keeps them distinct and drops the last for good. */
  lemma DistinctInit(ports: seq<nat>)
    requires Distinct(ports) && ports != []
    ensures var init, last := ports[..|ports| - 1], ports[|ports| - 1];
      Distinct(init) && last !in init && ports == init + [last]
      && forall x :: x in ports <==> x in init || x == last
  {
    var init, last := ports[..|ports| - 1], ports[|ports| - 1];
    assert ports == init + [last];
  }

  /** In the port loop over distinct ports, a listed port is declared once, from its usage. */
  lemma {:induction false} FullPortBlockDecls(ports: seq<nat>, u: UsageSample, p: nat)
    requires Distinct(ports)
    requires forall k :: 0 <= k < |ports| ==> PortUsage(u, ports[k]).Some?
    ensures DeclsOf(FullPortBlock(ports, u), Port(p))
         == if p in ports then [FullPortDecl(p, PortUsage(u, p).value)] else []
    decreases |ports|
  {
    if ports != [] {
      var init, last := ports[..|ports| - 1], ports[|ports| - 1];
      var v := PortUsage(u, last).value;
      DistinctInit(ports);
      assert forall k :: 0 <= k < |init| ==> init[k] == ports[k];
      FullPortBlockDecls(init, u, p);
      assert FullPortBlock(ports, u) == FullPortBlock(init, u) + FullPortPair(last, v);
      DeclsOfAppend(FullPortBlock(init, u), FullPortPair(last, v), Port(p));
      FullPortPairDecls(last, v, p);
    }
  }

  /** In the port loop over distinct ports, a listed port has one edge from the Waiting Buffer. */
  lemma {:induction false} FullPortBlockEdges(ports: seq<nat>, u: UsageSample, p: nat)
    requires Distinct(ports)
    requires forall k :: 0 <= k < |ports| ==> PortUsage(u, ports[k]).Some?
    ensures Count(FullPortBlock(ports, u), EdgeBetween(WaitingBuffer, Port(p))) == if p in ports then 1 else 0
    decreases |ports|
  {
    var e := EdgeBetween(WaitingBuffer, Port(p));
    if ports != [] {
      var init, last := ports[..|ports| - 1], ports[|ports| - 1];
      var pair := FullPortPair(last, PortUsage(u, last).value);
      FullPortBlockEdges(init, u, p);
      CountAppend(FullPortBlock(init, u), pair, e);
      if p == last {
        CountUnique(pair, e, 1);
      } else {
        CountNone(pair, e);
      }
      assert ports == init + [last];
      assert last !in init;
    } else {
      CountNone(FullPortBlock(ports, u), e);
    }
  }

  /** A statement the port loop over `ports` can emit. */
  predicate PortLoopStmt(s: Stmt, ports: seq<nat>)
  {
    || (s.Node? && s.decl.id.Port? && s.decl.id.index in ports)
    || (s.Edge? && s.edge.from == WaitingBuffer && s.edge.to.Port? && s.edge.to.index in ports)
  }

  lemma {:induction false} FullPortBlockShape(ports: seq<nat>, u: UsageSample)
    requires forall k :: 0 <= k < |ports| ==> PortUsage(u, ports[k]).Some?
    ensures forall k :: 0 <= k < |FullPortBlock(ports, u)| ==> PortLoopStmt(FullPortBlock(ports, u)[k], ports)
    decreases |ports|
  {
    if ports != [] {
      var init, last := ports[..|ports| - 1], ports[|ports| - 1];
      var a, pair := FullPortBlock(init, u), FullPortPair(last, PortUsage(u, last).value);
      FullPortBlockShape(init, u);
      assert ports == init + [last];
      forall k | 0 <= k < |a + pair|
        ensures PortLoopStmt((a + pair)[k], ports)
      {
        if k < |a| {
          assert PortLoopStmt(a[k], init);
        }
      }
    }
  }

  /** The port loop mentions only listed ports, never the placeholder, and has no edge into the ROB. */
  lemma FullPortBlockMentions(ports: seq<nat>, u: UsageSample, p: nat)
    requires forall k :: 0 <= k < |ports| ==> PortUsage(u, ports[k]).Some?
    ensures PortsWithin(FullPortBlock(ports, u), ports)
    ensures !MentionedIn(FullPortBlock(ports, u), Ellipsis)
    ensures Count(FullPortBlock(ports, u), EdgeBetween(Port(p), Rob)) == 0
  {
    var b := FullPortBlock(ports, u);
    FullPortBlockShape(ports, u);
    forall k, i: nat | 0 <= k < |b| && Mentions(b[k], Port(i))
      ensures i in ports
    {
      assert PortLoopStmt(b[k], ports);
    }
    forall k | 0 <= k < |b|
      ensures !Mentions(b[k], Ellipsis) && !Matches(b[k], EdgeBetween(Port(p), Rob))
    {
      assert PortLoopStmt(b[k], ports);
    }
    CountNone(b, EdgeBetween(Port(p), Rob));
  }

  /** Counting in the full diagram is counting in each of its segments. */
  lemma FullCount(dispatchWidth: int, n: nat, retireWidth: int, robSize: string, u: UsageSample, p: Pattern)
    requires AllPortsKnown(u, n)
    ensures Count(FullGraph(dispatchWidth, n, retireWidth, robSize, u), p)
         == Count(FullPrologue(dispatchWidth, u), p) + Count(FullCluster(n, u), p) + Count(FullMiddle(n, robSize), p)
          + Count(EdgesTo(Ascending(n), Rob), p) + Count([RetireEdge(retireWidth, Some(StageAnnotation(u.retire)))], p)
  {
    var s1, s2, s3 := FullPrologue(dispatchWidth, u), FullCluster(n, u), FullMiddle(n, robSize);
    var s4, s5 := EdgesTo(Ascending(n), Rob), [RetireEdge(retireWidth, Some(StageAnnotation(u.retire)))];
    CountAppend(s1, s2, p);
    CountAppend(s1 + s2, s3, p);
    CountAppend(s1 + s2 + s3, s4, p);
    CountAppend(s1 + s2 + s3 + s4, s5, p);
  }

  /** The cluster of the full diagram is its port loop between two markers. */
  lemma FullClusterFacts(n: nat, u: UsageSample, p: nat)
    requires AllPortsKnown(u, n)
    ensures var c := FullCluster(n, u);
      && DeclaredPorts(c) == Descending(n)
      && DeclsOf(c, Port(p)) == (if p < n then [FullPortDecl(p, PortUsage(u, p).value)] else [])
      && Count(c, EdgeBetween(WaitingBuffer, Port(p))) == (if p < n then 1 else 0)
      && Count(c, EdgeBetween(Port(p), Rob)) == 0
      && PortsWithin(c, Ascending(n))
      && !MentionedIn(c, Ellipsis)
  {
    FullClusterDecls(n, u, p);
    FullClusterEdges(n, u, p, EdgeBetween(WaitingBuffer, Port(p)));
    FullClusterEdges(n, u, p, EdgeBetween(Port(p), Rob));
    FullClusterMentions(n, u);
  }

  lemma ClusterBodyDecls(body: Graph, title: Option<string>, id: NodeId)
    ensures DeclsOf([OpenCluster] + body + [CloseCluster(title)], id) == DeclsOf(body, id)
  {
    DeclsOfAppend([OpenCluster] + body, [CloseCluster(title)], id);
    DeclsOfAppend([OpenCluster], body, id);
    DeclsOfSingle(OpenCluster, id);
    DeclsOfSingle(CloseCluster(title), id);
  }

  lemma FullClusterDecls(n: nat, u: UsageSample, p: nat)
    requires AllPortsKnown(u, n)
    ensures DeclaredPorts(FullCluster(n, u)) == Descending(n)
    ensures DeclsOf(FullCluster(n, u), Port(p)) == (if p < n then [FullPortDecl(p, PortUsage(u, p).value)] else [])
  {
    DescendingFacts(n);
    var b := FullPortBlock(Descending(n), u);
    FullPortBlockDeclares(Descending(n), u);
    FullPortBlockDecls(Descending(n), u, p);
    ClusterBodyDeclares(b, Some("Execute"));
    ClusterBodyDecls(b, Some("Execute"), Port(p));
  }

  lemma FullClusterEdges(n: nat, u: UsageSample, p: nat, e: Pattern)
    requires AllPortsKnown(u, n)
    requires e == EdgeBetween(WaitingBuffer, Port(p)) || e == EdgeBetween(Port(p), Rob)
    ensures Count(FullCluster(n, u), e) == if e.from == WaitingBuffer && p < n then 1 else 0
  {
    DescendingFacts(n);
    var b := FullPortBlock(Descending(n), u);
    FullPortBlockEdges(Descending(n), u, p);
    FullPortBlockMentions(Descending(n), u, p);
    var open, close := [OpenCluster], [CloseCluster(Some("Execute"))];
    CountAppend(open + b, close, e);
    CountAppend(open, b, e);
    CountNone(open, e);
    CountNone(close, e);
  }

  lemma FullClusterMentions(n: nat, u: UsageSample)
    requires AllPortsKnown(u, n)
    ensures PortsWithin(FullCluster(n, u), Ascending(n))
    ensures !MentionedIn(FullCluster(n, u), Ellipsis)
  {
    DescendingFacts(n);
    AscendingFacts(n);
    var b := FullPortBlock(Descending(n), u);
    FullPortBlockMentions(Descending(n), u, 0);
    var open, close := [OpenCluster], [CloseCluster(Some("Execute"))];
    assert PortsWithin(b, Ascending(n)) by {
      forall k, i: nat | 0 <= k < |b| && Mentions(b[k], Port(i))
        ensures i in Ascending(n)
      {
        assert i in Descending(n);
      }
    }
    PortsWithinAppend(open, b, Ascending(n));
    PortsWithinAppend(open + b, close, Ascending(n));
    MentionedInAppend(open, b, Ellipsis);
    MentionedInAppend(open + b, close, Ellipsis);
  }

  /** The prologue and the retire edge declare no port and touch no port. */
  lemma FullEndsFacts(dispatchWidth: int, retireWidth: int, u: UsageSample, p: nat)
    ensures var s1, s5 := FullPrologue(dispatchWidth, u), [RetireEdge(retireWidth, Some(StageAnnotation(u.retire)))];
      && DeclaredPorts(s1) == [] && DeclaredPorts(s5) == []
      && DeclsOf(s1, Port(p)) == [] && DeclsOf(s5, Port(p)) == []
      && !MentionedIn(s1, Port(p)) && !MentionedIn(s5, Port(p))
      && !MentionedIn(s1, Ellipsis) && !MentionedIn(s5, Ellipsis)
  {
    var s1, s5 := FullPrologue(dispatchWidth, u), [RetireEdge(retireWidth, Some(StageAnnotation(u.retire)))];
    DeclaredPortsNone(s1);
    DeclaredPortsNone(s5);
    DeclsOfNone(s1, Port(p));
    DeclsOfNone(s5, Port(p));
  }

  /** The row, ROB and Fetch edge of the full diagram declare no port and name only existing ports. */
  lemma FullMiddleFacts(n: nat, robSize: string, p: nat)
    ensures var s3 := FullMiddle(n, robSize);
      && DeclaredPorts(s3) == [] && DeclsOf(s3, Port(p)) == []
      && Count(s3, EdgeBetween(WaitingBuffer, Port(p))) == 0 && Count(s3, EdgeBetween(Port(p), Rob)) == 0
      && PortsWithin(s3, Ascending(n)) && !MentionedIn(s3, Ellipsis)
  {
    var s3 := FullMiddle(n, robSize);
    DeclaredPortsNone(s3);
    DeclsOfNone(s3, Port(p));
    CountNone(s3, EdgeBetween(WaitingBuffer, Port(p)));
    CountNone(s3, EdgeBetween(Port(p), Rob));
    FullMiddleMentions(n, robSize);
  }

  lemma FullMiddleMentions(n: nat, robSize: string)
    ensures PortsWithin(FullMiddle(n, robSize), Ascending(n)) && !MentionedIn(FullMiddle(n, robSize), Ellipsis)
  {
    var s3 := FullMiddle(n, robSize);
    AscendingFacts(n);
    forall k, i: nat | 0 <= k < |s3| && Mentions(s3[k], Port(i))
      ensures i in Ascending(n)
    {
      assert k == 1;
      var j :| 0 <= j < |PortIds(Ascending(n))| && PortIds(Ascending(n))[j] == Port(i);
    }
    assert Ellipsis !in PortIds(Ascending(n));
  }

  /** The edges into the ROB: one per port, declaring nothing. */
  lemma FullRobEdgesFacts(n: nat, p: nat)
    ensures var s4 := EdgesTo(Ascending(n), Rob);
      && DeclaredPorts(s4) == [] && DeclsOf(s4, Port(p)) == []
      && Count(s4, EdgeBetween(WaitingBuffer, Port(p))) == 0
      && Count(s4, EdgeBetween(Port(p), Rob)) == (if p < n then 1 else 0)
      && PortsWithin(s4, Ascending(n)) && !MentionedIn(s4, Ellipsis)
  {
    var s4 := EdgesTo(Ascending(n), Rob);
    AscendingFacts(n);
    DeclaredPortsNone(s4);
    DeclsOfNone(s4, Port(p));
    EdgesToCount(Ascending(n), Rob, EdgeBetween(WaitingBuffer, Port(p)));
    EdgesToCount(Ascending(n), Rob, EdgeBetween(Port(p), Rob));
  }

  /**
    Every port of the full diagram is drawn, with one edge from the Waiting
    Buffer, one into the ROB and a place in the `rank=same` row; its one
    declaration is a box3d, unfilled exactly when its usage is zero, filled
    with the gradient colour otherwise, and its tooltip is its usage.
  */
  lemma FullPorts(dispatchWidth: int, n: nat, retireWidth: int, robSize: string, u: UsageSample, p: nat)
    requires AllPortsKnown(u, n)
    ensures var g := FullGraph(dispatchWidth, n, retireWidth, robSize, u);
      && (MentionedIn(g, Port(p)) <==> p < n)
      && (p < n ==>
            && Count(g, EdgeBetween(WaitingBuffer, Port(p))) == 1
            && Count(g, EdgeBetween(Port(p), Rob)) == 1
            && InRank(g, Same, Port(p))
            && |DeclsOf(g, Port(p))| == 1
            && var d, v := DeclsOf(g, Port(p))[0], PortUsage(u, p).value;
               && d.shape == Box3d && d.visible
               && (d.fill.None? <==> v == 0.0)
               && (v != 0.0 ==> d.fill == Some(UsageColor(v)))
               && d.tooltip == Some(v))
  {
    var g := FullGraph(dispatchWidth, n, retireWidth, robSize, u);
    FullPortsDecls(dispatchWidth, n, retireWidth, robSize, u, p);
    FullPortsCounts(dispatchWidth, n, retireWidth, robSize, u, p);
    FullPortsWithin(dispatchWidth, n, retireWidth, robSize, u, p);
    if p < n {
      CountPositive(g, EdgeBetween(WaitingBuffer, Port(p)));
      var s1, s2, s3 := FullPrologue(dispatchWidth, u), FullCluster(n, u), FullMiddle(n, robSize);
      var s4, s5 := EdgesTo(Ascending(n), Rob), [RetireEdge(retireWidth, Some(StageAnnotation(u.retire)))];
      assert Port(p) in PortIds(Ascending(n)) by {
        assert PortIds(Ascending(n))[p] == Port(p);
      }
      assert InRank(s3, Same, Port(p)) by {
        assert s3[1] == Rank(Same, [Fetch, WaitingBuffer] + PortIds(Ascending(n)) + [Registers]);
      }
      InRankAppend(s1 + s2, s3, Same, Port(p));
      InRankAppend(s1 + s2 + s3, s4, Same, Port(p));
      InRankAppend(s1 + s2 + s3 + s4, s5, Same, Port(p));
    }
  }

  lemma FullPortsDecls(dispatchWidth: int, n: nat, retireWidth: int, robSize: string, u: UsageSample, p: nat)
    requires AllPortsKnown(u, n)
    ensures DeclsOf(FullGraph(dispatchWidth, n, retireWidth, robSize, u), Port(p))
         == if p < n then [FullPortDecl(p, PortUsage(u, p).value)] else []
  {
    var s1, s2, s3 := FullPrologue(dispatchWidth, u), FullCluster(n, u), FullMiddle(n, robSize);
    var s4, s5 := EdgesTo(Ascending(n), Rob), [RetireEdge(retireWidth, Some(StageAnnotation(u.retire)))];
    FullSegmentsFacts(dispatchWidth, n, retireWidth, robSize, u, p);
    DeclsOfAppend(s1, s2, Port(p));
    DeclsOfAppend(s1 + s2, s3, Port(p));
    DeclsOfAppend(s1 + s2 + s3, s4, Port(p));
    DeclsOfAppend(s1 + s2 + s3 + s4, s5, Port(p));
  }

  /** An edge between the Waiting Buffer and a port, or between a port and the ROB, occurs once per drawn port. */
  lemma FullPortCount(dispatchWidth: int, n: nat, retireWidth: int, robSize: string, u: UsageSample, p: nat, e: Pattern)
    requires AllPortsKnown(u, n)
    requires e == EdgeBetween(WaitingBuffer, Port(p)) || e == EdgeBetween(Port(p), Rob)
    ensures Count(FullGraph(dispatchWidth, n, retireWidth, robSize, u), e) == if p < n then 1 else 0
  {
    FullCount(dispatchWidth, n, retireWidth, robSize, u, e);
    FullEndsFacts(dispatchWidth, retireWidth, u, p);
    CountAbsent(FullPrologue(dispatchWidth, u), e, Port(p));
    CountAbsent([RetireEdge(retireWidth, Some(StageAnnotation(u.retire)))], e, Port(p));
    FullClusterEdges(n, u, p, e);
    FullMiddleFacts(n, robSize, p);
    FullRobEdgesFacts(n, p);
  }

  lemma FullPortsCounts(dispatchWidth: int, n: nat, retireWidth: int, robSize: string, u: UsageSample, p: nat)
    requires AllPortsKnown(u, n)
    ensures Count(FullGraph(dispatchWidth, n, retireWidth, robSize, u), EdgeBetween(WaitingBuffer, Port(p)))
         == if p < n then 1 else 0
    ensures Count(FullGraph(dispatchWidth, n, retireWidth, robSize, u), EdgeBetween(Port(p), Rob))
         == if p < n then 1 else 0
  {
    FullPortCount(dispatchWidth, n, retireWidth, robSize, u, p, EdgeBetween(WaitingBuffer, Port(p)));
    FullPortCount(dispatchWidth, n, retireWidth, robSize, u, p, EdgeBetween(Port(p), Rob));
  }

  lemma FullSegmentsFacts(dispatchWidth: int, n: nat, retireWidth: int, robSize: string, u: UsageSample, p: nat)
    requires AllPortsKnown(u, n)
    ensures var s1, s2, s3 := FullPrologue(dispatchWidth, u), FullCluster(n, u), FullMiddle(n, robSize);
      var s4, s5 := EdgesTo(Ascending(n), Rob), [RetireEdge(retireWidth, Some(StageAnnotation(u.retire)))];
      && DeclaredPorts(s1) == [] && DeclaredPorts(s2) == Descending(n) && DeclaredPorts(s3) == []
      && DeclaredPorts(s4) == [] && DeclaredPorts(s5) == []
      && DeclsOf(s1, Port(p)) == [] && DeclsOf(s3, Port(p)) == [] && DeclsOf(s4, Port(p)) == [] && DeclsOf(s5, Port(p)) == []
      && DeclsOf(s2, Port(p)) == (if p < n then [FullPortDecl(p, PortUsage(u, p).value)] else [])
      && Count(s1, EdgeBetween(WaitingBuffer, Port(p))) == 0 && Count(s3, EdgeBetween(WaitingBuffer, Port(p))) == 0
      && Count(s4, EdgeBetween(WaitingBuffer, Port(p))) == 0 && Count(s5, EdgeBetween(WaitingBuffer, Port(p))) == 0
      && Count(s2, EdgeBetween(WaitingBuffer, Port(p))) == (if p < n then 1 else 0)
      && Count(s1, EdgeBetween(Port(p), Rob)) == 0 && Count(s2, EdgeBetween(Port(p), Rob)) == 0
      && Count(s3, EdgeBetween(Port(p), Rob)) == 0 && Count(s5, EdgeBetween(Port(p), Rob)) == 0
      && Count(s4, EdgeBetween(Port(p), Rob)) == (if p < n then 1 else 0)
      && !MentionedIn(s1, Port(p)) && !MentionedIn(s5, Port(p))
      && PortsWithin(s2, Ascending(n)) && PortsWithin(s3, Ascending(n)) && PortsWithin(s4, Ascending(n))
      && !MentionedIn(s1, Ellipsis) && !MentionedIn(s2, Ellipsis) && !MentionedIn(s3, Ellipsis)
      && !MentionedIn(s4, Ellipsis) && !MentionedIn(s5, Ellipsis)
  {
    FullEndsFacts(dispatchWidth, retireWidth, u, p);
    FullClusterFacts(n, u, p);
    FullMiddleFacts(n, robSize, p);
    FullRobEdgesFacts(n, p);
    var s1, s5 := FullPrologue(dispatchWidth, u), [RetireEdge(retireWidth, Some(StageAnnotation(u.retire)))];
    CountAbsent(s1, EdgeBetween(WaitingBuffer, Port(p)), Port(p));
    CountAbsent(s5, EdgeBetween(WaitingBuffer, Port(p)), Port(p));
    CountAbsent(s1, EdgeBetween(Port(p), Rob), Port(p));
    CountAbsent(s5, EdgeBetween(Port(p), Rob), Port(p));
  }

  lemma FullPortsWithin(dispatchWidth: int, n: nat, retireWidth: int, robSize: string, u: UsageSample, p: nat)
    requires AllPortsKnown(u, n)
    ensures !MentionedIn(FullGraph(dispatchWidth, n, retireWidth, robSize, u), Ellipsis)
    ensures MentionedIn(FullGraph(dispatchWidth, n, retireWidth, robSize, u), Port(p)) ==> p < n
  {
    FullNoEllipsis(dispatchWidth, n, retireWidth, robSize, u);
    FullEndsFacts(dispatchWidth, retireWidth, u, p);
    FullClusterMentions(n, u);
    FullMiddleFacts(n, robSize, p);
    FullRobEdgesFacts(n, p);
    FullMentions(dispatchWidth, n, retireWidth, robSize, u, Port(p));
    AscendingFacts(n);
    var s2, s3, s4 := FullCluster(n, u), FullMiddle(n, robSize), EdgesTo(Ascending(n), Rob);
    if MentionedIn(s2, Port(p)) {
      MentionedWithin(s2, Ascending(n), p);
    }
    if MentionedIn(s3, Port(p)) {
      MentionedWithin(s3, Ascending(n), p);
    }
    if MentionedIn(s4, Port(p)) {
      MentionedWithin(s4, Ascending(n), p);
    }
  }

  lemma FullNoEllipsis(dispatchWidth: int, n: nat, retireWidth: int, robSize: string, u: UsageSample)
    requires AllPortsKnown(u, n)
    ensures !MentionedIn(FullGraph(dispatchWidth, n, retireWidth, robSize, u), Ellipsis)
  {
    FullEndsFacts(dispatchWidth, retireWidth, u, 0);
    FullClusterMentions(n, u);
    FullMiddleFacts(n, robSize, 0);
    FullRobEdgesFacts(n, 0);
    FullMentions(dispatchWidth, n, retireWidth, robSize, u, Ellipsis);
  }

  /** A node is mentioned in the full diagram when it is mentioned in one of its segments. */
  lemma FullMentions(dispatchWidth: int, n: nat, retireWidth: int, robSize: string, u: UsageSample, x: NodeId)
    requires AllPortsKnown(u, n)
    ensures MentionedIn(FullGraph(dispatchWidth, n, retireWidth, robSize, u), x)
        <==> (|| MentionedIn(FullPrologue(dispatchWidth, u), x) || MentionedIn(FullCluster(n, u), x)
              || MentionedIn(FullMiddle(n, robSize), x) || MentionedIn(EdgesTo(Ascending(n), Rob), x)
              || MentionedIn([RetireEdge(retireWidth, Some(StageAnnotation(u.retire)))], x))
  {
    var s1, s2, s3 := FullPrologue(dispatchWidth, u), FullCluster(n, u), FullMiddle(n, robSize);
    var s4, s5 := EdgesTo(Ascending(n), Rob), [RetireEdge(retireWidth, Some(StageAnnotation(u.retire)))];
    MentionedInAppend(s1, s2, x);
    MentionedInAppend(s1 + s2, s3, x);
    MentionedInAppend(s1 + s2 + s3, s4, x);
    MentionedInAppend(s1 + s2 + s3 + s4, s5, x);
  }

  /** The full diagram declares every port, highest first, and never the placeholder. */
  lemma FullDeclarationOrder(dispatchWidth: int, n: nat, retireWidth: int, robSize: string, u: UsageSample)
    requires AllPortsKnown(u, n)
    ensures DeclaredPorts(FullGraph(dispatchWidth, n, retireWidth, robSize, u)) == Descending(n)
    ensures !MentionedIn(FullGraph(dispatchWidth, n, retireWidth, robSize, u), Ellipsis)
  {
    var s1, s2, s3 := FullPrologue(dispatchWidth, u), FullCluster(n, u), FullMiddle(n, robSize);
    var s4, s5 := EdgesTo(Ascending(n), Rob), [RetireEdge(retireWidth, Some(StageAnnotation(u.retire)))];
    FullSegmentsFacts(dispatchWidth, n, retireWidth, robSize, u, 0);
    DeclaredPortsAppend(s1, s2);
    DeclaredPortsAppend(s1 + s2, s3);
    DeclaredPortsAppend(s1 + s2 + s3, s4);
    DeclaredPortsAppend(s1 + s2 + s3 + s4, s5);
    FullPortsWithin(dispatchWidth, n, retireWidth, robSize, u, 0);
  }

  /**
    The stage labels carry the literal widths, the stage usage and its
    gradient colour, with the usage as tooltip; the ROB is pinned to the sink
    rank and the cluster is titled "Execute".
  */
  lemma FullStages(dispatchWidth: int, n: nat, retireWidth: int, robSize: string, u: UsageSample)
    requires AllPortsKnown(u, n)
    ensures var g := FullGraph(dispatchWidth, n, retireWidth, robSize, u);
      && g[1].Edge? && g[1].edge.from == Fetch && g[1].edge.to == WaitingBuffer
      && g[1].edge.caption == StageLabel(Dispatch, dispatchWidth, Some(Annotation(u.dispatch, UsageColor(u.dispatch))))
      && g[1].edge.tooltip == Some(u.dispatch)
      && g[|g| - 1].Edge? && g[|g| - 1].edge.from == Rob && g[|g| - 1].edge.to == Registers
      && g[|g| - 1].edge.caption == StageLabel(Retire, retireWidth, Some(Annotation(u.retire, UsageColor(u.retire))))
      && g[|g| - 1].edge.tooltip == Some(u.retire)
      && InRank(g, Sink, Rob)
      && RobDecl(robSize) in g
      && CloseCluster(Some("Execute")) in g
  {
    var s1, s2, s3 := FullPrologue(dispatchWidth, u), FullCluster(n, u), FullMiddle(n, robSize);
    var s4, s5 := EdgesTo(Ascending(n), Rob), [RetireEdge(retireWidth, Some(StageAnnotation(u.retire)))];
    var g := FullGraph(dispatchWidth, n, retireWidth, robSize, u);
    assert InRank(s3, Sink, Rob) by {
      assert s3[3] == RobSink;
    }
    InRankAppend(s1 + s2, s3, Sink, Rob);
    InRankAppend(s1 + s2 + s3, s4, Sink, Rob);
    InRankAppend(s1 + s2 + s3 + s4, s5, Sink, Rob);
    assert g[|s1 + s2| + 2] == RobDecl(robSize);
    assert g[|s1 + s2| - 1] == CloseCluster(Some("Execute"));
  }

  /** The second statement of the full diagram is the dispatch edge. */
  lemma FullDispatchEdge(dispatchWidth: int, n: nat, retireWidth: int, robSize: string, u: UsageSample)
    requires AllPortsKnown(u, n)
    ensures var g := FullGraph(dispatchWidth, n, retireWidth, robSize, u);
      |g| > 1 && g[1] == DispatchEdge(dispatchWidth, Some(StageAnnotation(u.dispatch)))
  {
    var s1 := FullPrologue(dispatchWidth, u);
    var rest := FullCluster(n, u) + FullMiddle(n, robSize) + EdgesTo(Ascending(n), Rob);
    assert (s1 + rest)[1] == s1[1];
    assert FullGraph(dispatchWidth, n, retireWidth, robSize, u)
        == s1 + rest + [RetireEdge(retireWidth, Some(StageAnnotation(u.retire)))];
  }

  /** The usage of the example below: dispatch 49.5%, retire 13.7%, ports 80.2, 0.0, 33.1, 0.0, 10.0. */
  const ExampleUsage := UsageSample(49.5, 0.0, 13.7, [Some(80.2), Some(0.0), Some(33.1), Some(0.0), Some(10.0)])

  lemma ExampleUsageKnown()
    ensures AllPortsKnown(ExampleUsage, 5)
  {
  }

  /** A port of the example is declared once, from its usage. */
  lemma FullExamplePort(robSize: string, p: nat, v: real)
    requires p < 5 && PortUsage(ExampleUsage, p) == Some(v)
    ensures AllPortsKnown(ExampleUsage, 5)
    ensures DeclsOf(FullGraph(6, 5, 8, robSize, ExampleUsage), Port(p)) == [FullPortDecl(p, v)]
  {
    ExampleUsageKnown();
    FullPortsDecls(6, 5, 8, robSize, ExampleUsage, p);
  }

  /** The example declares P4 down to P0. */
  lemma FullExampleOrder(robSize: string)
    ensures AllPortsKnown(ExampleUsage, 5)
    ensures DeclaredPorts(FullGraph(6, 5, 8, robSize, ExampleUsage)) == [4, 3, 2, 1, 0]
  {
    ExampleUsageKnown();
    FullDeclarationOrder(6, 5, 8, robSize, ExampleUsage);
    assert Descending(5) == [4, 3, 2, 1, 0];
  }

  /** The example's dispatch label shows 49.5% painted "#96ee4d". */
  lemma FullExampleLabel(robSize: string)
    ensures AllPortsKnown(ExampleUsage, 5)
    ensures var g := FullGraph(6, 5, 8, robSize, ExampleUsage);
      |g| > 1 && g[1].Edge? && g[1].edge.caption.annotation == Some(Annotation(49.5, "#96ee4d"))
  {
    ExampleUsageKnown();
    FullDispatchEdge(6, 5, 8, robSize, ExampleUsage);
    ColorIndexBand(49.5, 9);
  }

  /**
    Dispatch width 6, five ports, retire width 8, usage 49.5% / 13.7% and
    ports 80.2, 0.0, 33.1, 0.0, 10.0: five ports are drawn, P1 and P3 unfilled,
    P0 filled with "#f18c00", and the dispatch label painted "#96ee4d".
  */
  lemma FullExample(robSize: string)
    ensures var r := Full(6, 5, 8, robSize, Some(ExampleUsage));
      && r.Success?
      && DeclaredPorts(r.value) == [4, 3, 2, 1, 0]
      && |DeclsOf(r.value, Port(0))| == 1 && DeclsOf(r.value, Port(0))[0].fill == Some("#f18c00")
      && |DeclsOf(r.value, Port(1))| == 1 && DeclsOf(r.value, Port(1))[0].fill.None?
      && |DeclsOf(r.value, Port(3))| == 1 && DeclsOf(r.value, Port(3))[0].fill.None?
      && |r.value| > 1 && r.value[1].Edge? && r.value[1].edge.caption.annotation == Some(Annotation(49.5, "#96ee4d"))
  {
    FullExamplePort(robSize, 0, 80.2);
    FullExamplePort(robSize, 1, 0.0);
    FullExamplePort(robSize, 3, 0.0);
    ColorIndexBand(80.2, 16);
    FullExampleOrder(robSize);
    FullExampleLabel(robSize);
  }
}

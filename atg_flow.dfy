/** The classification pipeline's graph: inference, then the confidence
    check, then either the end or the fallback and then the end. The graph
    builder is a small mutable record of nodes and edges; the graph
    library's compile and invoke step is replaced by an explicit executor
    that follows those edges. */
module AtgFlow {
  import opened AtgNodes

  /** The graph's nodes, with the entry and terminal markers. */
  datatype Node = Start | Inference | ConfidenceCheck | Fallback | End

  /** A node's outgoing edge: a fixed target, or a branch chosen by the
      value route_fn reads from the record. */
  datatype Edge = Direct(target: Node) | Branch(targets: map<string, Node>)

  /** route_fn: the record's route, "accept" when the key is absent. */
  function RouteOf(e: Entry): (r: string)
    ensures e.route.None? ==> r == "accept"
    ensures e.route.Some? ==> r == e.route.value
  {
    if e.route.Some? then e.route.value else "accept"
  }

  /** The graph under construction. */
  class FlowGraph {
    var nodes: set<Node>
    var edges: map<Node, Edge>

    constructor ()
      ensures nodes == {} && edges == map[]
    {
      nodes := {};
      edges := map[];
    }

    method AddNode(n: Node)
      modifies this`nodes
      ensures nodes == old(nodes) + {n}
    {
      nodes := nodes + {n};
    }

    method AddEdge(from: Node, to: Node)
      modifies this`edges
      ensures edges == old(edges)[from := Direct(to)]
    {
      edges := edges[from := Direct(to)];
    }

    method AddBranch(from: Node, targets: map<string, Node>)
      modifies this`edges
      ensures edges == old(edges)[from := Branch(targets)]
    {
      edges := edges[from := Branch(targets)];
    }
  }

  /** The edges build_graph lays down. */
  function Topology(): map<Node, Edge> {
    map[Start := Direct(Inference),
        Inference := Direct(ConfidenceCheck),
        ConfidenceCheck := Branch(map["accept" := End, "fallback" := Fallback]),
        Fallback := Direct(End)]
  }

  /** build_graph: the three nodes, the entry edge, the fixed edge to the
      check, the check's branch on the route, and the edge from the
      fallback to the end. */
  method BuildGraph() returns (g: FlowGraph)
    ensures fresh(g)
    ensures g.nodes == {Inference, ConfidenceCheck, Fallback}
    ensures g.edges == Topology()
  {
    g := new FlowGraph();
    g.AddNode(Inference);
    g.AddNode(ConfidenceCheck);
    g.AddNode(Fallback);
    g.AddEdge(Start, Inference);
    g.AddEdge(Inference, ConfidenceCheck);
    g.AddBranch(ConfidenceCheck, map["accept" := End, "fallback" := Fallback]);
    g.AddEdge(Fallback, End);
  }

  /** Where a run goes after `n`, given the record as `n` left it; None when
      no edge leaves `n` or the route names no branch. */
  function Next(edges: map<Node, Edge>, n: Node, e: Entry): Option<Node> {
    if n !in edges then None
    else match edges[n]
      case Direct(t) => Some(t)
      case Branch(targets) => if RouteOf(e) in targets then Some(targets[RouteOf(e)]) else None
  }

  /** The built graph's edges: the entry leads to inference, inference to
      the check, the check to the end on "accept" and to the fallback on
      "fallback", and the fallback to the end; the end has no edge. */
  lemma TopologyEdges(e: Entry)
    ensures Next(Topology(), Start, e) == Some(Inference)
    ensures Next(Topology(), Inference, e) == Some(ConfidenceCheck)
    ensures RouteOf(e) == "accept" ==> Next(Topology(), ConfidenceCheck, e) == Some(End)
    ensures RouteOf(e) == "fallback" ==> Next(Topology(), ConfidenceCheck, e) == Some(Fallback)
    ensures RouteOf(e) !in {"accept", "fallback"} ==> Next(Topology(), ConfidenceCheck, e) == None
    ensures Next(Topology(), Fallback, e) == Some(End)
    ensures Next(Topology(), End, e) == None
  {
  }

  /** How far a node is from the end: every edge of the built graph goes
      down this order, so a run cannot revisit a node. */
  function Rank(n: Node): nat {
    match n
    case Start => 4
    case Inference => 3
    case ConfidenceCheck => 2
    case Fallback => 1
    case End => 0
  }

  lemma EdgesDescend(n: Node, e: Entry)
    requires Next(Topology(), n, e).Some?
    ensures Rank(Next(Topology(), n, e).value) < Rank(n)
  {
  }

  // ---------------------------------------------------------------------
  // A run

  /** The nodes a run executes on a record whose classifier answer has
      confidence `conf`. */
  function Steps(conf: real): seq<Node> {
    [Inference, ConfidenceCheck] + (if RouteFor(conf) == "fallback" then [Fallback] else [])
  }

  /** The record after a run, from the classifier's answer and the user's
      answer to the clarification question. */
  function Outcome(e: Entry, predicted: string, conf: real, isNegative: bool): Entry {
    var checked := Checked(Inferred(e, predicted, conf));
    if RouteFor(conf) == "fallback" then Clarified(checked, isNegative) else checked
  }

  /** Every run executes inference and then the check; the fallback runs
      exactly when the confidence is below the threshold; no node runs
      twice, so a run takes at most three steps. */
  lemma StepsShape(conf: real)
    ensures |Steps(conf)| <= 3 && Steps(conf)[0] == Inference && Steps(conf)[1] == ConfidenceCheck
    ensures Fallback in Steps(conf) <==> conf < ConfidenceThreshold
    ensures forall i, j :: 0 <= i < j < |Steps(conf)| ==> Steps(conf)[i] != Steps(conf)[j]
  {
  }

  /** A confident prediction is kept as the classifier gave it and is not
      marked corrected; otherwise the prediction is the user's label. */
  lemma OutcomePrediction(e: Entry, predicted: string, conf: real, isNegative: bool)
    ensures conf >= ConfidenceThreshold ==>
              Outcome(e, predicted, conf, isNegative).prediction == Some(predicted)
              && Outcome(e, predicted, conf, isNegative).corrected == e.corrected
    ensures conf < ConfidenceThreshold ==>
              Outcome(e, predicted, conf, isNegative).prediction == Some(AnswerLabel(isNegative))
              && Outcome(e, predicted, conf, isNegative).corrected == Some(predicted != AnswerLabel(isNegative))
  {
  }

  /** The events of a run: one per node executed, in order. */
  lemma OutcomeEvents(e: Entry, predicted: string, conf: real, isNegative: bool)
    ensures Outcome(e, predicted, conf, isNegative).events ==
              e.events + [Predicted(predicted, conf), ConfidenceChecked(conf, ConfidenceThreshold, conf >= ConfidenceThreshold)]
              + (if conf < ConfidenceThreshold then [ClarificationHandled] else [])
    ensures |Outcome(e, predicted, conf, isNegative).events| == |e.events| + |Steps(conf)|
  {
  }

  /** Run the graph on `rec`, following `edges` from the entry; the
      classifier's answer and the user's answer are given. `steps` are the
      nodes run, in order. */
  method Run(rec: Record, predicted: string, conf: real, isNegative: bool) returns (steps: seq<Node>)
    modifies rec
    ensures steps == Steps(conf)
    ensures rec.Snapshot() == Outcome(old(rec.Snapshot()), predicted, conf, isNegative)
  {
    var g := BuildGraph();
    var edges := g.edges;
    ghost var e0 := rec.Snapshot();
    var node := Start;
    steps := [];
    while node != End
      invariant node == Start ==> steps == [] && rec.Snapshot() == e0
      invariant node == Inference ==> steps == [] && rec.Snapshot() == e0
      invariant node == ConfidenceCheck ==> steps == [Inference] && rec.Snapshot() == Inferred(e0, predicted, conf)
      invariant node == Fallback ==> steps == [Inference, ConfidenceCheck] && RouteFor(conf) == "fallback"
                                     && rec.Snapshot() == Checked(Inferred(e0, predicted, conf))
      invariant node == End ==> steps == Steps(conf) && rec.Snapshot() == Outcome(e0, predicted, conf, isNegative)
      decreases Rank(node)
    {
      match node {
        case Start =>
        case Inference =>
          rec.Infer(predicted, conf);
        case ConfidenceCheck =>
          rec.CheckConfidence();
        case Fallback =>
          rec.Clarify(isNegative);
      }
      if node != Start {
        steps := steps + [node];
      }
      var next := Next(edges, node, rec.Snapshot());
      if next.None? {
        assert false;
      }
      EdgesDescend(node, rec.Snapshot());
      node := next.value;
    }
  }
}

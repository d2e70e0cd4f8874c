/** A Run's Steps over the nodes of its topology (src/cord_runtime/web/presentation.py, run_topology). */
module Overlay {
  import opened Basics

  /** A recorded Step, by its span, its Node name, and how it ended. */
  datatype Step = Step(span: string, node: string, outcome: string, awaitingResume: bool)

  datatype Status = NotObserved | Paused | Repeated | Failed | Passed

  datatype Overlaid = Overlaid(node: string, steps: seq<Step>, status: Status)

  /** The Steps of one Node, in recorded order. */
  function StepsOf(steps: seq<Step>, node: string): seq<Step> {
    if |steps| == 0 then [] else StepsOf(steps[..|steps| - 1], node) + if Last(steps).node == node then [Last(steps)] else []
  }

  function Unmatched(steps: seq<Step>, nodes: seq<string>): seq<Step> {
    if |steps| == 0 then [] else Unmatched(steps[..|steps| - 1], nodes) + if Last(steps).node in nodes then [] else [Last(steps)]
  }

  predicate Halts(s: Step) {
    s.outcome == "failed" || s.outcome == "halted"
  }

  /** A pause shows over everything; several Steps show as repeated; one shows how it ended. */
  predicate Fits(steps: seq<Step>, status: Status) {
    && (status.NotObserved? <==> steps == [])
    && (status.Paused? <==> exists i | 0 <= i < |steps| :: steps[i].awaitingResume)
    && (status.Repeated? <==> |steps| > 1 && forall i | 0 <= i < |steps| :: !steps[i].awaitingResume)
    && (status.Failed? <==> |steps| == 1 && !steps[0].awaitingResume && Halts(steps[0]))
  }

  method NodeStatus(steps: seq<Step>) returns (status: Status)
    ensures Fits(steps, status)
  {
    if |steps| == 0 { return NotObserved; }
    for i := 0 to |steps|
      invariant forall j | 0 <= j < i :: !steps[j].awaitingResume
    {
      if steps[i].awaitingResume { return Paused; }
    }
    if |steps| > 1 { return Repeated; }
    status := if Halts(steps[0]) then Failed else Passed;
  }

  type Groups = map<string, seq<Step>>

  function Group(byNode: Groups, name: string): seq<Step> {
    if name in byNode then byNode[name] else []
  }

  /** The groups hold exactly the Steps of each name. */
  ghost predicate Grouped(byNode: Groups, steps: seq<Step>) {
    forall n :: Group(byNode, n) == StepsOf(steps, n)
  }

  lemma StepsOneMore(steps: seq<Step>, i: nat, node: string)
    requires i < |steps|
    ensures StepsOf(steps[..i + 1], node) == StepsOf(steps[..i], node) + if steps[i].node == node then [steps[i]] else []
  {
    assert steps[..i + 1][..i] == steps[..i] && Last(steps[..i + 1]) == steps[i];
  }

  method GroupSteps(steps: seq<Step>) returns (byNode: Groups)
    ensures Grouped(byNode, steps)
  {
    byNode := map[];
    for i := 0 to |steps|
      invariant Grouped(byNode, steps[..i])
    {
      var name := steps[i].node;
      ghost var before := byNode;
      byNode := byNode[name := (if name in byNode then byNode[name] else []) + [steps[i]]];
      forall n
        ensures Group(byNode, n) == StepsOf(steps[..i + 1], n)
      {
        assert Group(before, n) == StepsOf(steps[..i], n);
        StepsOneMore(steps, i, n);
      }
    }
    assert steps[..|steps|] == steps;
  }

  /** Each Node with its own Steps, and the Steps that name no Node, group by group. */
  method RunTopology(nodes: seq<string>, steps: seq<Step>) returns (overlaid: seq<Overlaid>, unmatched: seq<Step>)
    ensures |overlaid| == |nodes|
    ensures forall i | 0 <= i < |nodes| :: overlaid[i].node == nodes[i] && overlaid[i].steps == StepsOf(steps, nodes[i])
    ensures forall i | 0 <= i < |nodes| :: Fits(overlaid[i].steps, overlaid[i].status)
    ensures multiset(unmatched) == multiset(Unmatched(steps, nodes))
  {
    var byNode := GroupSteps(steps);
    overlaid := [];
    for i := 0 to |nodes|
      invariant |overlaid| == i
      invariant forall j | 0 <= j < i :: overlaid[j].node == nodes[j] && overlaid[j].steps == StepsOf(steps, nodes[j])
      invariant forall j | 0 <= j < i :: Fits(overlaid[j].steps, overlaid[j].status)
    {
      var own := Group(byNode, nodes[i]);
      var status := NodeStatus(own);
      overlaid := overlaid + [Overlaid(nodes[i], own, status)];
    }
    unmatched := ListUnmatched(nodes, steps, byNode);
  }

  /** Groups whose name is no Node's, group by group. */
  method ListUnmatched(nodes: seq<string>, ghost steps: seq<Step>, byNode: Groups) returns (unmatched: seq<Step>)
    requires Grouped(byNode, steps)
    ensures multiset(unmatched) == multiset(Unmatched(steps, nodes))
  {
    unmatched := [];
    var left := byNode.Keys;
    ghost var names: set<string> := {};
    NamedByNone(steps);
    while left != {}
      invariant left <= byNode.Keys && multiset(unmatched) == multiset(Named(steps, names))
      invariant forall n :: n in names <==> n in byNode && n !in left && n !in nodes
      decreases left
    {
      var name :| name in left;
      left := left - {name};
      if name in nodes { continue; }
      NamedOneMore(steps, names, name);
      assert byNode[name] == Group(byNode, name);
      unmatched := unmatched + byNode[name];
      names := names + {name};
    }
    forall n | n !in names && n !in nodes
      ensures StepsOf(steps, n) == []
    {
      assert Group(byNode, n) == StepsOf(steps, n);
    }
    NamedIsUnmatched(steps, nodes, names);
  }

  function Named(steps: seq<Step>, names: set<string>): seq<Step> {
    if |steps| == 0 then [] else Named(steps[..|steps| - 1], names) + if Last(steps).node in names then [Last(steps)] else []
  }

  lemma {:induction false} NamedByNone(steps: seq<Step>)
    ensures Named(steps, {}) == []
  {
    if |steps| > 0 {
      NamedByNone(steps[..|steps| - 1]);
    }
  }

  lemma {:induction false} NamedOneMore(steps: seq<Step>, names: set<string>, name: string)
    requires name !in names
    ensures multiset(Named(steps, names + {name})) == multiset(Named(steps, names)) + multiset(StepsOf(steps, name))
  {
    if |steps| > 0 {
      NamedOneMore(steps[..|steps| - 1], names, name);
    }
  }

  lemma {:induction false} NamedIsUnmatched(steps: seq<Step>, nodes: seq<string>, names: set<string>)
    requires forall n | n in names :: n !in nodes
    requires forall n | n !in names && n !in nodes :: StepsOf(steps, n) == []
    ensures Named(steps, names) == Unmatched(steps, nodes)
  {
    if |steps| > 0 {
      var front := steps[..|steps| - 1];
      forall n | n !in names && n !in nodes
        ensures StepsOf(front, n) == []
      {
        assert StepsOf(steps, n) == [];
      }
      NamedIsUnmatched(front, nodes, names);
      LastIsOfItsNode(steps);
    }
  }

  lemma LastIsOfItsNode(steps: seq<Step>)
    requires |steps| > 0
    ensures StepsOf(steps, Last(steps).node) != []
  {
  }

  /** Everything shown under a Node. */
  function Shown(steps: seq<Step>, nodes: seq<string>): seq<Step> {
    if |nodes| == 0 then [] else Shown(steps, nodes[..|nodes| - 1]) + StepsOf(steps, Last(nodes))
  }

  /** Each recorded Step is shown exactly once: under the Node it names, or as unmatched. */
  lemma {:induction false} EveryStepIsShown(steps: seq<Step>, nodes: seq<string>)
    requires NoDup(nodes)
    ensures multiset(Shown(steps, nodes)) + multiset(Unmatched(steps, nodes)) == multiset(steps)
    decreases |nodes|
  {
    if |nodes| == 0 {
      AllUnmatched(steps);
    } else {
      var front, last := nodes[..|nodes| - 1], Last(nodes);
      assert nodes == front + [last] && last !in front;
      EveryStepIsShown(steps, front);
      UnmatchedOneLess(steps, front, last);
    }
  }

  lemma {:induction false} AllUnmatched(steps: seq<Step>)
    ensures Unmatched(steps, []) == steps
  {
    if |steps| > 0 {
      AllUnmatched(steps[..|steps| - 1]);
      assert steps == steps[..|steps| - 1] + [Last(steps)];
    }
  }

  lemma {:induction false} UnmatchedOneLess(steps: seq<Step>, nodes: seq<string>, node: string)
    requires node !in nodes
    ensures multiset(Unmatched(steps, nodes)) == multiset(Unmatched(steps, nodes + [node])) + multiset(StepsOf(steps, node))
  {
    if |steps| > 0 {
      UnmatchedOneLess(steps[..|steps| - 1], nodes, node);
    }
  }
}

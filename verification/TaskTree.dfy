/** The search for the descendants of a task, over any table of parents, cyclic ones included. */
module TaskTree {
  import opened Basics

  datatype Node = Node(id: nat, parent: Option<nat>)

  ghost predicate Keyed(nodes: seq<Node>) { forall i, j :: 0 <= i < j < |nodes| ==> nodes[i].id != nodes[j].id }

  ghost predicate ChildOf(nodes: seq<Node>, parent: nat, n: Node) { n in nodes && n.parent == Some(parent) }

  /** A path of parent links leads from the root to the node. */
  ghost predicate Leads(nodes: seq<Node>, root: nat, path: seq<Node>) {
    path != [] && ChildOf(nodes, root, path[0]) && forall i :: 0 < i < |path| ==> ChildOf(nodes, path[i - 1].id, path[i])
  }

  ghost predicate Reachable(nodes: seq<Node>, root: nat, n: Node) { exists path :: Leads(nodes, root, path) && Last(path) == n }

  ghost predicate Descendant(nodes: seq<Node>, root: nat, n: Node) { n.id != root && Reachable(nodes, root, n) }

  lemma Extended(nodes: seq<Node>, root: nat, parent: Node, n: Node)
    requires Reachable(nodes, root, parent) && ChildOf(nodes, parent.id, n)
    ensures Reachable(nodes, root, n)
  {
    var path: seq<Node> :| Leads(nodes, root, path) && Last(path) == parent;
    assert Leads(nodes, root, path + [n]) && Last(path + [n]) == n;
  }

  lemma DirectChild(nodes: seq<Node>, root: nat, n: Node)
    requires ChildOf(nodes, root, n)
    ensures Reachable(nodes, root, n)
  {
    assert Leads(nodes, root, [n]) && Last([n]) == n;
  }

  /** Everything reachable lies in a set of ids that holds the root and the children of its members. */
  lemma {:induction false} ClosedHoldsPath(nodes: seq<Node>, root: nat, seen: set<nat>, path: seq<Node>)
    requires root in seen && Leads(nodes, root, path)
    requires forall p, n :: p in seen && ChildOf(nodes, p, n) ==> n.id in seen
    ensures Last(path).id in seen
    decreases |path|
  {
    if |path| > 1 {
      assert Leads(nodes, root, Front(path));
      ClosedHoldsPath(nodes, root, seen, Front(path));
    }
  }

  function Ids(nodes: seq<Node>): (ids: set<nat>)
    ensures forall n :: n in nodes ==> n.id in ids
  {
    set n | n in nodes :: n.id
  }

  /** The rows whose parent is one of the frontier and whose id was not seen. */
  function Unseen(nodes: seq<Node>, frontier: set<nat>, seen: set<nat>): (r: seq<Node>)
    ensures forall n :: n in r <==> n in nodes && n.parent.Some? && n.parent.value in frontier && n.id !in seen
    ensures Keyed(nodes) ==> Keyed(r)
  {
    if nodes == [] then []
    else
      var n := Last(nodes);
      assert nodes == Front(nodes) + [n];
      var rest := Unseen(Front(nodes), frontier, seen);
      if n.parent.Some? && n.parent.value in frontier && n.id !in seen then
        assert Keyed(nodes) ==> forall x :: x in Front(nodes) ==> x.id != n.id by { NewestIsOther(nodes); }
        rest + [n]
      else rest
  }

  lemma NewestIsOther(nodes: seq<Node>)
    requires nodes != []
    ensures Keyed(nodes) ==> forall x :: x in Front(nodes) ==> x.id != Last(nodes).id
  {
  }

  /** What the search has established when it is about to expand `frontier`. */
  ghost predicate Searched(nodes: seq<Node>, root: nat, found: seq<Node>, frontier: set<nat>, seen: set<nat>) {
    && Keyed(found) && frontier <= seen && seen == {root} + Ids(found)
    && (forall n :: n in found ==> n in nodes && Descendant(nodes, root, n))
    && (forall p, n :: p in seen - frontier && ChildOf(nodes, p, n) ==> n.id in seen)
  }

  lemma SearchAdvances(nodes: seq<Node>, root: nat, found: seq<Node>, frontier: set<nat>, seen: set<nat>, unseen: seq<Node>)
    requires Keyed(nodes) && Searched(nodes, root, found, frontier, seen) && unseen == Unseen(nodes, frontier, seen)
    ensures Searched(nodes, root, found + unseen, Ids(unseen), seen + Ids(unseen))
  {
    var longer := found + unseen;
    forall i, j | 0 <= i < j < |longer| ensures longer[i].id != longer[j].id {
      if i < |found| <= j {
        assert longer[i] in found && longer[j] in unseen;
      }
    }
    forall n | n in unseen ensures Descendant(nodes, root, n) {
      FoundBelow(nodes, root, found, frontier, seen, n);
    }
    assert Ids(longer) == Ids(found) + Ids(unseen);
    forall p, n | p in seen + Ids(unseen) - Ids(unseen) && ChildOf(nodes, p, n) ensures n.id in seen + Ids(unseen) {
      if p in frontier && n.id !in seen {
        assert n in unseen;
      }
    }
  }

  lemma FoundBelow(nodes: seq<Node>, root: nat, found: seq<Node>, frontier: set<nat>, seen: set<nat>, n: Node)
    requires Searched(nodes, root, found, frontier, seen) && n in Unseen(nodes, frontier, seen)
    ensures Descendant(nodes, root, n)
  {
    var p := n.parent.value;
    if p == root {
      DirectChild(nodes, root, n);
    } else {
      var parent :| parent in found && parent.id == p;
      Extended(nodes, root, parent, n);
    }
  }

  method ListDescendants(nodes: seq<Node>, root: nat) returns (descendants: seq<Node>)
    requires Keyed(nodes)
    ensures Keyed(descendants)
    ensures forall n :: n in descendants <==> Descendant(nodes, root, n)
  {
    descendants := [];
    var frontier, seen := {root}, {root};
    while frontier != {}
      invariant Searched(nodes, root, descendants, frontier, seen)
      decreases Ids(nodes) + {root} - seen, frontier
    {
      var unseen := Unseen(nodes, frontier, seen);
      SearchAdvances(nodes, root, descendants, frontier, seen, unseen);
      descendants := descendants + unseen;
      assert unseen != [] ==> unseen[0].id in Ids(nodes) + {root} - seen;
      seen := seen + Ids(unseen);
      frontier := Ids(unseen);
    }
    SearchIsComplete(nodes, root, descendants, seen);
  }

  lemma SearchIsComplete(nodes: seq<Node>, root: nat, found: seq<Node>, seen: set<nat>)
    requires Keyed(nodes) && Searched(nodes, root, found, {}, seen)
    ensures forall n :: Descendant(nodes, root, n) ==> n in found
  {
    forall n | Descendant(nodes, root, n) ensures n in found {
      var path: seq<Node> :| Leads(nodes, root, path) && Last(path) == n;
      ClosedHoldsPath(nodes, root, seen, path);
      var x :| x in found && x.id == n.id;
      assert ChildOf(nodes, if |path| == 1 then root else path[|path| - 2].id, n);
      SameIdSameNode(nodes, x, n);
    }
  }

  lemma SameIdSameNode(nodes: seq<Node>, a: Node, b: Node)
    requires Keyed(nodes) && a in nodes && b in nodes && a.id == b.id
    ensures a == b
  {
  }
}

/**
 Cancelling a run with its descendants: the children come first, one after the other, and a child that
 cannot be cancelled ends the whole call, leaving the parent as it was.
 */
module RunCancel {
  import opened Wrappers
  import opened RunStates

  type RunId = nat

  datatype Node = Node(parent: Option<RunId>, depth: nat, status: RunStatus)

  /**
   The store's runs in the order in which children are listed, the runs that have a controller, and those
   whose controller has been told to cancel. No run is deeper than `limit`.
   */
  datatype Tree = Tree(runs: seq<Node>, limit: nat, active: set<RunId>, told: set<RunId>)

  /** A child is stored one deeper than its parent. */
  predicate Placed(t: Tree, i: RunId)
    requires i < |t.runs|
  {
    var run := t.runs[i];
    && run.depth <= t.limit
    && (run.parent.Some? ==> run.parent.value < |t.runs| && run.depth == t.runs[run.parent.value].depth + 1)
  }

  ghost predicate Valid(t: Tree) { forall i: RunId | i < |t.runs| :: Placed(t, i) }

  predicate IsChild(t: Tree, i: RunId, p: RunId) { i < |t.runs| && t.runs[i].parent == Some(p) }

  /** The trees agree but for statuses and for what controllers were told. */
  ghost predicate SameShape(a: Tree, b: Tree) {
    && |a.runs| == |b.runs| && a.limit == b.limit && a.active == b.active
    && forall i | 0 <= i < |a.runs| :: b.runs[i] == a.runs[i].(status := b.runs[i].status)
  }

  lemma ShapeKeepsValid(a: Tree, b: Tree)
    requires Valid(a) && SameShape(a, b)
    ensures Valid(b)
  {
    forall i: RunId | i < |b.runs| ensures Placed(b, i) { assert Placed(a, i); }
  }

  datatype Outcome = Outcome(tree: Tree, done: bool)

  /** The run itself: its controller is told, or else it is moved to CANCELLED, which may throw. */
  function CancelSelf(t: Tree, id: RunId): Outcome
    requires id < |t.runs|
  {
    if id in t.active then Outcome(t.(told := t.told + {id}), true)
    else if MayMove(t.runs[id].status, Cancelled)
    then Outcome(t.(runs := t.runs[id := t.runs[id].(status := Cancelled)]), true)
    else Outcome(t, false)
  }

  /** `cancelRun`; a call that throws is not done and keeps what it had changed before. */
  ghost function Cancel(t: Tree, id: RunId): (o: Outcome)
    requires Valid(t)
    ensures SameShape(t, o.tree) && Valid(o.tree)
    decreases if id < |t.runs| then t.limit - t.runs[id].depth else 0, |t.runs| + 1
  {
    if id >= |t.runs| || IsTerminal(t.runs[id].status) then Outcome(t, true) else
    var o := CancelChildren(t, id, 0);
    if !o.done then o else
    var own := CancelSelf(o.tree, id);
    ShapeKeepsValid(o.tree, own.tree);
    own
  }

  /** The children of `p` among the runs from `from` on. */
  ghost function CancelChildren(t: Tree, p: RunId, from: nat): (o: Outcome)
    requires Valid(t) && p < |t.runs| && from <= |t.runs|
    ensures SameShape(t, o.tree) && Valid(o.tree)
    decreases t.limit - t.runs[p].depth, |t.runs| - from
  {
    if from == |t.runs| then Outcome(t, true)
    else if !IsChild(t, from, p) then CancelChildren(t, p, from + 1)
    else
      assert Placed(t, from);
      var o := Cancel(t, from);
      if o.done then CancelChildren(o.tree, p, from + 1) else o
  }

  // ---- which runs a cancellation reaches

  /** From `r` down to `j` no run is over. */
  ghost predicate Reached(t: Tree, r: RunId, j: RunId)
    requires Valid(t)
    decreases if j < |t.runs| then t.runs[j].depth else 0
  {
    && j < |t.runs| && !IsTerminal(t.runs[j].status)
    && (j == r || (Placed(t, j) && t.runs[j].parent.Some? && Reached(t, r, t.runs[j].parent.value)))
  }

  /** Among the reached, what cannot be cancelled: a run that is checkpointing and has given its controller up. */
  predicate Stuck(t: Tree, j: RunId) { j < |t.runs| && t.runs[j].status.Checkpointing? && j !in t.active }

  lemma StuckIffNoMove(t: Tree, j: RunId)
    requires j < |t.runs| && !IsTerminal(t.runs[j].status)
    ensures Stuck(t, j) <==> !CancelSelf(t, j).done
  {}

  ghost predicate Untouched(a: Tree, b: Tree, j: RunId)
    requires SameShape(a, b) && j < |a.runs|
  {
    b.runs[j] == a.runs[j] && (j in b.told <==> j in a.told)
  }

  /** Told through its controller, or cancelled at once. */
  ghost predicate Settled(a: Tree, b: Tree, j: RunId)
    requires SameShape(a, b) && j < |a.runs|
  {
    if j in a.active then b.runs[j] == a.runs[j] && j in b.told
    else b.runs[j].status == Cancelled && (j in b.told <==> j in a.told)
  }

  lemma {:induction false} ReachedIsDeeper(t: Tree, r: RunId, j: RunId)
    requires Valid(t) && Reached(t, r, j)
    ensures r < |t.runs| && !IsTerminal(t.runs[r].status) && t.runs[r].depth <= t.runs[j].depth
    ensures t.runs[r].depth == t.runs[j].depth ==> r == j
    decreases t.runs[j].depth
  {
    if j != r { ReachedIsDeeper(t, r, t.runs[j].parent.value); }
  }

  /** No run is reached from two children of one parent. */
  lemma {:induction false} SiblingsApart(t: Tree, p: RunId, a: RunId, b: RunId, j: RunId)
    requires Valid(t) && IsChild(t, a, p) && IsChild(t, b, p) && a != b && Reached(t, a, j)
    ensures !Reached(t, b, j)
    decreases t.runs[j].depth
  {
    assert Placed(t, a) && Placed(t, b) && Placed(t, j);
    if Reached(t, b, j) {
      ReachedIsDeeper(t, a, j);
      ReachedIsDeeper(t, b, j);
      assert j != a && j != b;
      SiblingsApart(t, p, a, b, t.runs[j].parent.value);
    }
  }

  /** What is reached from `r` does not change with runs that are not. */
  lemma {:induction false} ReachedStays(a: Tree, b: Tree, r: RunId, j: RunId)
    requires Valid(a) && Valid(b) && SameShape(a, b)
    requires forall i: RunId | Reached(a, r, i) :: a.runs[i] == b.runs[i]
    requires Reached(a, r, j)
    ensures Reached(b, r, j)
    decreases a.runs[j].depth
  {
    assert Placed(a, j) && Placed(b, j);
    if j != r { ReachedStays(a, b, r, a.runs[j].parent.value); }
  }

  /** Nor is more reached when no run came back to life. */
  lemma {:induction false} ReachedBefore(a: Tree, b: Tree, r: RunId, j: RunId)
    requires Valid(a) && Valid(b) && SameShape(a, b)
    requires forall i: RunId | i < |a.runs| && IsTerminal(a.runs[i].status) :: IsTerminal(b.runs[i].status)
    requires Reached(b, r, j)
    ensures Reached(a, r, j)
    decreases a.runs[j].depth
  {
    assert Placed(a, j) && Placed(b, j);
    if j != r { ReachedBefore(a, b, r, a.runs[j].parent.value); }
  }

  /** `j` is reached from a child of `p` that is listed at `from` or later. */
  ghost predicate Under(t: Tree, p: RunId, from: nat, j: RunId)
    requires Valid(t)
  {
    exists c: RunId :: from <= c && IsChild(t, c, p) && Reached(t, c, j)
  }

  /** Whatever a run reaches beside itself, it reaches through a child. */
  lemma {:induction false} ReachedThroughChild(t: Tree, r: RunId, j: RunId) returns (c: RunId)
    requires Valid(t) && Reached(t, r, j) && j != r
    ensures IsChild(t, c, r) && Reached(t, c, j)
    decreases t.runs[j].depth
  {
    assert Placed(t, j);
    var parent := t.runs[j].parent.value;
    if parent == r { c := j; } else { c := ReachedThroughChild(t, r, parent); }
  }

  lemma {:induction false} ChildIsReached(t: Tree, r: RunId, c: RunId, j: RunId)
    requires Valid(t) && IsChild(t, c, r) && Reached(t, c, j) && r < |t.runs| && !IsTerminal(t.runs[r].status)
    ensures Reached(t, r, j) && j != r
    decreases t.runs[j].depth
  {
    assert Placed(t, c) && Placed(t, j);
    ReachedIsDeeper(t, c, j);
    if j != c { ChildIsReached(t, r, c, t.runs[j].parent.value); }
  }

  lemma ReachedSplits(t: Tree, r: RunId, j: RunId)
    requires Valid(t) && r < |t.runs| && !IsTerminal(t.runs[r].status)
    ensures Reached(t, r, j) <==> j == r || Under(t, r, 0, j)
    ensures !Under(t, r, 0, r)
  {
    if Reached(t, r, j) && j != r { var c := ReachedThroughChild(t, r, j); }
    if Under(t, r, 0, j) {
      var c: RunId :| 0 <= c && IsChild(t, c, r) && Reached(t, c, j);
      ChildIsReached(t, r, c, j);
    }
    if Under(t, r, 0, r) {
      var c: RunId :| 0 <= c && IsChild(t, c, r) && Reached(t, c, r);
      ChildIsReached(t, r, c, r);
    }
  }

  lemma UnderSplits(t: Tree, p: RunId, from: RunId, j: RunId)
    requires Valid(t) && IsChild(t, from, p)
    ensures Under(t, p, from, j) <==> Reached(t, from, j) || Under(t, p, from + 1, j)
    ensures !(Reached(t, from, j) && Under(t, p, from + 1, j))
  {
    if Reached(t, from, j) && Under(t, p, from + 1, j) {
      var c: RunId :| from + 1 <= c && IsChild(t, c, p) && Reached(t, c, j);
      SiblingsApart(t, p, from, c, j);
    }
  }

  // ---- what a cancellation does

  /** What becomes of one run: nothing if it is not reached, and it settles if the call is done. */
  ghost predicate Fate(t: Tree, o: Outcome, reached: bool, j: RunId)
    requires SameShape(t, o.tree) && j < |t.runs|
  {
    if !reached then Untouched(t, o.tree, j)
    else (Untouched(t, o.tree, j) || Settled(t, o.tree, j)) && (o.done ==> Settled(t, o.tree, j) && !Stuck(t, j))
  }

  ghost predicate Does(t: Tree, id: RunId)
    requires Valid(t)
  {
    var o := Cancel(t, id);
    && (forall j: RunId | j < |t.runs| :: Fate(t, o, Reached(t, id, j), j))
    && (!o.done ==> exists j: RunId :: Reached(t, id, j) && Stuck(t, j))
    && (!o.done && id < |t.runs| ==> Untouched(t, o.tree, id))
  }

  ghost predicate ChildrenDo(t: Tree, p: RunId, from: nat)
    requires Valid(t) && p < |t.runs| && from <= |t.runs|
  {
    var o := CancelChildren(t, p, from);
    && (forall j: RunId | j < |t.runs| :: Fate(t, o, Under(t, p, from, j), j))
    && (!o.done ==> exists j: RunId :: Under(t, p, from, j) && Stuck(t, j))
  }

  /** After the child at `from` has been cancelled, the later ones still reach what they reached. */
  lemma LaterSiblingsStay(t: Tree, p: RunId, from: RunId, j: RunId)
    requires Valid(t) && IsChild(t, from, p) && Does(t, from)
    ensures Under(t, p, from + 1, j) <==> Under(Cancel(t, from).tree, p, from + 1, j)
  {
    var u := Cancel(t, from).tree;
    if Under(t, p, from + 1, j) {
      var c: RunId :| from + 1 <= c && IsChild(t, c, p) && Reached(t, c, j);
      forall i: RunId | Reached(t, c, i) ensures t.runs[i] == u.runs[i] {
        SiblingsApart(t, p, c, from, i);
        assert Fate(t, Cancel(t, from), false, i);
      }
      ReachedStays(t, u, c, j);
      assert IsChild(u, c, p);
    }
    if Under(u, p, from + 1, j) {
      var c: RunId :| from + 1 <= c && IsChild(u, c, p) && Reached(u, c, j);
      forall i: RunId | i < |t.runs| && IsTerminal(t.runs[i].status) ensures IsTerminal(u.runs[i].status) {
        assert Fate(t, Cancel(t, from), Reached(t, from, i), i);
      }
      ReachedBefore(t, u, c, j);
      assert IsChild(t, c, p);
    }
  }

  /** One child and then the rest. */
  lemma FateOfSibling(t: Tree, p: RunId, from: RunId, j: RunId)
    requires Valid(t) && p < |t.runs| && IsChild(t, from, p) && Does(t, from) && j < |t.runs|
    requires Cancel(t, from).done ==> ChildrenDo(Cancel(t, from).tree, p, from + 1)
    ensures Fate(t, CancelChildren(t, p, from), Under(t, p, from, j), j)
  {
    var first := Cancel(t, from);
    UnderSplits(t, p, from, j);
    LaterSiblingsStay(t, p, from, j);
    assert Fate(t, first, Reached(t, from, j), j);
    if first.done {
      var rest := CancelChildren(first.tree, p, from + 1);
      assert Fate(first.tree, rest, Under(first.tree, p, from + 1, j), j);
    }
  }

  lemma SiblingsDo(t: Tree, p: RunId, from: RunId)
    requires Valid(t) && p < |t.runs| && IsChild(t, from, p) && Does(t, from)
    requires Cancel(t, from).done ==> ChildrenDo(Cancel(t, from).tree, p, from + 1)
    ensures ChildrenDo(t, p, from)
  {
    var first, o := Cancel(t, from), CancelChildren(t, p, from);
    forall j: RunId | j < |t.runs| ensures Fate(t, o, Under(t, p, from, j), j) { FateOfSibling(t, p, from, j); }
    if !first.done {
      var j: RunId :| Reached(t, from, j) && Stuck(t, j);
      assert Under(t, p, from, j);
    } else if !o.done {
      var j: RunId :| Under(first.tree, p, from + 1, j) && Stuck(first.tree, j);
      LaterSiblingsStay(t, p, from, j);
      UnderSplits(t, p, from, j);
      assert Fate(t, first, Reached(t, from, j), j);
    }
  }

  lemma SelfDoes(t: Tree, id: RunId)
    requires Valid(t) && id < |t.runs| && !IsTerminal(t.runs[id].status) && ChildrenDo(t, id, 0)
    ensures Does(t, id)
  {
    var below, o := CancelChildren(t, id, 0), Cancel(t, id);
    ReachedSplits(t, id, id);
    assert Fate(t, below, false, id);
    forall j: RunId | j < |t.runs| ensures Fate(t, o, Reached(t, id, j), j) {
      ReachedSplits(t, id, j);
      assert Fate(t, below, Under(t, id, 0, j), j);
    }
    if !below.done {
      var j: RunId :| Under(t, id, 0, j) && Stuck(t, j);
      ReachedSplits(t, id, j);
    } else if !o.done {
      assert Stuck(t, id);
    }
  }

  lemma {:induction false} CancelDoes(t: Tree, id: RunId)
    requires Valid(t)
    ensures Does(t, id)
    decreases if id < |t.runs| then t.limit - t.runs[id].depth else 0, |t.runs| + 1
  {
    if id < |t.runs| && !IsTerminal(t.runs[id].status) {
      CancelChildrenDoes(t, id, 0);
      SelfDoes(t, id);
    } else {
      forall j: RunId | j < |t.runs| ensures !Reached(t, id, j) {
        if Reached(t, id, j) { ReachedIsDeeper(t, id, j); }
      }
    }
  }

  lemma {:induction false} CancelChildrenDoes(t: Tree, p: RunId, from: nat)
    requires Valid(t) && p < |t.runs| && from <= |t.runs|
    ensures ChildrenDo(t, p, from)
    decreases t.limit - t.runs[p].depth, |t.runs| - from
  {
    if from == |t.runs| {
    } else if IsChild(t, from, p) {
      assert Placed(t, from);
      CancelDoes(t, from);
      if Cancel(t, from).done { CancelChildrenDoes(Cancel(t, from).tree, p, from + 1); }
      SiblingsDo(t, p, from);
    } else {
      CancelChildrenDoes(t, p, from + 1);
      forall j: RunId | j < |t.runs| ensures Under(t, p, from, j) <==> Under(t, p, from + 1, j) {}
    }
  }

  /**
   Cancelling a run is done exactly when nothing it reaches is checkpointing without its controller. Then
   every run it reaches is told or cancelled; otherwise the run itself stays as it was. No other run changes.
   */
  lemma CancelIsDoneIff(t: Tree, id: RunId)
    requires Valid(t) && id < |t.runs|
    ensures
      var o := Cancel(t, id);
      && (o.done <==> forall j: RunId | Reached(t, id, j) :: !Stuck(t, j))
      && (forall j: RunId | j < |t.runs| && !Reached(t, id, j) :: Untouched(t, o.tree, j))
      && (forall j: RunId | Reached(t, id, j) :: if o.done then Settled(t, o.tree, j)
                                                 else Untouched(t, o.tree, j) || Settled(t, o.tree, j))
      && (!o.done ==> Untouched(t, o.tree, id))
  {
    var o := Cancel(t, id);
    CancelDoes(t, id);
    forall j: RunId | j < |t.runs| ensures Fate(t, o, Reached(t, id, j), j) {}
  }

  /** A running parent goes on when its child is handing its workspace back. */
  lemma ParentGoesOn(t: Tree)
    requires t == Tree([Node(None, 0, Running), Node(Some(0), 1, Checkpointing)], 1, {0}, {})
    ensures Valid(t) && Cancel(t, 0) == Outcome(t, false)
  {
    assert Placed(t, 0) && Placed(t, 1);
    CancelIsDoneIff(t, 0);
    assert Reached(t, 0, 0) && Reached(t, 0, 1) && Stuck(t, 1);
    var o := Cancel(t, 0);
    assert Untouched(t, o.tree, 0);
    assert Untouched(t, o.tree, 1);
  }

  class RunService {
    const limit: nat
    var runs: seq<Node>
    var active: set<RunId>
    var told: set<RunId>

    constructor (t: Tree)
      ensures State() == t
    {
      limit, runs, active, told := t.limit, t.runs, t.active, t.told;
    }

    function State(): Tree
      reads this
    {
      Tree(runs, limit, active, told)
    }

    /** `cancelRun`, for a run whose descendants are done with. */
    method CancelOwn(id: RunId) returns (done: bool)
      requires id < |runs|
      modifies this`runs, this`told
      ensures Outcome(State(), done) == CancelSelf(old(State()), id)
    {
      if id in active {
        told := told + {id};
        return true;
      }
      if !MayMove(runs[id].status, Cancelled) { return false; }
      runs := runs[id := runs[id].(status := Cancelled)];
      return true;
    }

    /** `cancelRun`. */
    method CancelRun(id: RunId) returns (done: bool)
      requires Valid(State())
      modifies this`runs, this`told
      ensures Outcome(State(), done) == Cancel(old(State()), id)
      decreases if id < |runs| then limit - runs[id].depth else 0
    {
      if id >= |runs| || IsTerminal(runs[id].status) { return true; }
      ghost var start, whole := State(), CancelChildren(State(), id, 0);
      for i := 0 to |runs|
        invariant SameShape(start, State()) && Valid(State())
        invariant CancelChildren(State(), id, i) == whole
      {
        if IsChild(State(), i, id) {
          assert Placed(State(), i);
          done := CancelRun(i);
          if !done { return; }
        }
      }
      done := CancelOwn(id);
    }
  }
}

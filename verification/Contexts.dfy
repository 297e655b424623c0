/** Go's cancelable contexts: a context is done once it or one of its ancestors is cancelled. */
module Contexts {
  type Ctx = nat

  datatype Tree = Tree(parents: map<Ctx, Ctx>, cancelled: set<Ctx>) {
    predicate Done(c: Ctx)
      decreases c
    {
      c in cancelled || (c in parents && parents[c] < c && Done(parents[c]))
    }

    /** context.WithCancel: a fresh child. */
    function WithCancel(parent: Ctx, child: Ctx): Tree {
      this.(parents := parents[child := parent])
    }

    function Cancel(c: Ctx): Tree {
      this.(cancelled := cancelled + {c})
    }

    ghost predicate Descends(c: Ctx, ancestor: Ctx)
      decreases c
    {
      c == ancestor || (c in parents && parents[c] < c && Descends(parents[c], ancestor))
    }
  }

  /** A cancel reaches every descendant, and nothing else. */
  lemma {:induction false} CancelReachesDescendants(t: Tree, c: Ctx, x: Ctx)
    ensures t.Cancel(c).Done(x) <==> t.Done(x) || t.Descends(x, c)
    decreases x
  {
    if x in t.parents && t.parents[x] < x {
      CancelReachesDescendants(t, c, t.parents[x]);
    }
  }

  /** A fresh child is done exactly when its parent is, and changes no other context. */
  lemma {:induction false} FreshChild(t: Tree, parent: Ctx, child: Ctx, x: Ctx)
    requires child !in t.parents && child !in t.cancelled && parent < child
    requires x != child ==> x < child
    ensures t.WithCancel(parent, child).Done(x) <==> t.Done(if x == child then parent else x)
    decreases x
  {
    var u := t.WithCancel(parent, child);
    if x == child {
      FreshChild(t, parent, child, parent);
    } else if x in t.parents && t.parents[x] < x {
      FreshChild(t, parent, child, t.parents[x]);
    }
  }
}

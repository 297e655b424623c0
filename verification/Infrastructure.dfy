/** The readiness and retry fields of P2PInfrastructure, and the regions that change them. */
module Infrastructure {
  import opened Results
  import opened Contexts

  /** The context that Disconnect cancels; every retry context descends from it. */
  const SHUTDOWN: Ctx := 0

  /** The value of the fields that readinessMutex and retryMutex protect, with the contexts made so far. */
  datatype Fields = Fields(isReady: bool, retryCancel: Option<Ctx>, ctxs: Tree, nextCtx: Ctx) {
    /** shutdownCtx is a root: it is done once it is itself cancelled. */
    predicate ShuttingDown() {
      SHUTDOWN in ctxs.cancelled
    }

    predicate FallsOn(peerCount: nat) {
      isReady && peerCount == 0
    }

    function SetReadiness(peerCount: nat): Fields {
      this.(isReady := peerCount > 0)
    }

    /** The retryMutex region of startBootstrapRetry: refuse, or register a new context. */
    function Register(parent: Ctx): Fields {
      if retryCancel.Some? then this
      else this.(retryCancel := Some(nextCtx), ctxs := ctxs.WithCancel(parent, nextCtx), nextCtx := nextCtx + 1)
    }

    function CancelCtx(c: Ctx): Fields {
      this.(ctxs := ctxs.Cancel(c))
    }

    function Unregister(): Fields {
      this.(retryCancel := None)
    }

    /** stopBootstrapRetry: cancel whatever is registered, then clear the field. */
    function Stop(): Fields {
      if retryCancel.Some? then CancelCtx(retryCancel.value).Unregister() else this
    }
  }

  const INITIAL: Fields := Fields(false, None, Tree(map[], {}), 1)

  /** The struct itself. Each method is one mutex region, or one call of a cancel function. */
  class P2PInfrastructure {
    var isReady: bool
    var retryCancel: Option<Ctx>
    var ctxs: Tree
    var nextCtx: Ctx

    function View(): Fields
      reads this
    {
      Fields(isReady, retryCancel, ctxs, nextCtx)
    }

    ghost predicate Valid()
      reads this
    {
      && 0 < nextCtx
      && SHUTDOWN !in ctxs.parents
      && (forall c <- ctxs.parents :: c < nextCtx && ctxs.parents[c] < c)
      && (forall c <- ctxs.cancelled :: c < nextCtx)
      && (retryCancel.Some? ==> retryCancel.value in ctxs.parents && ctxs.Descends(retryCancel.value, SHUTDOWN))
    }

    constructor ()
      ensures Valid() && View() == INITIAL
    {
      isReady, retryCancel, ctxs, nextCtx := false, None, Tree(map[], {}), 1;
    }

    method IsReady() returns (ready: bool)
      ensures ready == isReady
    {
      ready := isReady;
    }

    /** Returns whether a delayed starter must be spawned. */
    method UpdateReadiness(peerCount: nat) returns (spawnStarter: bool)
      requires Valid()
      modifies `isReady
      ensures Valid()
      ensures View() == old(View()).SetReadiness(peerCount)
      ensures spawnStarter <==> old(isReady) && !isReady
      ensures isReady <==> peerCount > 0
    {
      var wasReady := isReady;
      isReady := peerCount > 0;
      spawnStarter := wasReady && !isReady;
    }

    /** The mutex region of startBootstrapRetry. A returned context is the caller's to run a loop with:
        it is new, it is the registered one, and it is done from the start exactly if its parent is. */
    method RegisterRetry(parent: Ctx) returns (retryCtx: Option<Ctx>)
      requires Valid() && parent < nextCtx && ctxs.Descends(parent, SHUTDOWN)
      modifies `retryCancel, `ctxs, `nextCtx
      ensures Valid() && View() == old(View()).Register(parent)
      ensures retryCtx.None? <==> old(retryCancel).Some?
      ensures retryCtx.None? ==> View() == old(View())
      ensures retryCtx.Some? ==> retryCancel == retryCtx && retryCtx.value !in old(ctxs).parents
      ensures retryCtx.Some? ==> (ctxs.Done(retryCtx.value) <==> old(ctxs).Done(parent))
    {
      if retryCancel.Some? {
        return None;
      }
      var before := ctxs;
      retryCtx := Some(nextCtx);
      FreshChild(before, parent, nextCtx, nextCtx);
      ChildDescends(before, parent, nextCtx, parent);
      ctxs := ctxs.WithCancel(parent, nextCtx);
      retryCancel := retryCtx;
      nextCtx := nextCtx + 1;
    }

    /** The deferred function of the retry goroutine: cancel, then clear. */
    method FinishRetry(retryCtx: Ctx)
      requires Valid() && retryCtx < nextCtx
      modifies `retryCancel, `ctxs
      ensures Valid() && View() == old(View()).CancelCtx(retryCtx).Unregister()
      ensures ctxs.Done(retryCtx) && retryCancel.None?
    {
      ctxs := ctxs.Cancel(retryCtx);
      retryCancel := None;
    }

    method StopBootstrapRetry()
      requires Valid()
      modifies `retryCancel, `ctxs
      ensures Valid() && View() == old(View()).Stop()
      ensures retryCancel.None?
      ensures old(retryCancel).Some? ==> ctxs.Done(old(retryCancel).value)
    {
      if retryCancel.Some? {
        ctxs := ctxs.Cancel(retryCancel.value);
        retryCancel := None;
      }
    }

    /** The shutdown half of Disconnect: afterwards nothing is registered, every context made under the
        shutdown context is done, and so will be any made later. */
    method Shutdown()
      requires Valid()
      modifies `retryCancel, `ctxs
      ensures Valid() && View() == old(View()).CancelCtx(SHUTDOWN).Stop()
      ensures retryCancel.None?
      ensures forall c :: old(ctxs).Descends(c, SHUTDOWN) ==> ctxs.Done(c)
    {
      var before := ctxs;
      ctxs := ctxs.Cancel(SHUTDOWN);
      var shut := ctxs;
      forall c | before.Descends(c, SHUTDOWN)
        ensures shut.Done(c)
      {
        CancelReachesDescendants(before, SHUTDOWN, c);
      }
      CancelKeepsDescent(before, SHUTDOWN);
      StopBootstrapRetry();
      forall c | shut.Done(c)
        ensures ctxs.Done(c)
      {
        if ctxs != shut {
          CancelReachesDescendants(shut, old(retryCancel).value, c);
        }
      }
    }
  }

  lemma {:induction false} ChildDescends(t: Tree, parent: Ctx, child: Ctx, x: Ctx)
    requires child !in t.parents && x <= parent < child
    requires t.Descends(x, SHUTDOWN)
    ensures t.WithCancel(parent, child).Descends(x, SHUTDOWN)
    decreases x
  {
    if x != SHUTDOWN {
      ChildDescends(t, parent, child, t.parents[x]);
    }
  }

  lemma CancelKeepsDescent(t: Tree, c: Ctx)
    ensures forall x, a :: t.Descends(x, a) ==> t.Cancel(c).Descends(x, a)
  {
    forall x, a | t.Descends(x, a)
      ensures t.Cancel(c).Descends(x, a)
    {
      DescentIgnoresCancel(t, c, x, a);
    }
  }

  lemma {:induction false} DescentIgnoresCancel(t: Tree, c: Ctx, x: Ctx, a: Ctx)
    ensures t.Cancel(c).Descends(x, a) == t.Descends(x, a)
    decreases x
  {
    if x != a && x in t.parents && t.parents[x] < x {
      DescentIgnoresCancel(t, c, t.parents[x], a);
    }
  }
}

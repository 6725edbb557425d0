/** Whole runs of the routing controller among users, other controllers, faults and crashes. */
module RoutingRuns {
  import opened Api
  import opened Metadata
  import opened RouteTypes
  import opened Ownership
  import opened Server
  import opened Unstruct
  import opened Exporting
  import opened RoutingController

  /** The custom resource as it is when it has just come into being: nothing is labelled with its uid yet. */
  ghost predicate Newborn(w: Watch, c: Cluster) {
    && WellFormed(c)
    && ValidWatch(w)
    && Present(w, c) && !c.objects[w.cr].deleting
    && (forall k | k in c.objects && c.objects[k].uid == w.uid :: k == w.cr)
    && (forall k | k in c.objects :: !OwnedBy(c.objects[k], w.uid))
  }

  /** A step that loses nothing of what others wrote: of an object that is not a routing resource it changes at
      most the two address annotations and the finalizers, and lets it go only once it is marked for deletion; it
      makes no such object, and leaves routing resources of other namespaces alone. */
  ghost predicate Respectful(gateway: string, c: Cluster, c': Cluster) {
    && (forall k | k in c.objects && !IsRoutingGvk(k.gvk) ::
          if k in c'.objects then OwnEdit(c.objects[k], c'.objects[k]) else c.objects[k].deleting)
    && (forall k | k in c'.objects && !IsRoutingGvk(k.gvk) :: k in c.objects)
    && (forall k | (k in c.objects || k in c'.objects) && IsRoutingGvk(k.gvk) && k.namespace != gateway ::
          Untouched(c, c', k))
  }

  /** Of finalizers it keeps the list, takes the own one off it, or stores a list read before with the own one added. */
  ghost predicate RespectsFinalizers(h: seq<Entry>, i: nat)
    requires 0 < i < |h|
  {
    forall k | k in h[i - 1].world.c.objects && !IsRoutingGvk(k.gvk) :: KnownFinalizers(k, h, i)
  }

  ghost predicate AllRespectful(gateway: string, h: seq<Entry>) {
    forall i :: 0 < i < |h| && h[i].own ==>
      Respectful(gateway, h[i - 1].world.c, h[i].world.c) && RespectsFinalizers(h, i)
  }

  lemma OwnStepIsRespectful(r: Run, c: Cluster, c': Cluster)
    requires OwnStep(r, c, c') && !IsRoutingGvk(r.cr.gvk)
    ensures Respectful(r.gateway, c, c')
  {
    if ResourceStep(r, c, c') {
      assert forall k | (k in c.objects || k in c'.objects) && !IsRoutingGvk(k.gvk) :: Untouched(c, c', k);
    } else {
      assert forall k | (k in c.objects || k in c'.objects) && k != r.cr :: Untouched(c, c', k);
    }
  }

  lemma OwnStepRespectsFinalizers(r: Run, h: seq<Entry>, i: nat)
    requires 0 < i < |h| && OwnStep(r, h[i - 1].world.c, h[i].world.c) && KnownFinalizers(r.cr, h, i)
    ensures RespectsFinalizers(h, i)
  {
    var c, c' := h[i - 1].world.c, h[i].world.c;
    forall k | k in c.objects && !IsRoutingGvk(k.gvk) ensures KnownFinalizers(k, h, i) {
      if k != r.cr {
        assert Untouched(c, c', k);
        UntouchedFinalizers(k, h, i);
      }
    }
  }

  lemma RespectedEarlier(h0: seq<Entry>, h: seq<Entry>, i: nat)
    requires h0 <= h && 0 < i < |h0| && RespectsFinalizers(h0, i)
    ensures RespectsFinalizers(h, i)
  {
    assert h[i] == h0[i] && h[i - 1] == h0[i - 1];
    forall k | k in h[i - 1].world.c.objects && !IsRoutingGvk(k.gvk) ensures KnownFinalizers(k, h, i) {
      KnownEarlier(k, h0, h, i);
    }
  }

  lemma OwnStepsAreRespectful(r: Run, h0: seq<Entry>, h: seq<Entry>)
    requires h0 <= h && h0 != [] && AllRespectful(r.gateway, h0) && OwnSteps(r, h, |h0|) && !IsRoutingGvk(r.cr.gvk)
    ensures AllRespectful(r.gateway, h)
  {
    hide Respectful, RespectsFinalizers, OwnStep, KnownFinalizers;
    forall i | 0 < i < |h| && h[i].own
      ensures Respectful(r.gateway, h[i - 1].world.c, h[i].world.c) && RespectsFinalizers(h, i)
    {
      if i < |h0| {
        assert h[i] == h0[i] && h[i - 1] == h0[i - 1];
        RespectedEarlier(h0, h, i);
      } else {
        OwnStepIsRespectful(r, h[i - 1].world.c, h[i].world.c);
        OwnStepRespectsFinalizers(r, h, i);
      }
    }
  }

  lemma NewbornIsSafe(w: Watch, c: Cluster)
    requires Newborn(w, c)
    ensures Safe(w, World(c, {}))
  {
  }

  lemma NoStepsYet(gateway: string, h: seq<Entry>)
    requires forall i :: 0 <= i < |h| ==> !h[i].own
    ensures AllRespectful(gateway, h)
  {
  }

  /** In every state of every run, each resource labelled with the uid has its owner, and the owner holds the
      finalizer; and no step of the controller loses anything others wrote. A run interleaves reconciles of any
      custom resources of the component, activation and deactivation with anything others may do. Every call in it
      may fail, or have an effect and still fail; a controller that crashed in the middle of a reconcile is one
      whose remaining calls all failed. However the client combines the options of its requests, the promise holds. */
  method Operate(start: Cluster, w: Watch, component: Gvk, config: IngressConfig, combining: Combining, rounds: nat)
    returns (history: seq<Entry>)
    requires Newborn(w, start) && !IsRoutingGvk(component) && w.gateway == config.gatewayNamespace
    ensures history != [] && history[0].world.c == start
    ensures forall i :: 0 <= i < |history| ==> NoOrphans(w.uid, history[i].world.c)
    ensures AllRespectful(w.gateway, history)
  {
    hide Safe, NoOrphans, Later, OwnSteps, ReconcileOutcome, ReconcileDone, ReconcileTold, UserRules, Respectful,
         RespectsFinalizers, RunFrom, AllRespectful;
    NewbornIsSafe(w, start);
    var server := new ApiServer(false, true, combining, Some(w), World(start, {}));
    var controller := new Controller(component, config);
    NoStepsYet(w.gateway, server.history);
    for round := 0 to rounds
      invariant Live(server) && server.watch == Some(w) && fresh(server) && fresh(controller)
      invariant controller.component == component && controller.config.gatewayNamespace == w.gateway
      invariant server.history != [] && server.history[0].world.c == start
      invariant AllRespectful(w.gateway, server.history)
    {
      var choice: nat, namespace: string, name: string, found: Discovery, config': IngressConfig := *, *, *, *, *;
      if choice == 0 {
        controller.Deactivate();
      } else if choice == 1 && config'.gatewayNamespace == w.gateway {
        controller.Activate(config');
      } else {
        ghost var h := server.history;
        ghost var plan: seq<Resource>, r: Run, from: nat, report: Report;
        var errs: seq<Error>;
        errs, plan, r, from, report := controller.Reconcile(server, namespace, name, found);
        OwnStepsAreRespectful(r, h, server.history);
      }
    }
    forall i | 0 <= i < |server.history| ensures NoOrphans(w.uid, server.history[i].world.c) {
      assert SafeAt(server.watch, server.history[i]);
      SafeMeansNoOrphans(w, server.history[i].world);
    }
    history := server.history;
  }
}

/** status.ready and the conditions of a StackitCluster agree in every reachable state. */
module ClusterReadiness {
  import opened CloudModel
  import opened Conditions
  import opened ClusterModel
  import opened ClusterRuns
  import Zones

  predicate BalancerFine(st: Status)
  {
    LoadBalancerReady in st.conditions &&
    (st.conditions[LoadBalancerReady].status ||
     st.conditions[LoadBalancerReady].reason in {LoadBalancerTargetError, MachineListError})
  }

  /** ready is the Ready condition, and it claims no more than the other conditions. */
  predicate Agrees(st: Status)
  {
    && (st.ready <==> IsTrue(st.conditions, Ready))
    && (st.ready ==>
          IsTrue(st.conditions, CredentialsReady) && IsTrue(st.conditions, NetworkReady) &&
          IsTrue(st.conditions, BastionReady) && BalancerFine(st))
  }

  lemma NotReadyAgrees(st: Status, t: ConditionType, reason: Reason)
    ensures Agrees(NotReady(st, t, reason))
  {
  }

  lemma TrueKeeps(st: Status, t: ConditionType, reason: Reason)
    requires t != Ready && Agrees(st)
    ensures var n := Mark(st, t, true, reason);
            Agrees(n) && IsTrue(n.conditions, t) && forall u :: IsTrue(st.conditions, u) ==> IsTrue(n.conditions, u)
  {
  }

  lemma StaleTargetsKeep(st: Status, reason: Reason)
    requires Agrees(st) && reason in {LoadBalancerTargetError, MachineListError}
    ensures Agrees(Mark(st, LoadBalancerReady, false, reason))
  {
  }

  lemma ZonesDoNotMatter(st: Status, zones: Zones.Published)
    requires Agrees(st)
    ensures Agrees(st.(zones := zones))
  {
  }

  lemma CredentialKeeps(st: Status, c: CloudState, id: Identity, e: Env)
    requires Agrees(st)
    ensures var s := CredentialStage(st, c, id, e);
            Agrees(s.status) && (s.go ==> IsTrue(s.status.conditions, CredentialsReady))
  {
    hide Zones.RegionZones, Zones.Publish, Agrees;
    ZonesDoNotMatter(st, Zones.RegionZones(id.region));
    var st1 := st.(zones := Zones.RegionZones(id.region));
    if !e.client.Built? {
      NotReadyAgrees(st1, CredentialsReady, CredentialsInvalid);
    } else {
      TrueKeeps(st1, CredentialsReady, Available);
      var st2 := Mark(st1, CredentialsReady, true, Available);
      if !e.listZones.Works? {
        NotReadyAgrees(st2, Ready, AvailabilityZonesError);
      } else {
        ZonesDoNotMatter(st2, Zones.Publish(id.region, e.zones));
      }
    }
  }

  /** A stage that goes on adds its own condition and keeps those already true. */
  ghost predicate Advances(st: Status, s: Stage, t: ConditionType)
  {
    && Agrees(s.status)
    && (s.go ==> IsTrue(s.status.conditions, t) &&
                 forall u :: IsTrue(st.conditions, u) ==> IsTrue(s.status.conditions, u))
  }

  lemma NetworkKeeps(spec: Spec, st: Status, call: NetworkCall)
    requires Agrees(st)
    ensures Advances(st, AfterNetwork(spec, st, call), NetworkReady)
  {
    match call
    case NetworkMissing(_, reason) => NotReadyAgrees(st, NetworkReady, reason);
    case NetworkIs(_, n) => TrueKeeps(st.(network := n, managed := spec.network == 0), NetworkReady, Available);
  }

  lemma BalancerServesKeeps(st: Status, c: CloudState, name: string, ip: string)
    requires Agrees(st)
    ensures Advances(st, AfterBalancer(st, BalancerServes(c, name), ip), LoadBalancerReady)
  {
    TrueKeeps(Published(st, name, ip), LoadBalancerReady, Available);
  }

  lemma NoBalancerKeeps(st: Status, c: CloudState, ip: string)
    requires Agrees(st)
    ensures Advances(st, AfterBalancer(st, NoBalancer(c), ip), LoadBalancerReady)
  {
    TrueKeeps(st.(endpoint := st.specEndpoint), LoadBalancerReady, Skipped);
    NotReadyAgrees(st, LoadBalancerReady, EndpointMissing);
  }

  lemma BalancerKeeps(st: Status, call: BalancerCall, ip: string)
    requires Agrees(st)
    ensures Advances(st, AfterBalancer(st, call, ip), LoadBalancerReady)
  {
    hide Agrees;
    match call
    case NoBalancer(c) => NoBalancerKeeps(st, c, ip);
    case BalancerServes(c, name) => BalancerServesKeeps(st, c, name, ip);
    case MachinesUnknown(_) => StaleTargetsKeep(st, MachineListError);
    case BalancerFailed(_) => NotReadyAgrees(st, LoadBalancerReady, LoadBalancerError);
    case BalancerPending(_, name) => NotReadyAgrees(st.(balancerID := name), LoadBalancerReady, Provisioning);
    case TargetsFailed(_, name) =>
      PublishedAgrees(st, name, ip);
      StaleTargetsKeep(Published(st, name, ip), LoadBalancerTargetError);
  }

  lemma PublishedAgrees(st: Status, name: string, ip: string)
    requires Agrees(st)
    ensures Agrees(Published(st, name, ip))
  {
  }

  lemma BastionKeeps(st: Status, call: BastionCall, e: Env)
    requires Agrees(st)
    ensures Advances(st, AfterBastion(st, call, e), BastionReady)
  {
    match call
    case BastionAbsent(_) =>
      TrueKeeps(if KnownAbsent(st) then st else st.(bastion := NoBastion), BastionReady, Skipped);
    case BastionRejected(_, reason) => NotReadyAgrees(st, BastionReady, reason);
    case BastionRecreating(_) => NotReadyAgrees(st.(bastion := NoBastion), BastionReady, Recreating);
    case BastionIs(_, ids) =>
      var st1 := st.(bastion := BastionStatus(ids, e.bastionIP, e.cloudInitHash));
      NotReadyAgrees(st1, BastionReady, ServerNotUp);
      NotReadyAgrees(st1, BastionReady, Provisioning);
      TrueKeeps(st1, BastionReady, Available);
  }

  lemma AllTrueIsReady(st: Status)
    requires IsTrue(st.conditions, CredentialsReady) && IsTrue(st.conditions, NetworkReady)
    requires IsTrue(st.conditions, LoadBalancerReady) && IsTrue(st.conditions, BastionReady)
    ensures Agrees(Mark(st.(ready := true, provisioned := true), Ready, true, Available))
  {
  }

  lemma NormalKeeps(spec: Spec, st: Status, c: CloudState, id: Identity, e: Env)
    requires Agrees(st)
    ensures Agrees(Normal(spec, st, c, id, e).status)
  {
    hide CallNetwork, CallBalancer, CallBastion, CredentialStage, AfterNetwork, AfterBalancer, AfterBastion, Agrees;
    CredentialKeeps(st, c, id, e);
    var s1 := CredentialStage(st, c, id, e);
    if s1.go {
      NetworkKeeps(spec, s1.status, CallNetwork(spec, s1.status, s1.cloud, id, e));
      var s2 := NetworkStage(spec, s1.status, s1.cloud, id, e);
      if s2.go {
        BalancerKeeps(s2.status, CallBalancer(spec, s2.cloud, id, e), e.balancerIP);
        var s3 := BalancerStage(spec, s2.status, s2.cloud, id, e);
        if s3.go {
          BastionKeeps(s3.status, CallBastion(spec, s3.status, s3.cloud, id, e), e);
          var s4 := BastionStage(spec, s3.status, s3.cloud, id, e);
          if s4.go { AllTrueIsReady(s4.status); }
        }
      }
    }
  }

  /** Deletion passes may change conditions at will; deletion is never undone. */
  predicate ReadyOK(w: World)
  {
    !w.stored.deleting ==> Agrees(w.stored.status)
  }

  lemma PassKeepsReadyOK(w: World, id: Identity, e: Env)
    requires ReadyOK(w)
    ensures ReadyOK(Reconcile(w, id, e))
  {
    hide ClusterModel.Delete, Normal, Agrees;
    if !w.stored.deleting {
      TrueKeeps(w.stored.status, Paused, IsPaused);
      UnpausedKeeps(w.stored.status);
      NormalKeeps(w.stored.spec, Mark(w.stored.status, Paused, false, NotPaused), w.cloud, id, e);
    }
  }

  lemma UnpausedKeeps(st: Status)
    requires Agrees(st)
    ensures Agrees(Mark(st, Paused, false, NotPaused))
  {
  }

  /** A new object claims nothing. */
  lemma FreshIsReadyOK(w: World)
    requires !w.stored.status.ready && Ready !in w.stored.status.conditions
    ensures ReadyOK(w)
  {
  }

  /** In every state of every run (any failure, any lost patch, any spec update, any
      interference) a cluster that is not being deleted is ready exactly when its
      Ready condition says so, and then every part it depends on is in order, up to a
      load balancer whose target list could not be refreshed. */
  lemma {:induction false} EveryRunAgrees(w: World, id: Identity, events: seq<Event>)
    requires ReadyOK(w)
    ensures ReadyOK(After(w, id, events))
  {
    hide Reconcile;
    var ok := (v: World, ev: Event) => true;
    forall v: World, ev: Event | ReadyOK(v) ensures ReadyOK(Next(v, id, ev)) {
      if ev.Reconciled? { PassKeepsReadyOK(v, id, ev.env); }
    }
    Invariance(w, id, events, ReadyOK, ok);
  }
}

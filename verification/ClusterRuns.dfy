/** Runs of a StackitCluster: passes with any failures and lost patches, admitted
    spec updates, machine passes and other interference on the shared cloud. */
module ClusterRuns {
  import opened CloudModel
  import opened ClusterModel
  import MachineModel

  datatype Event =
    | Reconciled(env: Env)
    | SpecUpdated(obj: StackitCluster)
    | MachineReconciled(machine: MachineModel.StackitMachine, machineID: MachineModel.Identity,
                        machineEnv: MachineModel.Env)
    | Interference(cloud: CloudState)
    | DeletionRequested

  /** A spec update keeps status and lifecycle. Of what the webhook freezes only the
      network ID matters here; the rest may change. */
  predicate Admitted(o: StackitCluster, n: StackitCluster)
  {
    && n == o.(spec := n.spec, status := o.status.(specEndpoint := n.status.specEndpoint))
    && n.spec.network == o.spec.network
  }

  ghost function Next(w: World, id: Identity, ev: Event): World
  {
    match ev
    case Reconciled(e) => Reconcile(w, id, e)
    case SpecUpdated(o) => if Admitted(w.stored, o) then w.(stored := o) else w
    case MachineReconciled(m, mid, e) =>
      w.(cloud := MachineModel.Reconcile(MachineModel.World(m, w.cloud, false), mid, e).cloud)
    case Interference(c) => w.(cloud := c)
    case DeletionRequested => w.(stored := w.stored.(deleting := true))
  }

  ghost function After(w: World, id: Identity, events: seq<Event>): World
  {
    if events == [] then w else Next(After(w, id, events[..|events| - 1]), id, events[|events| - 1])
  }

  /** Every event is one that ok allows in the state it happens in. */
  ghost predicate Run(w: World, id: Identity, events: seq<Event>, ok: (World, Event) -> bool)
  {
    forall i :: 0 <= i < |events| ==> ok(After(w, id, events[..i]), events[i])
  }

  /** What every allowed event keeps holds in every state of every run. */
  lemma {:induction false} Invariance(w: World, id: Identity, events: seq<Event>,
                                      inv: World -> bool, ok: (World, Event) -> bool)
    requires inv(w) && Run(w, id, events, ok)
    requires forall v, ev :: inv(v) && ok(v, ev) ==> inv(Next(v, id, ev))
    ensures inv(After(w, id, events))
  {
    if events != [] {
      var before := events[..|events| - 1];
      forall i | 0 <= i < |before| ensures ok(After(w, id, before[..i]), before[i]) {
        assert before[..i] == events[..i];
      }
      Invariance(w, id, before, inv, ok);
      assert ok(After(w, id, before), events[|events| - 1]);
    }
  }
}

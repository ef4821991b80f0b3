/** Deployments and machine passes together: how many servers there can ever be. */
module VmBound {
  import opened KTObjects
  import Pass
  import W = World
  import I = Invariant
  import P = Preservation
  import M = Machines
  import R = Replicas

  /** The machines' world and the fleet of deployments, sharing the machine objects. */
  datatype Joint = Joint(w: W.World, f: R.Fleet)

  /** Machines come only from deployments, and none is deleted. */
  datatype Step =
    | OfMachines(s: W.Step)
    | OfDeployments(t: R.Step, uid: nat, cluster: string)

  predicate MakesMachine(t: R.Step) { t.Create? || t.LoseCreate? }

  function NewMachine(t: R.Step, cluster: string): W.Machine
    requires MakesMachine(t)
  {
    W.Machine(t.d.ns, t.name, cluster, [NEW_STATUS], true)
  }

  predicate Enabled(j: Joint, s: Step) {
    match s
    case OfMachines(s) => W.Enabled(j.w, s) && !s.CreateMachine? && !s.DeleteMachine?
    case OfDeployments(t, uid, _) => R.Enabled(j.f, t) && !t.Other? && (MakesMachine(t) ==> uid !in j.w.machines)
  }

  function Apply(j: Joint, s: Step): Joint
    requires Enabled(j, s)
  {
    match s
    case OfMachines(s) => j.(w := W.Apply(j.w, s))
    case OfDeployments(t, uid, cluster) =>
      Joint(if MakesMachine(t) then W.Apply(j.w, W.CreateMachine(uid, NewMachine(t, cluster))) else j.w,
            R.Apply(j.f, t))
  }

  predicate Legal(j: Joint, run: seq<Step>)
    decreases |run|
  {
    run == [] || (Enabled(j, run[0]) && Legal(Apply(j, run[0]), run[1..]))
  }

  function Exec(j: Joint, run: seq<Step>): Joint
    requires Legal(j, run)
    decreases |run|
  {
    if run == [] then j else Exec(Apply(j, run[0]), run[1..])
  }

  /** The deployments' share of a run. */
  function FleetRun(run: seq<Step>): seq<R.Step> {
    if run == [] then []
    else (if run[0].OfDeployments? then [run[0].t] else []) + FleetRun(run[1..])
  }

  // ---------- the two views of the machines ----------

  function KeyOf(m: W.Machine): Key { Key(m.ns, m.name) }

  ghost predicate Mirrored(j: Joint) {
    && (forall u :: u in j.w.machines ==> KeyOf(j.w.machines[u]) in j.f.machines)
    && (forall u, v ::
          u in j.w.machines && v in j.w.machines && KeyOf(j.w.machines[u]) == KeyOf(j.w.machines[v]) ==> u == v)
  }

  ghost predicate AllOwned(f: R.Fleet, ds: seq<Key>) {
    && (forall k :: k in f.machines ==> exists d :: d in ds && k in R.Owned(f, d))
    && (forall d :: d in f.todo ==> d in ds)
  }

  ghost predicate JointInv(j: Joint, ds: seq<Key>) {
    I.Inv(j.w) && Mirrored(j) && AllOwned(j.f, ds)
  }

  predicate BeginsWithin(s: Step, ds: seq<Key>) {
    s.OfDeployments? && s.t.Begin? ==> s.t.d in ds
  }

  lemma EffectKeys(w: W.World, pid: nat, l: Pass.Local, r: Pass.Reply)
    requires W.CanReply(w, l, r)
    ensures W.Effect(w, pid, l, r).machines.Keys == w.machines.Keys
  {
    if Pass.IsWrite(l.pc) && r.Written? {
      P.WrittenIsCurrent(w, l);
    } else {
      P.OnlyWritesTouch(w, pid, l, r);
    }
  }

  lemma StepKeys(w: W.World, s: W.Step)
    requires W.Enabled(w, s) && !s.CreateMachine?
    ensures W.Apply(w, s).machines.Keys == w.machines.Keys
    ensures forall u :: u in w.machines ==> KeyOf(W.Apply(w, s).machines[u]) == KeyOf(w.machines[u])
  {
    I.StepGrows(w, s);
    if s.Deliver? || s.LoseReply? {
      EffectKeys(w, s.pid, w.passes[s.pid], s.reply);
    }
  }

  lemma DeploymentStepOwned(f: R.Fleet, t: R.Step, ds: seq<Key>)
    requires R.Enabled(f, t) && !t.Other? && AllOwned(f, ds) && (t.Begin? ==> t.d in ds)
    ensures AllOwned(R.Apply(f, t), ds)
  {
    var f' := R.Apply(f, t);
    forall k | k in f'.machines ensures exists d :: d in ds && k in R.Owned(f', d) {
      if k in f.machines {
        var d :| d in ds && k in R.Owned(f, d);
        R.StepOwned(f, t, d);
        assert k in R.Owned(f', d);
      } else {
        R.StepOwned(f, t, t.d);
        assert t.d in ds && k in R.Owned(f', t.d);
      }
    }
  }

  lemma StepKeepsJoint(j: Joint, s: Step, ds: seq<Key>)
    requires JointInv(j, ds) && Enabled(j, s) && BeginsWithin(s, ds)
    ensures JointInv(Apply(j, s), ds)
  {
    match s
    case OfMachines(s) =>
      P.StepKeeps(j.w, s);
      StepKeys(j.w, s);
    case OfDeployments(t, uid, cluster) =>
      DeploymentStepOwned(j.f, t, ds);
      if MakesMachine(t) {
        P.StepKeeps(j.w, W.CreateMachine(uid, NewMachine(t, cluster)));
      }
  }

  // ---------- counting ----------

  lemma {:induction false} ImageWithin(w: W.World, keys: set<Key>, us: set<nat>)
    requires us <= w.machines.Keys
    requires forall u :: u in us ==> KeyOf(w.machines[u]) in keys
    requires forall u, v :: u in us && v in us && KeyOf(w.machines[u]) == KeyOf(w.machines[v]) ==> u == v
    ensures |us| <= |keys|
  {
    if us != {} {
      var u :| u in us;
      ImageWithin(w, keys - {KeyOf(w.machines[u])}, us - {u});
    }
  }

  /** Added up over the deployments. */
  function TotalOwned(f: R.Fleet, ds: seq<Key>): nat {
    if ds == [] then 0 else R.Count(f, ds[0]) + TotalOwned(f, ds[1..])
  }

  lemma {:induction false} OwnedCovers(f: R.Fleet, ds: seq<Key>, keys: set<Key>)
    requires keys <= f.machines.Keys && forall k :: k in keys ==> exists d :: d in ds && k in R.Owned(f, d)
    ensures |keys| <= TotalOwned(f, ds)
  {
    if ds == [] {
      assert keys == {};
    } else {
      var mine := R.Owned(f, ds[0]);
      var rest := keys - mine;
      forall k | k in rest ensures exists d :: d in ds[1..] && k in R.Owned(f, d) {
        var d :| d in ds && k in R.Owned(f, d);
      }
      OwnedCovers(f, ds[1..], rest);
      SizeOfUnion(mine, rest);
      SizeOfSubset(keys, mine + rest);
    }
  }

  lemma SizeOfUnion<T>(a: set<T>, b: set<T>)
    ensures |a + b| <= |a| + |b|
  {
    assert a + b == a + (b - a);
    assert b == (b - a) + (b * a);
  }

  lemma SizeOfSubset<T>(a: set<T>, b: set<T>)
    requires a <= b
    ensures |a| <= |b|
  {
    assert b == a + (b - a);
  }

  /** The servers ever accepted whose id never reached the store: one per lost status write. */
  ghost function LostServers(w: W.World): set<string> {
    set v | v in w.vms && !M.EverStored(w, w.vms[v], v)
  }

  ghost function KeptServers(w: W.World): set<string> {
    set v | v in w.vms && M.EverStored(w, w.vms[v], v)
  }

  lemma OneKeptEach(w: W.World, v: string, v': string)
    requires I.Inv(w) && v in KeptServers(w) && v' in KeptServers(w) && w.vms[v] == w.vms[v']
    ensures v == v'
  {
    var uid := w.vms[v];
    M.InvConservation(w, uid);
    assert v in M.PostedFor(w, uid) && v' in M.PostedFor(w, uid);
    assert v in M.RecordedFor(w, uid) && v' in M.RecordedFor(w, uid);
  }

  lemma {:induction false} KeptWithin(w: W.World, vs: set<string>, us: set<nat>)
    requires I.Inv(w) && vs <= KeptServers(w) && forall v :: v in vs ==> w.vms[v] in us
    ensures |vs| <= |us|
  {
    if vs != {} {
      var v :| v in vs;
      forall v' | v' in vs - {v} ensures w.vms[v'] in us - {w.vms[v]} {
        if w.vms[v'] == w.vms[v] {
          OneKeptEach(w, v, v');
        }
      }
      KeptWithin(w, vs - {v}, us - {w.vms[v]});
    }
  }

  lemma ServersWithinMachines(w: W.World)
    requires I.Inv(w)
    ensures |w.vms| <= |w.machines| + |LostServers(w)|
  {
    KeptWithin(w, KeptServers(w), w.machines.Keys);
    assert w.vms.Keys == KeptServers(w) + LostServers(w);
    SizeOfUnion(KeptServers(w), LostServers(w));
    assert |w.vms| == |w.vms.Keys| && |w.machines| == |w.machines.Keys|;
  }

  lemma MachinesWithinDeployments(j: Joint, ds: seq<Key>)
    requires JointInv(j, ds)
    ensures |j.w.machines| <= TotalOwned(j.f, ds)
  {
    ImageWithin(j.w, j.f.machines.Keys, j.w.machines.Keys);
    OwnedCovers(j.f, ds, j.f.machines.Keys);
    assert |j.w.machines| == |j.w.machines.Keys|;
  }

  // ---------- the bound ----------

  lemma {:induction false} FleetRunLegal(j: Joint, run: seq<Step>)
    requires Legal(j, run)
    ensures R.Legal(j.f, FleetRun(run)) && R.Exec(j.f, FleetRun(run)) == Exec(j, run).f
    decreases |run|
  {
    if run != [] {
      var s := run[0];
      var rest := FleetRun(run[1..]);
      FleetRunLegal(Apply(j, s), run[1..]);
      if s.OfDeployments? {
        assert FleetRun(run)[0] == s.t && FleetRun(run)[1..] == rest;
      } else {
        assert FleetRun(run) == rest;
      }
    }
  }

  predicate AllBeginWithin(run: seq<Step>, ds: seq<Key>) {
    forall i :: 0 <= i < |run| ==> BeginsWithin(run[i], ds)
  }

  lemma {:induction false} RunKeepsJoint(j: Joint, run: seq<Step>, ds: seq<Key>)
    requires JointInv(j, ds) && Legal(j, run) && AllBeginWithin(run, ds)
    ensures JointInv(Exec(j, run), ds)
    decreases |run|
  {
    if run != [] {
      StepKeepsJoint(j, run[0], ds);
      RunKeepsJoint(Apply(j, run[0]), run[1..], ds);
    }
  }

  /** What each deployment is entitled to: what it owned at the start, or the largest Replicas
      it ever asked for. */
  function Entitled(f: R.Fleet, ds: seq<Key>, largest: map<Key, int>): int
    requires forall d :: d in ds ==> d in largest
  {
    if ds == [] then 0
    else R.Max(R.Count(f, ds[0]), largest[ds[0]]) + Entitled(f, ds[1..], largest)
  }

  /** `largest` bounds every Replicas value the deployment asks for. */
  ghost predicate Bounds(f: R.Fleet, run: seq<R.Step>, d: Key, largest: map<Key, int>) {
    && R.Legal(f, run)
    && d in largest && R.Within(f, d, largest[d]) && R.RequestsWithin(run, d, largest[d])
  }

  /** What the lists of the deployments' passes failed to show, added up. */
  function TotalLag(f: R.Fleet, run: seq<R.Step>, ds: seq<Key>): nat
    requires R.Legal(f, run)
  {
    if ds == [] then 0 else R.Lag(f, run, ds[0]) + TotalLag(f, run, ds[1..])
  }

  lemma {:induction false} TotalWithinEntitled(f: R.Fleet, run: seq<R.Step>, ds: seq<Key>, largest: map<Key, int>)
    requires R.Legal(f, run) && f.todo == map[] && forall d :: d in ds ==>
              d in largest && Bounds(f, run, d, largest)
    ensures TotalOwned(R.Exec(f, run), ds) <= Entitled(f, ds, largest) + TotalLag(f, run, ds)
  {
    if ds != [] {
      assert ds[0] in ds && Bounds(f, run, ds[0], largest);
      R.NeverTooMany(f, run, ds[0], largest[ds[0]]);
      TotalWithinEntitled(f, run, ds[1..], largest);
    }
  }

  /** In every run of machine and deployment passes, the servers on the cloud number at most
      what the deployments are entitled to, plus what their lists failed to show, plus the
      lost status writes. */
  lemma VmBoundWithLag(j: Joint, run: seq<Step>, ds: seq<Key>, largest: map<Key, int>)
    requires P.Reachable(j.w) && Mirrored(j) && AllOwned(j.f, ds) && j.f.todo == map[]
    requires Legal(j, run) && AllBeginWithin(run, ds)
    requires forall d :: d in ds ==> d in largest && Bounds(j.f, FleetRun(run), d, largest)
    ensures R.Legal(j.f, FleetRun(run))
    ensures |Exec(j, run).w.vms| <=
            Entitled(j.f, ds, largest) + TotalLag(j.f, FleetRun(run), ds) + |LostServers(Exec(j, run).w)|
  {
    P.ReachableInv(j.w);
    RunKeepsJoint(j, run, ds);
    FleetRunLegal(j, run);
    TotalWithinEntitled(j.f, FleetRun(run), ds, largest);
    MachinesWithinDeployments(Exec(j, run), ds);
    ServersWithinMachines(Exec(j, run).w);
  }

  lemma {:induction false} NoLag(f: R.Fleet, run: seq<R.Step>, ds: seq<Key>)
    requires R.Legal(f, run) && forall d :: d in ds ==> !R.SawTooFew(f, run, d)
    ensures TotalLag(f, run, ds) == 0
  {
    if ds != [] {
      R.LagIsSeeingTooFew(f, run, ds[0]);
      NoLag(f, run, ds[1..]);
    }
  }

  /** When no pass sees too few machines, as with up-to-date lists, the entitlement and the
      lost status writes are all there is. */
  lemma GlobalVmBound(j: Joint, run: seq<Step>, ds: seq<Key>, largest: map<Key, int>)
    requires P.Reachable(j.w) && Mirrored(j) && AllOwned(j.f, ds) && j.f.todo == map[]
    requires Legal(j, run) && AllBeginWithin(run, ds)
    requires forall d :: d in ds ==>
               d in largest && Bounds(j.f, FleetRun(run), d, largest) && !R.SawTooFew(j.f, FleetRun(run), d)
    ensures |Exec(j, run).w.vms| <= Entitled(j.f, ds, largest) + |LostServers(Exec(j, run).w)|
  {
    VmBoundWithLag(j, run, ds, largest);
    NoLag(j.f, FleetRun(run), ds);
  }
}

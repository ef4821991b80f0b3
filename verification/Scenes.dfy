/** Runs that show the differences between what the code does and what it means to do: one
    control plane, one worker, one public IP. */
module Scenes {
  import opened KTObjects
  import opened Pass
  import opened World
  import opened Invariant
  import opened Preservation
  import opened Guarantees
  import opened Machines
  import opened Progress
  import opened Reach

  const NS := "ns"
  const WORKER := "w"
  const CLUSTER := KTCluster("c", true, false)
  const PUBLIC := PublicIp("ip", "1.2.3.4", ASSOCIATE)
  const ADDRESSES: map<string, seq<string>> := map["net" := ["10.0.0.1"]]

  // What is stored of the control plane, phase by phase.
  const POSTED := Status("vm", CREATING, map[], [], NO_REF, false)
  const ACTIVE := Status("vm", STATUS_ACTIVE, ADDRESSES, [], NO_REF, false)
  const WITH_IP := ACTIVE.(ips := [AssignedIp("ip", "1.2.3.4", "nat", "net", "10.0.0.1")])
  const PENDING := WITH_IP.(cpRef := ControlPlaneRef(BOOTSTRAP_READY, false))
  const READY := WITH_IP.(cpRef := ControlPlaneRef(BOOTSTRAP_READY, true))

  /** A reachable world whose pass `pid`, the last begun, stands at `l` over machine 0, the
      control plane and only machine, with the newest version in hand. */
  ghost predicate At(w: World, pid: nat, l: Local, stored: Status) {
    && Reachable(w)
    && w.machines.Keys == {0} && w.machines[0].live && |w.machines[0].versions| > 0
    && w.machines[0].ns == NS && w.machines[0].name == CONTROL_PLANE_LABEL && w.machines[0].cluster == CLUSTER.name
    && Stored(w, 0) == stored && w.machines[0].versions[0] == NEW_STATUS && l.rv == |w.machines[0].versions| - 1
    && (NS, CLUSTER) in w.clusters && w.ips == map["ip" := "1.2.3.4"]
    && pid in w.passes && w.passes[pid] == l
    && (forall p :: p in w.passes ==> p <= pid && (p < pid ==> w.passes[p].pc.Done?))
    && (forall v :: v in w.vms ==> w.vms[v] == 0)
    && l.uid == 0 && l.ns == NS && l.name == CONTROL_PLANE_LABEL && l.cluster == CLUSTER
  }

  lemma Go(w: World, pid: nat, r: Reply) returns (w': World)
    requires Reachable(w) && pid in w.passes && CanReply(w, w.passes[pid], r)
    ensures Reachable(w') && w' == SetPass(Effect(w, pid, w.passes[pid], r), pid, After(w.passes[pid], r))
  {
    ReachNext(w, Deliver(pid, r));
    w' := Apply(w, Deliver(pid, r));
  }

  lemma AtPost() returns (w: World, l: Local)
    ensures At(w, 0, l, NEW_STATUS) && l.pc.PostVm? && l.st == NEW_STATUS
    ensures w.vms == map[] && w.nats == map[] && w.secrets == map[]
  {
    var w0 := World({(NS, CLUSTER)}, map[], map[], map[], map["ip" := "1.2.3.4"], map[], map[], []);
    assert Legal(w0, []) && Exec(w0, []) == w0;
    var m := Machine(NS, CONTROL_PLANE_LABEL, CLUSTER.name, [NEW_STATUS], true);
    ReachNext(w0, CreateMachine(0, m));
    var w1 := Apply(w0, CreateMachine(0, m));
    ReachNext(w1, Begin(0, 0, 0, CLUSTER));
    w := Apply(w1, Begin(0, 0, 0, CLUSTER));
    l := w.passes[0];
  }

  lemma AtRecord() returns (w: World, l: Local)
    ensures At(w, 0, l, NEW_STATUS) && l.pc.RecordVm? && l.st == POSTED && w.nats == map[] && w.secrets == map[]
  {
    var w0, l0 := AtPost();
    l := l0.(st := POSTED, pc := RecordVm);
    w := Go(w0, 0, Vm(CloudVm("vm", "", map[])));
  }

  /** The first pass posts the server and records it. */
  lemma AtFirstEnd() returns (w: World, l: Local)
    ensures At(w, 0, l, POSTED) && l.pc.Done? && w.nats == map[] && w.secrets == map[]
  {
    var w0, l0 := AtRecord();
    MachinesAfter(w0, 0, l0, Written);
    w := Go(w0, 0, Written);
    l := w.passes[0];
  }

  lemma Ask(w: World, l: Local, stored: Status, r: Reply) returns (w': World)
    requires At(w, 1, l, stored) && OnlyAsks(l.pc) && CanReply(w, l, r)
    ensures At(w', 1, After(l, r), stored) && w'.secrets == w.secrets && w'.nats == w.nats
  {
    AskingHasNoEffect(w, 1, l, r);
    SameIdentity(l, r);
    w' := Go(w, 1, r);
  }

  /** A status write that lands. */
  lemma Write(w: World, l: Local, stored: Status) returns (w': World)
    requires At(w, 1, l, stored) && IsWrite(l.pc) && !l.pc.RecordWorker?
    ensures At(w', 1, After(l, Written), l.st) && w'.secrets == w.secrets && w'.nats == w.nats
  {
    WrittenCan(w, l);
    SameIdentity(l, Written);
    MachinesAfter(w, 1, l, Written);
    WriteOfCopy(l);
    w' := Go(w, 1, Written);
    AtCommitted(w, l, stored, w', After(l, Written));
  }

  lemma WrittenCan(w: World, l: Local)
    requires IsWrite(l.pc) && Current(w, l)
    ensures CanReply(w, l, Written)
  {
  }

  lemma AtCommitted(w: World, l: Local, stored: Status, w': World, l': Local)
    requires At(w, 1, l, stored) && Reachable(w') && SamePass(l, l') && l'.rv == l.rv + 1
    requires w' == SetPass(Commit(w, 1, 0, l.st), 1, l')
    ensures At(w', 1, l', l.st) && w'.secrets == w.secrets && w'.nats == w.nats
  {
  }

  lemma WriteOfCopy(l: Local)
    requires IsWrite(l.pc) && !l.pc.RecordWorker?
    ensures WriteOf(l) == l.st
  {
  }

  lemma AtSecondBegin() returns (w: World, l: Local)
    ensures At(w, 1, l, POSTED) && l.pc.GetVm? && l.st == POSTED && w.nats == map[] && w.secrets == map[]
  {
    var w0, l0 := AtFirstEnd();
    var rv := |w0.machines[0].versions| - 1;
    ReachNext(w0, Begin(1, 0, rv, CLUSTER));
    w := Apply(w0, Begin(1, 0, rv, CLUSTER));
    l := w.passes[1];
  }

  /** The second pass is told ACTIVE and overwrites the status. */
  lemma AtPick() returns (w: World, l: Local)
    ensures At(w, 1, l, ACTIVE) && l.pc.PickAddress? && l.st == ACTIVE && w.nats == map[] && w.secrets == map[]
  {
    var w0, l0 := AtSecondBegin();
    var w1 := Ask(w0, l0, POSTED, Vm(CloudVm("vm", STATUS_ACTIVE, ADDRESSES)));
    l := l0.(st := ACTIVE, pc := Overwrite);
    w := Write(w1, l, POSTED);
    l := l.(rv := l.rv + 1, pc := PickAddress);
  }

  lemma AtNat() returns (w: World, l: Local)
    ensures At(w, 1, l, ACTIVE) && l.st == ACTIVE && l.pc == PostNat(PUBLIC, "net", "10.0.0.1")
    ensures w.nats == map[] && w.secrets == map[]
  {
    var w0, l0 := AtPick();
    var w1 := Ask(w0, l0, ACTIVE, Picked("net", "10.0.0.1"));
    l := l0.(pc := ListIps("net", "10.0.0.1"));
    OneAvailable();
    w := Ask(w1, l, ACTIVE, Ips([PUBLIC]));
    l := l.(pc := PostNat(PUBLIC, "net", "10.0.0.1"));
  }

  lemma OneAvailable()
    ensures Available([PUBLIC]) == [PUBLIC]
  {
    assert [PUBLIC][..0] == [];
  }

  lemma Nat1(w: World, l: Local) returns (w': World)
    requires At(w, 1, l, ACTIVE) && l.st == ACTIVE && l.pc == PostNat(PUBLIC, "net", "10.0.0.1") && w.nats == map[]
    ensures At(w', 1, l.(st := WITH_IP, pc := RecordIp), ACTIVE) && w'.secrets == w.secrets
  {
    w' := Go(w, 1, Nat("nat"));
  }

  /** It records its public IP and is about to mark the machine pending. */
  lemma AtPending() returns (w: World, l: Local)
    ensures At(w, 1, l, WITH_IP) && l.pc.MarkPending? && l.st == PENDING && w.secrets == map[]
  {
    var w0, l0 := AtNat();
    var w1 := Nat1(w0, l0);
    l := l0.(st := WITH_IP, pc := RecordIp);
    w := Write(w1, l, ACTIVE);
    l := After(l, Written);
  }

  lemma AtFetch() returns (w: World, l: Local)
    ensures At(w, 1, l, PENDING) && l.pc == Fetch(0, None, false) && l.st == PENDING && w.secrets == map[]
  {
    var w0, l0 := AtPending();
    var w1 := Write(w0, l0, WITH_IP);
    l := l0.(rv := l0.rv + 1, pc := Probe);
    w := Ask(w1, l, PENDING, Ok);
    l := l.(pc := Fetch(0, None, false));
  }

  lemma AtSecret() returns (w: World, l: Local)
    ensures At(w, 1, l, PENDING) && l.pc == CreateSecret("kubeconfig") && l.st == PENDING && w.secrets == map[]
  {
    var w0, l0 := AtFetch();
    w := Ask(w0, l0, PENDING, Body("kubeconfig"));
    l := l0.(pc := CreateSecret("kubeconfig"));
  }

  /** It created the Secret and is about to turn the machine ready. */
  lemma AtMarkReady() returns (w: World, l: Local)
    ensures At(w, 1, l, PENDING) && l.pc.MarkReady? && l.st == READY
    ensures CLUSTER.name in w.secrets && w.secrets[CLUSTER.name].creator == Some(1)
  {
    var w0, l0 := AtSecret();
    w := Go(w0, 1, Ok);
    l := w.passes[1];
  }

  lemma AtReady() returns (w: World, l: Local)
    ensures At(w, 1, l, READY) && l.pc.Done?
    ensures CLUSTER.name in w.secrets && w.secrets[CLUSTER.name].creator == Some(1)
  {
    var w0, l0 := AtMarkReady();
    w := Write(w0, l0, PENDING);
    l := w.passes[1];
  }

  /** A pass that created the Secret crashes before its ready write: the name is taken, the
      control plane is pending, and it can never turn ready. */
  lemma SecretLostToCrash() returns (w: World)
    ensures Reachable(w) && NameTaken(w, CLUSTER.name)
    ensures 0 in w.machines && w.machines[0].cluster == CLUSTER.name && RankOf(w, 0) == 3
    ensures !CanBeReady(RankOf(w, 0), SecretFree(w, CLUSTER))
  {
    var w0, l := AtMarkReady();
    ReachNext(w0, Crash(1));
    w := Apply(w0, Crash(1));
  }

  /** A pass that recorded the public IP crashes before its pending mark: with the Secret's
      name free, the control plane can still never turn ready. */
  lemma NeverMarkedPending() returns (w: World)
    ensures Reachable(w) && 0 in w.machines && RankOf(w, 0) == 2 && Settled(w, 0) && OnlyAsking(w, 0)
    ensures SecretFree(w, CLUSTER) && !CanBeReady(RankOf(w, 0), SecretFree(w, CLUSTER))
  {
    var w0, l := AtPending();
    ReachNext(w0, Crash(1));
    w := Apply(w0, Crash(1));
  }

  /** The cloud reports another state of a ready control plane once: the overwrite takes its IP
      and its ready flag, and with the Secret's name taken by its own earlier pass it can never
      be ready again. */
  lemma ReadyLostToOverwrite() returns (w: World, uid: nat, i: nat)
    ensures Reachable(w) && uid in w.machines && i < |w.machines[uid].versions|
    ensures w.machines[uid].versions[i].cpRef.ready && NameTaken(w, w.machines[uid].cluster)
    ensures RankOf(w, uid) == 1 && !CanBeReady(RankOf(w, uid), SecretFree(w, CLUSTER))
  {
    var w0, l0 := AtShutOff();
    uid, i := 0, |w0.machines[0].versions| - 1;
    w := Go(w0, 2, Written);
  }

  lemma AtThirdPass(rv: nat) returns (w: World, l: Local)
    ensures Reachable(w) && 0 in w.machines && |w.machines[0].versions| > 0 && Stored(w, 0) == READY
    ensures w.machines[0].live && w.machines[0].cluster == CLUSTER.name && w.machines[0].name == CONTROL_PLANE_LABEL
    ensures 2 in w.passes && w.passes[2] == l && 1 in w.passes && w.passes[1].pc.Done?
    ensures CLUSTER.name in w.secrets && w.secrets[CLUSTER.name].creator == Some(1)
    ensures l.uid == 0 && l.name == CONTROL_PLANE_LABEL && w.machines[0].versions[0] == NEW_STATUS
    ensures l.rv == (if rv == 0 then 0 else |w.machines[0].versions| - 1)
    ensures l.st == w.machines[0].versions[l.rv] && l.pc == if l.st.id == "" then PostVm else GetVm
  {
    var w0, l0 := AtReady();
    var from := if rv == 0 then 0 else |w0.machines[0].versions| - 1;
    ReachNext(w0, Begin(2, 0, from, CLUSTER));
    w := Apply(w0, Begin(2, 0, from, CLUSTER));
    l := w.passes[2];
  }

  lemma AtShutOff() returns (w: World, l: Local)
    ensures Reachable(w) && 0 in w.machines && |w.machines[0].versions| > 0 && Stored(w, 0) == READY
    ensures w.machines[0].live && w.machines[0].cluster == CLUSTER.name && w.machines[0].name == CONTROL_PLANE_LABEL
    ensures 2 in w.passes && w.passes[2] == l && 1 in w.passes && w.passes[1].pc.Done?
    ensures CLUSTER.name in w.secrets && w.secrets[CLUSTER.name].creator == Some(1)
    ensures l.uid == 0 && l.rv == |w.machines[0].versions| - 1 && l.pc.Overwrite?
    ensures l.st == FromCloud(CloudVm("vm", "SHUTOFF", ADDRESSES))
  {
    var w0, l0 := AtThirdPass(1);
    w := Go(w0, 2, Vm(CloudVm("vm", "SHUTOFF", ADDRESSES)));
    l := w.passes[2];
  }

  /** A pass begun on version 0 of a ready control plane posts a second server for it. */
  lemma StalePassPosts() returns (w: World, id: string)
    ensures Reachable(w) && 0 in w.machines && |w.machines[0].versions| > 0 && Stored(w, 0) == READY
    ensures id != "vm" && {"vm", id} <= PostedFor(w, 0)
  {
    var w0, l := AtStalePost();
    id := FreshName(w0.vms.Keys);
    w := Go(w0, 2, Vm(CloudVm(id, "", map[])));
  }

  lemma AtStalePost() returns (w: World, l: Local)
    ensures Reachable(w) && 0 in w.machines && |w.machines[0].versions| > 0 && Stored(w, 0) == READY
    ensures 2 in w.passes && w.passes[2] == l && l.uid == 0 && l.pc.PostVm? && "vm" in w.vms && w.vms["vm"] == 0
  {
    w, l := AtThirdPass(0);
    ServerKnown(w);
  }

  lemma ServerKnown(w: World)
    requires Reachable(w) && 0 in w.machines && |w.machines[0].versions| > 0 && Stored(w, 0) == READY
    ensures "vm" in w.vms && w.vms["vm"] == 0
  {
    ReachableInv(w);
    assert HistoryOk(w, 0);
    assert VersionOk(w, 0, Stored(w, 0));
  }

  // ---------- a worker ----------

  /** A worker beside a ready control plane: its pass stands at `l`. */
  ghost predicate WorkerAt(w: World, l: Local) {
    && Reachable(w) && 1 in w.machines && w.machines[1].live && w.machines[1].versions == [NEW_STATUS]
    && w.machines[1].ns == NS && w.machines[1].name == WORKER
    && (forall v :: v in w.vms ==> w.vms[v] != 1)
    && 2 in w.passes && w.passes[2] == l && l.uid == 1 && l.rv == 0 && l.name == WORKER && l.st == NEW_STATUS
  }

  lemma WorkerName()
    ensures !IsControlPlane(WORKER) && IsControlPlane(CONTROL_PLANE_LABEL) && WORKER != CONTROL_PLANE_LABEL
  {
    assert WORKER[1..] == "";
    assert |CONTROL_PLANE_LABEL| > 1;
  }

  /** The worker object, beside the ready control plane. */
  lemma AtWorker() returns (w: World)
    ensures Reachable(w) && 1 in w.machines && w.machines[1] == Machine(NS, WORKER, CLUSTER.name, [NEW_STATUS], true)
    ensures (forall v :: v in w.vms ==> w.vms[v] != 1) && 2 !in w.passes && (NS, CLUSTER) in w.clusters
    ensures 0 in w.machines && Listable(w, NS, Listed(0, CONTROL_PLANE_LABEL, READY))
  {
    var w0, l0 := AtReady();
    var m := Machine(NS, WORKER, CLUSTER.name, [NEW_STATUS], true);
    ReachNext(w0, CreateMachine(1, m));
    w := Apply(w0, CreateMachine(1, m));
  }

  lemma AtList() returns (w: World, l: Local)
    ensures WorkerAt(w, l) && l.pc.ListMachines? && l.ns == NS
    ensures 0 in w.machines && Listable(w, NS, Listed(0, CONTROL_PLANE_LABEL, READY))
  {
    WorkerName();
    var w0 := AtWorker();
    ReachNext(w0, Begin(2, 1, 0, CLUSTER));
    w := Apply(w0, Begin(2, 1, 0, CLUSTER));
    l := w.passes[2];
  }

  lemma WorkerAsks(w: World, l: Local, r: Reply) returns (w': World)
    requires WorkerAt(w, l) && OnlyAsks(l.pc) && CanReply(w, l, r) && After(l, r).st == NEW_STATUS
    ensures WorkerAt(w', After(l, r))
  {
    AskingHasNoEffect(w, 2, l, r);
    SameIdentity(l, r);
    w' := Go(w, 2, r);
  }

  lemma OneCandidate()
    ensures var m := Listed(0, CONTROL_PLANE_LABEL, READY); Candidates(WORKER, [m]) == [m]
  {
    WorkerName();
    var m := Listed(0, CONTROL_PLANE_LABEL, READY);
    assert [m][..0] == [];
  }

  lemma AtProbe() returns (w: World, l: Local)
    ensures WorkerAt(w, l) && l.pc == ProbeCandidate([Listed(0, CONTROL_PLANE_LABEL, READY)], 0)
  {
    var w0, l0 := AtList();
    OneCandidate();
    var m := Listed(0, CONTROL_PLANE_LABEL, READY);
    l := l0.(pc := ProbeCandidate([m], 0));
    w := WorkerAsks(w0, l0, Machines([m]));
  }

  lemma AtPostWorker() returns (w: World, l: Local)
    ensures WorkerAt(w, l) && l.pc == PostWorker("10.0.0.1")
  {
    var w0, l0 := AtProbe();
    l := l0.(pc := PostWorker("10.0.0.1"));
    w := WorkerAsks(w0, l0, Ok);
  }

  /** The one candidate does not answer: the pass panics. */
  lemma NobodyAnswers() returns (w: World)
    ensures Reachable(w) && 2 in w.passes && w.passes[2].pc == Done(Panic)
  {
    var w0, l := AtProbe();
    w := Go(w0, 2, Failed);
  }

  lemma AtFlag() returns (w: World, l: Local)
    ensures Reachable(w) && 1 in w.machines && w.machines[1].live && w.machines[1].versions == [NEW_STATUS]
    ensures 2 in w.passes && w.passes[2] == l && l.pc.MarkJoined? && l.uid == 1 && l.rv == 0
    ensures l.st == NEW_STATUS.(joined := true) && PostedFor(w, 1) == {}
  {
    var w0, l0 := AtPostWorker();
    w := Go(w0, 2, Refused);
    l := w.passes[2];
  }

  /** The cloud refuses the POST and the flag write lands: the worker is stranded. */
  lemma WorkerStranded() returns (w: World)
    ensures Reachable(w) && 1 in w.machines && w.machines[1].versions == [NEW_STATUS, NEW_STATUS.(joined := true)]
    ensures PostedFor(w, 1) == {}
  {
    var w0, l := AtFlag();
    w := Go(w0, 2, Written);
  }
}

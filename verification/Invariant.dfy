/** What every reachable world satisfies, and that every step keeps it. */
module Invariant {
  import opened KTObjects
  import opened Pass
  import opened World

  /** Every recorded NAT pairs its public IP with an address the same status lists. */
  predicate PairsListed(st: Status) {
    forall a :: a in st.ips ==> a.network in st.addresses && a.pvtIp in st.addresses[a.network]
  }

  /** What a stored status can look like. */
  predicate StatusOk(cp: bool, st: Status) {
    && (st.id == "" <==> st.state == "")
    && (st.id == "" ==> st.ips == [])
    && (if cp then
          && !st.joined
          && |st.ips| <= 1
          && (st.ips != [] ==> st.state == STATUS_ACTIVE)
          && (st.cpRef.kind == "" || st.cpRef.kind == BOOTSTRAP_READY)
          && (st.cpRef.kind == BOOTSTRAP_READY ==> |st.ips| == 1)
          && (st.cpRef.ready ==> st.cpRef.kind == BOOTSTRAP_READY)
          && PairsListed(st)
        else
          && st.ips == []
          && st.cpRef == NO_REF
          && (st.joined ==> st.id == ""))
  }

  /** How one stored status may follow another. */
  predicate Follows(s: Status, t: Status) {
    && (s.id != "" ==> t.id == s.id)
    && (t.ips == s.ips || s.ips == [] || Erased(s, t))
    && (s.joined ==> t == s)
    && (s.cpRef.ready ==> t.cpRef.ready || Erased(s, t))
  }

  /** The whole-status overwrite: the cloud's status string moved and the operator's fields went. */
  predicate Erased(s: Status, t: Status) {
    t.state != s.state && t.ips == [] && t.cpRef == NO_REF && !t.joined
  }

  predicate IsBare(st: Status) {
    st.ips == [] && st.cpRef == NO_REF && !st.joined
  }

  /** The pass's copy against the stored version it carries. */
  predicate LocalOk(l: Local, base: Status) {
    var cp := IsControlPlane(l.name);
    match l.pc
    case PostVm => cp && l.st == base && base.id == ""
    case RecordVm => cp && base.id == "" && l.st.id != "" && l.st.state == CREATING && IsBare(l.st)
    case GetVm => cp && l.st == base && base.id != ""
    case Overwrite =>
      cp && base.id != "" && l.st.id == base.id && l.st.state != "" && l.st.state != base.state && IsBare(l.st)
    case PickAddress => cp && Attaching(l, base)
    case ListIps(n, a) => cp && Attaching(l, base) && Listed1(base, n, a)
    case PostNat(_, n, a) => cp && Attaching(l, base) && Listed1(base, n, a)
    case RecordIp =>
      && cp && base == l.st.(ips := []) && |l.st.ips| == 1 && base.id != ""
      && base.state == STATUS_ACTIVE && PairsListed(l.st)
    case AddFirewall => cp && l.st == base && |base.ips| == 1 && !base.cpRef.ready
    case MarkPending =>
      && cp && |l.st.ips| == 1 && !base.cpRef.ready
      && l.st == base.(cpRef := ControlPlaneRef(BOOTSTRAP_READY, false))
    case Probe => cp && Probing(l, base)
    case Fetch(_, _, _) => cp && Probing(l, base)
    case CreateSecret(_) => cp && Probing(l, base)
    case MarkReady =>
      && cp && |l.st.ips| == 1
      && base == l.st.(cpRef := ControlPlaneRef(BOOTSTRAP_READY, false))
      && l.st.cpRef == ControlPlaneRef(BOOTSTRAP_READY, true)
    case ListMachines => !cp && l.st == base && Unjoined(base)
    case ProbeCandidate(cands, i) =>
      !cp && l.st == base && Unjoined(base) && i < |cands| && |cands[i].st.ips| == 1
    case PostWorker(_) => !cp && l.st == base && Unjoined(base)
    case RecordWorker(vm) => !cp && l.st == base && Unjoined(base) && vm.id != ""
    case MarkJoined => !cp && Unjoined(base) && l.st == base.(joined := true)
    case GetWorkerVm => !cp && l.st == base
    case OverwriteWorker =>
      !cp && base.id != "" && l.st.id == base.id && l.st.state != "" && l.st.state != base.state && IsBare(l.st)
    // The only panic left is a worker none of whose candidates answered.
    case Done(v) => v.Panic? ==> !cp
  }

  predicate Attaching(l: Local, base: Status) {
    l.st == base && base.ips == [] && base.id != "" && base.state == STATUS_ACTIVE && l.cluster.external
  }

  predicate Listed1(st: Status, n: string, a: string) {
    n in st.addresses && a in st.addresses[n]
  }

  predicate Probing(l: Local, base: Status) {
    l.st == base && base.cpRef == ControlPlaneRef(BOOTSTRAP_READY, false) && |base.ips| == 1
  }

  predicate Unjoined(st: Status) {
    st.id == "" && st.state == "" && !st.joined
  }

  // ---------- the log ----------

  predicate AttachedAt(log: seq<Event>, j: int, uid: nat) {
    0 <= j < |log| && log[j].NatAttached? && log[j].uid == uid
  }

  predicate SecretAt(log: seq<Event>, k: int, cluster: string) {
    0 <= k < |log| && log[k].SecretCreated? && log[k].cluster == cluster
  }

  /** A status write that turned ControlPlaneRef.Status from false to true. */
  predicate IsFlip(e: Event) {
    e.StatusWritten? && !e.before.cpRef.ready && e.after.cpRef.ready
  }

  predicate FlipAt(log: seq<Event>, k: int, uid: nat) {
    0 <= k < |log| && IsFlip(log[k]) && log[k].uid == uid
  }

  /** A NAT for the machine among the first n events. */
  ghost predicate Attached(log: seq<Event>, n: int, uid: nat) {
    exists j :: j < n && AttachedAt(log, j, uid)
  }

  /** ... followed by a Secret for the cluster ... */
  ghost predicate Unlocked(log: seq<Event>, n: int, uid: nat, cluster: string) {
    exists k :: k < n && SecretAt(log, k, cluster) && Attached(log, k, uid)
  }

  /** ... followed by the machine's ready write. */
  ghost predicate Bootstrapped(log: seq<Event>, n: int, uid: nat, cluster: string) {
    exists k :: k < n && FlipAt(log, k, uid) && Unlocked(log, k, uid, cluster)
  }

  /** By the n-th event, some control plane of the namespace had been bootstrapped in
      order, and `address` is the private side of the NAT it was ready with. */
  ghost predicate JoinPoint(w: World, n: int, ns: string, address: string) {
    exists c: nat, i: nat {:trigger JoinVersion(w, c, i, ns, address)} ::
      JoinVersion(w, c, i, ns, address) && Bootstrapped(w.log, n, c, w.machines[c].cluster)
  }

  ghost predicate JoinVersion(w: World, c: nat, i: nat, ns: string, address: string) {
    && c in w.machines && w.machines[c].ns == ns && IsControlPlane(w.machines[c].name)
    && i < |w.machines[c].versions|
    && var st := w.machines[c].versions[i];
       st.cpRef.ready && st.state == STATUS_ACTIVE && |st.ips| == 1 && st.ips[0].pvtIp == address
  }

  // ---------- the invariant ----------

  ghost predicate NatOf(w: World, uid: nat, a: AssignedIp) {
    a.natId in w.nats && w.nats[a.natId] == NatRecord(uid, a.id) && a.id in w.ips && w.ips[a.id] == a.ip
  }

  ghost predicate VmOf(w: World, uid: nat, vm: string) {
    vm in w.vms && w.vms[vm] == uid
  }

  ghost predicate VersionOk(w: World, uid: nat, st: Status)
    requires uid in w.machines
  {
    && StatusOk(IsControlPlane(w.machines[uid].name), st)
    && (st.id != "" ==> VmOf(w, uid, st.id))
    && (forall a :: a in st.ips ==> NatOf(w, uid, a))
    && (st.ips != [] ==> Attached(w.log, |w.log|, uid))
    && (st.cpRef.ready ==> Bootstrapped(w.log, |w.log|, uid, w.machines[uid].cluster))
  }

  ghost predicate HistoryOk(w: World, uid: nat)
    requires uid in w.machines
  {
    var vs := w.machines[uid].versions;
    && |vs| > 0
    && (forall i :: 0 <= i < |vs| ==> VersionOk(w, uid, vs[i]))
    && (forall i, j :: 0 <= i < |vs| && j == i + 1 && j < |vs| ==> Follows(vs[i], vs[j]))
  }

  ghost predicate MachinesOk(w: World) {
    forall uid :: uid in w.machines ==> HistoryOk(w, uid)
  }

  /** What a pass knows about the world beyond its own copy; all of it stays true. */
  ghost predicate KnowsOk(w: World, pid: nat, l: Local) {
    match l.pc
    case RecordVm => VmOf(w, l.uid, l.st.id)
    case RecordWorker(vm) => VmOf(w, l.uid, vm.id)
    case PostNat(pub, _, _) => pub.id in w.ips && w.ips[pub.id] == pub.ip
    case RecordIp => |l.st.ips| == 1 && NatOf(w, l.uid, l.st.ips[0]) && Attached(w.log, |w.log|, l.uid)
    case MarkReady =>
      && Unlocked(w.log, |w.log|, l.uid, l.cluster.name)
      && l.cluster.name in w.secrets && w.secrets[l.cluster.name].creator == Some(pid)
    case ProbeCandidate(cands, _) => forall m :: m in cands ==> CandidateOk(w, l.ns, m)
    case PostWorker(address) => JoinPoint(w, |w.log|, l.ns, address)
    case _ => true
  }

  ghost predicate CandidateOk(w: World, ns: string, m: Listed) {
    Listable(w, ns, m) && IsControlPlane(m.name) && m.st.cpRef.ready && m.st.state == STATUS_ACTIVE
  }

  ghost predicate PassOk(w: World, pid: nat, l: Local) {
    && l.uid in w.machines
    && var m := w.machines[l.uid];
       && l.ns == m.ns && l.name == m.name && l.cluster.name == m.cluster
       && (l.ns, l.cluster) in w.clusters
       && l.rv < |m.versions|
       && LocalOk(l, m.versions[l.rv])
       && KnowsOk(w, pid, l)
  }

  ghost predicate PassesOk(w: World) {
    forall pid :: pid in w.passes ==> PassOk(w, pid, w.passes[pid])
  }

  /** A public IP carries at most one NAT, and no server has an empty id. */
  ghost predicate CloudOk(w: World) {
    && "" !in w.vms
    && (forall n :: n in w.nats ==> w.nats[n].ipId in w.ips)
    && (forall n, n' :: n in w.nats && n' in w.nats && w.nats[n].ipId == w.nats[n'].ipId ==> n == n')
  }

  ghost predicate External(w: World, ns: string) {
    exists c: KTCluster :: (ns, c) in w.clusters && c.external
  }

  ghost predicate EventOk(w: World, i: nat)
    requires i < |w.log|
  {
    match w.log[i]
    case VmAccepted(uid, vm, join) =>
      && uid in w.machines && VmOf(w, uid, vm)
      && (join.None? <==> IsControlPlane(w.machines[uid].name))
      && (join.Some? ==> JoinPoint(w, i, w.machines[uid].ns, join.value))
    case NatAttached(uid, _, n) =>
      && uid in w.machines && n in w.nats && w.nats[n].owner == uid
      && External(w, w.machines[uid].ns)
    case SecretCreated(cluster, pid) =>
      pid in w.passes && cluster in w.secrets && w.secrets[cluster].creator == Some(pid)
    case StatusWritten(uid, pid, before, after) =>
      && uid in w.machines && pid in w.passes
      && (IsFlip(w.log[i]) ==>
            && w.passes[pid].pc.Done?
            && Unlocked(w.log, i, uid, w.machines[uid].cluster)
            && w.machines[uid].cluster in w.secrets
            && w.secrets[w.machines[uid].cluster].creator == Some(pid))
    case FirewallAdded(_, _, _) => true
  }

  ghost predicate LogOk(w: World) {
    forall i: nat :: i < |w.log| ==> EventOk(w, i)
  }

  /** At most one ready write per cluster name. */
  ghost predicate LockOk(w: World) {
    forall i, j :: 0 <= i < j < |w.log| && IsFlip(w.log[i]) && IsFlip(w.log[j]) ==>
      && w.log[i].uid in w.machines && w.log[j].uid in w.machines
      && w.machines[w.log[i].uid].cluster != w.machines[w.log[j].uid].cluster
  }

  ghost predicate Inv(w: World) {
    MachinesOk(w) && PassesOk(w) && CloudOk(w) && LogOk(w) && LockOk(w)
  }

  lemma InitInv(w: World)
    requires Init(w)
    ensures Inv(w)
  {
  }

  // ---------- worlds only grow ----------

  ghost predicate Grows(w: World, w': World) {
    && w.clusters <= w'.clusters
    && w.log <= w'.log
    && w'.ips == w.ips
    && (forall v :: v in w.vms ==> v in w'.vms && w'.vms[v] == w.vms[v])
    && (forall n :: n in w.nats ==> n in w'.nats && w'.nats[n] == w.nats[n])
    && (forall c :: c in w.secrets ==> c in w'.secrets && w'.secrets[c] == w.secrets[c])
    && (forall u :: u in w.machines ==> u in w'.machines && SameMachine(w.machines[u], w'.machines[u]))
    && (forall p :: p in w.passes ==> p in w'.passes && (w.passes[p].pc.Done? ==> w'.passes[p].pc.Done?))
  }

  predicate SameMachine(m: Machine, m': Machine) {
    m'.ns == m.ns && m'.name == m.name && m'.cluster == m.cluster && m.versions <= m'.versions
  }

  lemma CommitGrows(w: World, pid: nat, uid: nat, st: Status)
    requires uid in w.machines && |w.machines[uid].versions| > 0
    ensures Grows(w, Commit(w, pid, uid, st))
  {
  }

  lemma AcceptVmGrows(w: World, uid: nat, vm: string, join: Option<string>)
    requires vm !in w.vms
    ensures Grows(w, AcceptVm(w, uid, vm, join))
  {
  }

  lemma AttachNatGrows(w: World, pid: nat, uid: nat, n: string, ipId: string)
    requires n !in w.nats
    ensures Grows(w, AttachNat(w, pid, uid, n, ipId))
  {
  }

  lemma StoreSecretGrows(w: World, pid: nat, cluster: string, data: string)
    requires cluster !in w.secrets
    ensures Grows(w, StoreSecret(w, pid, cluster, data))
  {
  }

  lemma NoteFirewallGrows(w: World, pid: nat, uid: nat, n: string)
    ensures Grows(w, NoteFirewall(w, pid, uid, n))
  {
  }

  lemma EffectGrows(w: World, pid: nat, l: Local, r: Reply)
    requires CanReply(w, l, r)
    ensures Grows(w, Effect(w, pid, l, r))
  {
    if IsWrite(l.pc) && r.Written? && |w.machines[l.uid].versions| > 0 {
      CommitGrows(w, pid, l.uid, WriteOf(l));
    } else if l.pc.PostVm? && r.Vm? {
      AcceptVmGrows(w, l.uid, r.vm.id, None);
    } else if l.pc.PostWorker? && r.Vm? {
      AcceptVmGrows(w, l.uid, r.vm.id, Some(l.pc.address));
    } else if l.pc.PostNat? && r.Nat? {
      AttachNatGrows(w, pid, l.uid, r.natId, l.pc.pub.id);
    } else if l.pc.AddFirewall? && r.Ok? {
      NoteFirewallGrows(w, pid, l.uid, LastNat(l.st));
    } else if l.pc.CreateSecret? && r.Ok? {
      StoreSecretGrows(w, pid, l.cluster.name, l.pc.data);
    }
  }

  lemma SetPassGrows(w: World, pid: nat, l: Local)
    requires pid in w.passes && w.passes[pid].pc.Done? ==> l.pc.Done?
    ensures Grows(w, SetPass(w, pid, l))
  {
  }

  lemma GrowsTransitive(w: World, w': World, w'': World)
    requires Grows(w, w') && Grows(w', w'')
    ensures Grows(w, w'')
  {
    assert w.log == w'.log[..|w.log|] == w''.log[..|w.log|];
    forall u | u in w.machines
      ensures u in w''.machines && SameMachine(w.machines[u], w''.machines[u])
    {
      var vs, vs', vs'' := w.machines[u].versions, w'.machines[u].versions, w''.machines[u].versions;
      assert vs == vs'[..|vs|] == vs''[..|vs|];
    }
  }

  lemma StepGrows(w: World, s: Step)
    requires Enabled(w, s)
    ensures Grows(w, Apply(w, s))
  {
    match s
    case Begin(pid, uid, rv, cluster) =>
      var m := w.machines[uid];
      SetPassGrows(w, pid, Start(uid, m.ns, m.name, cluster, rv, m.versions[rv]));
    case Deliver(pid, r) => ReplyGrows(w, pid, r, After(w.passes[pid], r));
    case LoseReply(pid, r) => ReplyGrows(w, pid, r, After(w.passes[pid], Failed));
    case Crash(pid) => SetPassGrows(w, pid, End(w.passes[pid], Error));
    case _ => OutsideGrows(w, s);
  }

  predicate IsOutside(s: Step) {
    s.CreateMachine? || s.DeleteMachine? || s.TouchMachine? || s.PutCluster? || s.OutsiderSecret?
  }

  lemma OutsideGrows(w: World, s: Step)
    requires Enabled(w, s) && IsOutside(s)
    ensures Grows(w, Apply(w, s))
  {
  }

  lemma ReplyGrows(w: World, pid: nat, r: Reply, l': Local)
    requires pid in w.passes && CanReply(w, w.passes[pid], r)
    ensures Grows(w, SetPass(Effect(w, pid, w.passes[pid], r), pid, l'))
  {
    var e := Effect(w, pid, w.passes[pid], r);
    EffectGrows(w, pid, w.passes[pid], r);
    SetPassGrows(e, pid, l');
    GrowsTransitive(w, e, SetPass(e, pid, l'));
  }

  lemma LogGrows(log: seq<Event>, log': seq<Event>, n: int, uid: nat, cluster: string)
    requires log <= log' && n <= |log|
    ensures Attached(log, n, uid) <==> Attached(log', n, uid)
    ensures Unlocked(log, n, uid, cluster) <==> Unlocked(log', n, uid, cluster)
    ensures Bootstrapped(log, n, uid, cluster) <==> Bootstrapped(log', n, uid, cluster)
  {
    assert forall j :: j < n ==> (AttachedAt(log, j, uid) <==> AttachedAt(log', j, uid));
    assert forall k :: k < n ==> (Attached(log, k, uid) <==> Attached(log', k, uid)) by {
      assert forall j :: j < n ==> (AttachedAt(log, j, uid) <==> AttachedAt(log', j, uid));
    }
    assert forall k :: k < n ==> (SecretAt(log, k, cluster) <==> SecretAt(log', k, cluster));
    assert forall k :: k < n ==> (FlipAt(log, k, uid) <==> FlipAt(log', k, uid));
  }

  lemma BoundGrows(log: seq<Event>, n: int, n': int, uid: nat, cluster: string)
    requires n <= n'
    ensures Attached(log, n, uid) ==> Attached(log, n', uid)
    ensures Unlocked(log, n, uid, cluster) ==> Unlocked(log, n', uid, cluster)
    ensures Bootstrapped(log, n, uid, cluster) ==> Bootstrapped(log, n', uid, cluster)
  {
  }

  // ---------- facts that stay ----------

  lemma VersionStays(w: World, w': World, uid: nat, st: Status)
    requires Grows(w, w') && uid in w.machines && VersionOk(w, uid, st)
    ensures VersionOk(w', uid, st)
  {
    var cluster := w.machines[uid].cluster;
    LogGrows(w.log, w'.log, |w.log|, uid, cluster);
    BoundGrows(w'.log, |w.log|, |w'.log|, uid, cluster);
    assert forall a :: a in st.ips && NatOf(w, uid, a) ==> NatOf(w', uid, a);
  }

  lemma JoinPointStays(w: World, w': World, n: int, n': int, ns: string, address: string)
    requires Grows(w, w') && n <= |w.log| && n <= n' && JoinPoint(w, n, ns, address)
    ensures JoinPoint(w', n', ns, address)
  {
    var c: nat, i: nat :| JoinVersion(w, c, i, ns, address) && Bootstrapped(w.log, n, c, w.machines[c].cluster);
    assert w'.machines[c].versions[i] == w.machines[c].versions[i];
    assert JoinVersion(w', c, i, ns, address);
    LogGrows(w.log, w'.log, n, c, w.machines[c].cluster);
    BoundGrows(w'.log, n, n', c, w.machines[c].cluster);
  }

  lemma CandidateStays(w: World, w': World, ns: string, m: Listed)
    requires Grows(w, w') && CandidateOk(w, ns, m)
    ensures CandidateOk(w', ns, m)
  {
    var vs := w.machines[m.uid].versions;
    var i :| 0 <= i < |vs| && vs[i] == m.st;
    assert w'.machines[m.uid].versions[i] == m.st;
  }

  lemma KnowsStays(w: World, w': World, pid: nat, l: Local)
    requires Grows(w, w') && KnowsOk(w, pid, l)
    ensures KnowsOk(w', pid, l)
  {
    match l.pc
    case RecordIp =>
      LogGrows(w.log, w'.log, |w.log|, l.uid, l.cluster.name);
      BoundGrows(w'.log, |w.log|, |w'.log|, l.uid, l.cluster.name);
    case MarkReady =>
      LogGrows(w.log, w'.log, |w.log|, l.uid, l.cluster.name);
      BoundGrows(w'.log, |w.log|, |w'.log|, l.uid, l.cluster.name);
    case ProbeCandidate(cands, _) =>
      forall m | m in cands ensures CandidateOk(w', l.ns, m) {
        CandidateStays(w, w', l.ns, m);
      }
    case PostWorker(address) =>
      JoinPointStays(w, w', |w.log|, |w'.log|, l.ns, address);
    case _ =>
  }

  lemma PassStays(w: World, w': World, pid: nat, l: Local)
    requires Grows(w, w') && PassOk(w, pid, l)
    ensures PassOk(w', pid, l)
  {
    KnowsStays(w, w', pid, l);
    assert w'.machines[l.uid].versions[l.rv] == w.machines[l.uid].versions[l.rv];
  }

  lemma EventStays(w: World, w': World, i: nat)
    requires Grows(w, w') && i < |w.log| && EventOk(w, i)
    ensures EventOk(w', i)
  {
    assert w'.log[i] == w.log[i];
    match w.log[i]
    case VmAccepted(uid, vm, join) =>
      if join.Some? {
        JoinPointStays(w, w', i, i, w.machines[uid].ns, join.value);
      }
    case StatusWritten(uid, _, _, _) =>
      LogGrows(w.log, w'.log, i, uid, w.machines[uid].cluster);
    case _ =>
  }
}

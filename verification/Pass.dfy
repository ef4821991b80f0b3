/** One reconcile pass over one machine, as the sequence of calls it makes.
    A pass holds its own copy of the machine; between two calls anything may
    happen. The program counter names the call the pass is about to make and
    `After` is what the pass does with the reply, up to its next call. */
module Pass {
  import opened KTObjects

  /** How a pass ends. Panic is an index into an empty AssignedPublicIps. */
  datatype Verdict = Nil | Error | Panic

  datatype Pc =
    // control plane
    | PostVm
    | RecordVm
    | GetVm
    | Overwrite
    | PickAddress
    | ListIps(network: string, addr: string)
    | PostNat(pub: PublicIp, network: string, addr: string)
    | RecordIp
    | AddFirewall
    | MarkPending
    | Probe
    | Fetch(tries: nat, got: Option<string>, torn: bool)
    | CreateSecret(data: string)
    | MarkReady
    // worker
    | ListMachines
    | ProbeCandidate(cands: seq<Listed>, next: nat)
    | PostWorker(address: string)
    | RecordWorker(vm: CloudVm)
    | MarkJoined
    | GetWorkerVm
    | OverwriteWorker
    | Done(verdict: Verdict)

  datatype Local = Local(uid: nat, ns: string, name: string, cluster: KTCluster, rv: nat, st: Status, pc: Pc)

  datatype Reply =
    | Failed                                // no usable answer
    | Refused                               // answered, but not with a 2xx
    | Ok
    | Written                               // a status write landed
    | Vm(vm: CloudVm)
    | Picked(network: string, addr: string)
    | Ips(ips: seq<PublicIp>)
    | Nat(natId: string)
    | Body(data: string)                    // a 2xx answer read in full
    | Torn(data: string)                    // a 2xx answer whose body broke off
    | Machines(machines: seq<Listed>)

  const MAX_FETCHES := 24

  function End(l: Local, v: Verdict): Local { l.(pc := Done(v)) }

  /** The first call of a pass that read status `st` at version `rv`. */
  function Start(uid: nat, ns: string, name: string, cluster: KTCluster, rv: nat, st: Status): Local {
    Local(uid, ns, name, cluster, rv, st,
          if IsControlPlane(name) then
            if st.id == "" then PostVm else GetVm
          else
            if st.state == "" && !st.joined then ListMachines else GetWorkerVm)
  }

  /** The control plane once its status agrees with the cloud. */
  function Synced(l: Local): Local {
    if l.st.state != STATUS_ACTIVE then End(l, Nil)
    else if l.cluster.external && |l.st.ips| == 0 then l.(pc := PickAddress)
    else Networked(l)
  }

  /** The control plane once its public IP is settled. */
  function Networked(l: Local): Local {
    if l.st.cpRef.kind == BOOTSTRAP_READY && !l.st.cpRef.ready then
      if |l.st.ips| == 0 then End(l, Panic) else l.(pc := Probe)
    else End(l, Nil)
  }

  function Pending(l: Local): Local {
    l.(st := l.st.(cpRef := ControlPlaneRef(BOOTSTRAP_READY, false)), pc := MarkPending)
  }

  /** The kubeconfig loop after another attempt that did not break out of it. */
  function Refetch(l: Local, tries: nat, got: Option<string>, torn: bool): Local {
    if tries < MAX_FETCHES then l.(pc := Fetch(tries, got, torn))
    else if got.None? || torn then End(l, Error)
    else l.(pc := CreateSecret(got.value))
  }

  /** The worker about to probe candidate `next`; past the last one it indexes
      the address of a machine that was never assigned. */
  function NextCandidate(l: Local, cands: seq<Listed>, next: nat): Local {
    if next < |cands| && |cands[next].st.ips| > 0 then l.(pc := ProbeCandidate(cands, next))
    else End(l, Panic)
  }

  function Joined(l: Local): Local {
    l.(st := l.st.(joined := true), pc := MarkJoined)
  }

  function After(l: Local, r: Reply): Local {
    match l.pc
    case PostVm => (
      match r
      case Refused => End(l, Nil)
      case Vm(vm) => l.(st := FromCloud(vm).(state := CREATING), pc := RecordVm)
      case _ => End(l, Error))
    case RecordVm => if r.Written? then End(l.(rv := l.rv + 1), Nil) else End(l, Error)
    case GetVm => (
      match r
      case Vm(vm) => if l.st.state != vm.state then l.(st := FromCloud(vm), pc := Overwrite) else Synced(l)
      case _ => End(l, Error))
    case Overwrite => if r.Written? then Synced(l.(rv := l.rv + 1)) else End(l, Error)
    case PickAddress => (
      match r
      case Picked(n, a) => l.(pc := ListIps(n, a))
      case _ => End(l, Error))
    case ListIps(n, a) => (
      match r
      case Ips(ips) =>
        var free := Available(ips);
        if |free| == 0 then End(l, Error) else l.(pc := PostNat(free[0], n, a))
      case _ => End(l, Error))
    case PostNat(pub, n, a) => (
      match r
      case Nat(natId) =>
        l.(st := l.st.(ips := l.st.ips + [AssignedIp(pub.id, pub.ip, natId, n, a)]), pc := RecordIp)
      case _ => End(l, Error))
    case RecordIp =>
      if r.Written? then
        var l' := l.(rv := l.rv + 1);
        if l.cluster.hasRules then l'.(pc := AddFirewall) else Pending(l')
      else End(l, Error)
    case AddFirewall => if r.Ok? then Pending(l) else End(l, Error)
    case MarkPending => if r.Written? then Networked(l.(rv := l.rv + 1)) else End(l, Error)
    case Probe => if r.Ok? then l.(pc := Fetch(0, None, false)) else End(l, Error)
    case Fetch(tries, got, torn) => (
      match r
      case Body(d) => l.(pc := CreateSecret(d))
      case Torn(d) => Refetch(l, tries + 1, Some(d), true)
      case _ => Refetch(l, tries + 1, got, torn))
    case CreateSecret(_) =>
      if r.Ok? then l.(st := l.st.(cpRef := ControlPlaneRef(BOOTSTRAP_READY, true)), pc := MarkReady)
      else End(l, Error)
    case MarkReady => if r.Written? then End(l.(rv := l.rv + 1), Nil) else End(l, Error)
    case ListMachines => (
      match r
      case Machines(ms) =>
        var cands := Candidates(l.name, ms);
        if |cands| == 0 then End(l, Nil) else NextCandidate(l, cands, 0)
      case _ => End(l, Error))
    case ProbeCandidate(cands, i) =>
      if r.Ok? && i < |cands| && |cands[i].st.ips| > 0 then l.(pc := PostWorker(cands[i].st.ips[0].pvtIp))
      else NextCandidate(l, cands, i + 1)
    case PostWorker(_) => (
      match r
      case Refused => Joined(l)
      case Vm(vm) => l.(pc := RecordWorker(vm))
      case _ => End(l, Error))
    // The callee wrote through its own copy of the machine: this rv is not refreshed.
    case RecordWorker(_) => if r.Written? then Joined(l) else End(l, Error)
    case MarkJoined => if r.Written? then l.(rv := l.rv + 1, pc := GetWorkerVm) else End(l, Error)
    case GetWorkerVm => (
      match r
      case Vm(vm) =>
        if l.st.state != vm.state then l.(st := FromCloud(vm), pc := OverwriteWorker) else End(l, Nil)
      case _ => End(l, Error))
    case OverwriteWorker => if r.Written? then End(l.(rv := l.rv + 1), Nil) else End(l, Error)
    case Done(_) => l
  }

  /** The pass after a row of replies. */
  function Ran(l: Local, rs: seq<Reply>): Local
    decreases |rs|
  {
    if rs == [] then l else Ran(After(l, rs[0]), rs[1..])
  }

  predicate IsWrite(pc: Pc) {
    pc.RecordVm? || pc.Overwrite? || pc.RecordIp? || pc.MarkPending? || pc.MarkReady? ||
    pc.RecordWorker? || pc.MarkJoined? || pc.OverwriteWorker?
  }

  predicate IsPost(pc: Pc) { pc.PostVm? || pc.PostWorker? }

  predicate IsGet(pc: Pc) { pc.GetVm? || pc.GetWorkerVm? }

  /** The status a status write carries. */
  function WriteOf(l: Local): Status
    requires IsWrite(l.pc)
  {
    if l.pc.RecordWorker? then FromCloud(l.pc.vm).(state := CREATING) else l.st
  }
}

/** The store, the cloud and every pass ever started, with the steps they take. */
module World {
  import opened KTObjects
  import opened Pass

  /** A stored machine. Its versions are never rewritten, so an index into them is a
      resource version and any earlier version is one a stale read may return. */
  datatype Machine = Machine(ns: string, name: string, cluster: string, versions: seq<Status>, live: bool)

  datatype NatRecord = NatRecord(owner: nat, ipId: string)

  /** A kubeconfig Secret: the pass that created it (None for an outsider), and its data. */
  datatype Secret = Secret(creator: Option<nat>, data: string)

  /** What happened, in order. */
  datatype Event =
    | VmAccepted(uid: nat, vm: string, join: Option<string>)
    | NatAttached(uid: nat, pid: nat, natId: string)
    | FirewallAdded(uid: nat, pid: nat, natId: string)
    | SecretCreated(cluster: string, pid: nat)
    | StatusWritten(uid: nat, pid: nat, before: Status, after: Status)

  datatype World = World(
    clusters: set<(string, KTCluster)>,     // every spec a KTCluster of a namespace ever had
    machines: map<nat, Machine>,
    secrets: map<string, Secret>,           // by cluster name, in the one fixed namespace
    vms: map<string, nat>,                  // every server id ever handed out, and for whom
    ips: map<string, string>,               // the account's public IPs: address by id
    nats: map<string, NatRecord>,
    passes: map<nat, Local>,
    log: seq<Event>)

  datatype Step =
    | Begin(pid: nat, uid: nat, rv: nat, cluster: KTCluster)
    | Deliver(pid: nat, reply: Reply)       // the call takes effect and its reply arrives
    | LoseReply(pid: nat, reply: Reply)     // the call takes effect but its reply is lost
    | Crash(pid: nat)
    | CreateMachine(uid: nat, machine: Machine)
    | DeleteMachine(uid: nat)
    | TouchMachine(uid: nat)                // someone changes metadata or spec: new version, same status
    | PutCluster(ns: string, cluster: KTCluster)
    | OutsiderSecret(name: string, data: string)

  ghost predicate Init(w: World) {
    && w.machines == map[] && w.vms == map[] && w.nats == map[] && w.passes == map[] && w.log == []
    && forall c :: c in w.secrets ==> w.secrets[c].creator.None?
  }

  /** The version check of a status write. */
  predicate Current(w: World, l: Local) {
    && l.uid in w.machines
    && w.machines[l.uid].live
    && l.rv == |w.machines[l.uid].versions| - 1
  }

  predicate IpFree(w: World, ip: string) {
    ip in w.ips && forall n :: n in w.nats ==> w.nats[n].ipId != ip
  }

  /** Which replies the pending call of a pass can get. Every remote call may fail. */
  predicate CanReply(w: World, l: Local, r: Reply) {
    if l.pc.PickAddress? then IsPick(l.st, r)
    else !l.pc.Done? && (r.Failed? || CanAnswer(w, l, r))
  }

  /** The address is the first one met in some order of the networks; failing means there is none. */
  predicate IsPick(st: Status, r: Reply) {
    if r.Picked? then r.network in st.addresses && |st.addresses[r.network]| > 0 &&
        st.addresses[r.network][0] == r.addr
    else r.Failed? && forall n :: n in st.addresses ==> st.addresses[n] == []
  }

  predicate CanAnswer(w: World, l: Local, r: Reply) {
    if IsWrite(l.pc) then r.Written? && Current(w, l)
    else if IsPost(l.pc) then r.Refused? || (r.Vm? && r.vm.id != "" && r.vm.id !in w.vms)
    else if IsGet(l.pc) then
      r.Vm? && if l.st.id == "" then r.vm == NO_VM else r.vm.id == l.st.id && r.vm.state != ""
    else if l.pc.ListIps? then r.Ips? && forall p :: p in r.ips ==> p.id in w.ips && w.ips[p.id] == p.ip
    else if l.pc.PostNat? then r.Refused? || (r.Nat? && r.natId !in w.nats && IpFree(w, l.pc.pub.id))
    else if l.pc.Fetch? then r.Refused? || r.Body? || r.Torn?
    else if l.pc.CreateSecret? then r.Ok? && l.cluster.name !in w.secrets
    else if l.pc.ListMachines? then r.Machines? && forall m :: m in r.machines ==> Listable(w, l.ns, m)
    else r.Ok?
  }

  /** A list may show any machine of the namespace at any version it ever had. */
  predicate Listable(w: World, ns: string, m: Listed) {
    && m.uid in w.machines
    && w.machines[m.uid].ns == ns
    && w.machines[m.uid].name == m.name
    && m.st in w.machines[m.uid].versions
  }

  function Commit(w: World, pid: nat, uid: nat, st: Status): World
    requires uid in w.machines && |w.machines[uid].versions| > 0
  {
    var m := w.machines[uid];
    w.(machines := w.machines[uid := m.(versions := m.versions + [st])],
       log := w.log + [StatusWritten(uid, pid, m.versions[|m.versions| - 1], st)])
  }

  function AcceptVm(w: World, uid: nat, vm: string, join: Option<string>): World {
    w.(vms := w.vms[vm := uid], log := w.log + [VmAccepted(uid, vm, join)])
  }

  function AttachNat(w: World, pid: nat, uid: nat, n: string, ipId: string): World {
    w.(nats := w.nats[n := NatRecord(uid, ipId)], log := w.log + [NatAttached(uid, pid, n)])
  }

  function StoreSecret(w: World, pid: nat, cluster: string, data: string): World {
    w.(secrets := w.secrets[cluster := Secret(Some(pid), data)], log := w.log + [SecretCreated(cluster, pid)])
  }

  function NoteFirewall(w: World, pid: nat, uid: nat, n: string): World {
    w.(log := w.log + [FirewallAdded(uid, pid, n)])
  }

  /** What a call does to the store and the cloud when it is answered with `r`. */
  function Effect(w: World, pid: nat, l: Local, r: Reply): (w': World)
    requires CanReply(w, l, r)
    ensures w'.passes == w.passes && w'.clusters == w.clusters && w'.ips == w.ips
  {
    if IsWrite(l.pc) && r.Written? && |w.machines[l.uid].versions| > 0 then
      Commit(w, pid, l.uid, WriteOf(l))
    else if l.pc.PostVm? && r.Vm? then AcceptVm(w, l.uid, r.vm.id, None)
    else if l.pc.PostWorker? && r.Vm? then AcceptVm(w, l.uid, r.vm.id, Some(l.pc.address))
    else if l.pc.PostNat? && r.Nat? then AttachNat(w, pid, l.uid, r.natId, l.pc.pub.id)
    else if l.pc.AddFirewall? && r.Ok? then NoteFirewall(w, pid, l.uid, LastNat(l.st))
    else if l.pc.CreateSecret? && r.Ok? then StoreSecret(w, pid, l.cluster.name, l.pc.data)
    else w
  }

  /** The NAT a firewall policy names: the last one the machine's status lists. */
  function LastNat(st: Status): string {
    if st.ips == [] then "" else st.ips[|st.ips| - 1].natId
  }

  function SetPass(w: World, pid: nat, l: Local): World {
    w.(passes := w.passes[pid := l])
  }

  predicate Enabled(w: World, s: Step) {
    match s
    case Begin(pid, uid, rv, cluster) =>
      && pid !in w.passes
      && uid in w.machines
      && rv < |w.machines[uid].versions|
      && cluster.name == w.machines[uid].cluster
      && (w.machines[uid].ns, cluster) in w.clusters
    case Deliver(pid, r) => pid in w.passes && CanReply(w, w.passes[pid], r)
    case LoseReply(pid, r) =>
      pid in w.passes && !w.passes[pid].pc.PickAddress? && CanReply(w, w.passes[pid], r)
    case Crash(pid) => pid in w.passes && !w.passes[pid].pc.Done?
    case CreateMachine(uid, m) => uid !in w.machines && m.versions == [NEW_STATUS] && m.live
    case DeleteMachine(uid) => uid in w.machines
    case TouchMachine(uid) => uid in w.machines && |w.machines[uid].versions| > 0
    case PutCluster(_, _) => true
    case OutsiderSecret(c, _) => c !in w.secrets
  }

  function Apply(w: World, s: Step): World
    requires Enabled(w, s)
  {
    match s
    case Begin(pid, uid, rv, cluster) =>
      var m := w.machines[uid];
      SetPass(w, pid, Start(uid, m.ns, m.name, cluster, rv, m.versions[rv]))
    case Deliver(pid, r) => SetPass(Effect(w, pid, w.passes[pid], r), pid, After(w.passes[pid], r))
    case LoseReply(pid, r) => SetPass(Effect(w, pid, w.passes[pid], r), pid, After(w.passes[pid], Failed))
    case Crash(pid) => SetPass(w, pid, End(w.passes[pid], Error))
    case CreateMachine(uid, m) => w.(machines := w.machines[uid := m])
    case DeleteMachine(uid) => w.(machines := w.machines[uid := w.machines[uid].(live := false)])
    case TouchMachine(uid) =>
      var m := w.machines[uid];
      w.(machines := w.machines[uid := m.(versions := m.versions + [m.versions[|m.versions| - 1]])])
    case PutCluster(ns, c) => w.(clusters := w.clusters + {(ns, c)})
    case OutsiderSecret(c, data) => w.(secrets := w.secrets[c := Secret(None, data)])
  }

  /** A run is legal when every step is enabled where it is taken. */
  predicate Legal(w: World, run: seq<Step>)
    decreases |run|
  {
    run == [] || (Enabled(w, run[0]) && Legal(Apply(w, run[0]), run[1..]))
  }

  function Exec(w: World, run: seq<Step>): World
    requires Legal(w, run)
    decreases |run|
  {
    if run == [] then w else Exec(Apply(w, run[0]), run[1..])
  }

  /** The status the store holds for a machine now. */
  function Stored(w: World, uid: nat): Status
    requires uid in w.machines && |w.machines[uid].versions| > 0
  {
    w.machines[uid].versions[|w.machines[uid].versions| - 1]
  }
}

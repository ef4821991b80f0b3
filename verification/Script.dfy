/** What a pass over a machine says to the store and the cloud, told straight through as the
    reconciler's text tells it: given the status it read and the replies so far, the next call
    with its arguments, or the verdict. The pass of `Pass` is proved to follow it. */
module Script {
  import opened KTObjects
  import opened Pass
  import Names
  import Workers

  datatype Call =
    | PostServer(join: Option<string>)
    | GetServer(id: string)
    | UpdateStatus(rv: nat, status: Status)
    | ChooseAddress(addresses: map<string, seq<string>>)
    | ListPublicIps
    | PostStaticNat(ipId: string, mappedIp: string)
    | AddFirewallPolicy(natId: string)
    | GetReadiness(ip: string)
    | GetAdminConf(ip: string)
    | CreateKubeconfig(cluster: string, data: string)
    | ListMachinesIn(ns: string)

  datatype Out = Asks(call: Call) | Ends(verdict: Verdict)

  function FirstIp(st: Status): string {
    if st.ips == [] then "" else st.ips[0].ip
  }

  function LastNatId(st: Status): string {
    if st.ips == [] then "" else st.ips[|st.ips| - 1].natId
  }

  /** What the pass is about to say, or how it ended. */
  function Now(l: Local): Out {
    match l.pc
    case PostVm => Asks(PostServer(None))
    case GetVm => Asks(GetServer(l.st.id))
    case PickAddress => Asks(ChooseAddress(l.st.addresses))
    case ListIps(_, _) => Asks(ListPublicIps)
    case PostNat(pub, _, a) => Asks(PostStaticNat(pub.id, a))
    case AddFirewall => Asks(AddFirewallPolicy(LastNatId(l.st)))
    case Probe => Asks(GetReadiness(FirstIp(l.st)))
    case Fetch(_, _, _) => Asks(GetAdminConf(FirstIp(l.st)))
    case CreateSecret(d) => Asks(CreateKubeconfig(l.cluster.name, d))
    case ListMachines => Asks(ListMachinesIn(l.ns))
    case ProbeCandidate(cands, i) => Asks(GetReadiness(if i < |cands| then FirstIp(cands[i].st) else ""))
    case PostWorker(a) => Asks(PostServer(Some(a)))
    case GetWorkerVm => Asks(GetServer(l.st.id))
    case RecordWorker(vm) => Asks(UpdateStatus(l.rv, FromCloud(vm).(state := CREATING)))
    case Done(v) => Ends(v)
    case _ => Asks(UpdateStatus(l.rv, l.st))
  }

  // ---------- the text, from the end backwards ----------

  /** A server's record as a whole status, in some state. */
  function Bare(vm: CloudVm, state: string): Status {
    Status(vm.id, state, vm.addresses, [], ControlPlaneRef("", false), false)
  }

  /** A write that ends the pass: nil when it lands. */
  function LastWrite(rv: nat, st: Status, rs: seq<Reply>): Out {
    if rs == [] then Asks(UpdateStatus(rv, st)) else Ends(if rs[0].Written? then Nil else Error)
  }

  function Secret(cl: KTCluster, rv: nat, st: Status, data: string, rs: seq<Reply>): Out {
    if rs == [] then Asks(CreateKubeconfig(cl.name, data))
    else if !rs[0].Ok? then Ends(Error)
    else LastWrite(rv, st.(cpRef := ControlPlaneRef("BootstrapReady", true)), rs[1..])
  }

  /** The place of the first 2xx answer that was read in full. */
  function BodyAt(rs: seq<Reply>): nat {
    if rs == [] || rs[0].Body? then 0 else 1 + BodyAt(rs[1..])
  }

  /** With `left` attempts to go. */
  function Kubeconfig(cl: KTCluster, rv: nat, st: Status, left: nat, rs: seq<Reply>): Out {
    var k := BodyAt(rs);
    if k >= left then Ends(Error)
    else if k < |rs| && rs[k].Body? then Secret(cl, rv, st, rs[k].data, rs[k + 1..])
    else Asks(GetAdminConf(FirstIp(st)))
  }

  /** Only a yes of the probe leads on to the kubeconfig. */
  function Bootstrap(cl: KTCluster, rv: nat, st: Status, rs: seq<Reply>): Out {
    if st.cpRef != ControlPlaneRef("BootstrapReady", false) then Ends(Nil)
    else if st.ips == [] then Ends(Panic)
    else if rs == [] then Asks(GetReadiness(st.ips[0].ip))
    else if !rs[0].Ok? then Ends(Error)
    else Kubeconfig(cl, rv, st, 24, rs[1..])
  }

  function Mark(cl: KTCluster, rv: nat, st: Status, rs: seq<Reply>): Out {
    var pending := st.(cpRef := ControlPlaneRef("BootstrapReady", false));
    if rs == [] then Asks(UpdateStatus(rv, pending))
    else if !rs[0].Written? then Ends(Error)
    else Bootstrap(cl, rv + 1, pending, rs[1..])
  }

  function Fire(cl: KTCluster, rv: nat, st: Status, rs: seq<Reply>): Out {
    if !cl.hasRules then Mark(cl, rv, st, rs)
    else if rs == [] then Asks(AddFirewallPolicy(LastNatId(st)))
    else if !rs[0].Ok? then Ends(Error)
    else Mark(cl, rv, st, rs[1..])
  }

  function RecordNat(cl: KTCluster, rv: nat, st: Status, rs: seq<Reply>): Out {
    if rs == [] then Asks(UpdateStatus(rv, st))
    else if !rs[0].Written? then Ends(Error)
    else Fire(cl, rv + 1, st, rs[1..])
  }

  /** The public IP's id, address and NAT are recorded together, with the address it is paired to. */
  function Nat(cl: KTCluster, rv: nat, st: Status, pub: PublicIp, network: string, addr: string, rs: seq<Reply>): Out
  {
    if rs == [] then Asks(PostStaticNat(pub.id, addr))
    else if !rs[0].Nat? then Ends(Error)
    else RecordNat(cl, rv, st.(ips := st.ips + [AssignedIp(pub.id, pub.ip, rs[0].natId, network, addr)]), rs[1..])
  }

  /** The first listed public IP that is attached to nothing. */
  function FirstFree(ips: seq<PublicIp>): Option<PublicIp> {
    if ips == [] then None else if ips[0].kind == "ASSOCIATE" then Some(ips[0]) else FirstFree(ips[1..])
  }

  function Ips(cl: KTCluster, rv: nat, st: Status, network: string, addr: string, rs: seq<Reply>): Out {
    if rs == [] then Asks(ListPublicIps)
    else if !rs[0].Ips? then Ends(Error)
    else
      match FirstFree(rs[0].ips)
      case None => Ends(Error)
      case Some(pub) => Nat(cl, rv, st, pub, network, addr, rs[1..])
  }

  function Attach(cl: KTCluster, rv: nat, st: Status, rs: seq<Reply>): Out {
    if rs == [] then Asks(ChooseAddress(st.addresses))
    else if !rs[0].Picked? then Ends(Error)
    else Ips(cl, rv, st, rs[0].network, rs[0].addr, rs[1..])
  }

  function Settle(cl: KTCluster, rv: nat, st: Status, rs: seq<Reply>): Out {
    if st.state != "ACTIVE" then Ends(Nil)
    else if cl.external && st.ips == [] then Attach(cl, rv, st, rs)
    else Bootstrap(cl, rv, st, rs)
  }

  /** The whole status follows the cloud when the state string differs. */
  function Overwritten(cl: KTCluster, rv: nat, st: Status, rs: seq<Reply>): Out {
    if rs == [] then Asks(UpdateStatus(rv, st))
    else if !rs[0].Written? then Ends(Error)
    else Settle(cl, rv + 1, st, rs[1..])
  }

  /** A control plane: a refused create is no error. */
  function ControlPlane(cl: KTCluster, rv: nat, st: Status, rs: seq<Reply>): Out {
    if st.id == "" then
      if rs == [] then Asks(PostServer(None))
      else if rs[0].Refused? then Ends(Nil)
      else if !rs[0].Vm? then Ends(Error)
      else LastWrite(rv, Bare(rs[0].vm, "Creating"), rs[1..])
    else if rs == [] then Asks(GetServer(st.id))
    else if !rs[0].Vm? then Ends(Error)
    else if rs[0].vm.state == st.state then Settle(cl, rv, st, rs[1..])
    else Overwritten(cl, rv, Bare(rs[0].vm, rs[0].vm.state), rs[1..])
  }

  /** A worker follows the cloud's state. */
  function Follow(rv: nat, st: Status, rs: seq<Reply>): Out {
    if rs == [] then Asks(GetServer(st.id))
    else if !rs[0].Vm? then Ends(Error)
    else if rs[0].vm.state == st.state then Ends(Nil)
    else LastWrite(rv, Bare(rs[0].vm, rs[0].vm.state), rs[1..])
  }

  function Flag(rv: nat, st: Status, rs: seq<Reply>): Out {
    var flagged := st.(joined := true);
    if rs == [] then Asks(UpdateStatus(rv, flagged))
    else if !rs[0].Written? then Ends(Error)
    else Follow(rv + 1, flagged, rs[1..])
  }

  /** The server is recorded through another copy, so the flag carries the old version. */
  function Post(rv: nat, st: Status, address: string, rs: seq<Reply>): Out {
    if rs == [] then Asks(PostServer(Some(address)))
    else if rs[0].Refused? then Flag(rv, st, rs[1..])
    else if !rs[0].Vm? then Ends(Error)
    else if |rs| == 1 then Asks(UpdateStatus(rv, Bare(rs[0].vm, "Creating")))
    else if !rs[1].Written? then Ends(Error)
    else Flag(rv, st, rs[2..])
  }

  /** One candidate after another, until one answers. */
  function Probing(rv: nat, st: Status, cands: seq<Listed>, rs: seq<Reply>): Out
    decreases |cands|
  {
    if cands == [] || cands[0].st.ips == [] then Ends(Panic)
    else if rs == [] then Asks(GetReadiness(cands[0].st.ips[0].ip))
    else if rs[0].Ok? then Post(rv, st, cands[0].st.ips[0].pvtIp, rs[1..])
    else Probing(rv, st, cands[1..], rs[1..])
  }

  ghost predicate HasLabel(name: string) {
    exists i :: Names.StandsAt(name, "control-plane", i)
  }

  /** The ready control planes of a list, other than the machine itself, in list order. */
  ghost function ReadyOnes(self: string, ms: seq<Listed>): seq<Listed> {
    if ms == [] then []
    else
      var m := ms[0];
      var isReady := m.st.state == "ACTIVE" && m.st.cpRef == ControlPlaneRef("BootstrapReady", true);
      (if m.name != self && HasLabel(m.name) && isReady then [m] else []) + ReadyOnes(self, ms[1..])
  }

  ghost function Worker(ns: string, name: string, rv: nat, st: Status, rs: seq<Reply>): Out {
    if st.state != "" || st.joined then Follow(rv, st, rs)
    else if rs == [] then Asks(ListMachinesIn(ns))
    else if !rs[0].Machines? then Ends(Error)
    else
      var cands := ReadyOnes(name, rs[0].machines);
      if cands == [] then Ends(Nil) else Probing(rv, st, cands, rs[1..])
  }

  /** A whole pass, by the role its machine's name gives it. */
  ghost function Expected(ns: string, name: string, cl: KTCluster, rv: nat, st: Status, rs: seq<Reply>): Out {
    if HasLabel(name) then ControlPlane(cl, rv, st, rs) else Worker(ns, name, rv, st, rs)
  }

  // ---------- the pass follows it ----------

  lemma {:induction false} RanDone(l: Local, rs: seq<Reply>)
    requires l.pc.Done?
    ensures Ran(l, rs) == l
    decreases |rs|
  {
    if rs != [] {
      RanDone(l, rs[1..]);
    }
  }

  /** The writes after which a pass is over. */
  lemma LastWriteFollows(l: Local, rs: seq<Reply>)
    requires l.pc.RecordVm? || l.pc.MarkReady? || l.pc.OverwriteWorker?
    ensures Now(Ran(l, rs)) == LastWrite(l.rv, l.st, rs)
  {
    if rs != [] {
      RanDone(After(l, rs[0]), rs[1..]);
    }
  }

  lemma SecretFollows(l: Local, rs: seq<Reply>)
    requires l.pc.CreateSecret?
    ensures Now(Ran(l, rs)) == Secret(l.cluster, l.rv, l.st, l.pc.data, rs)
  {
    if rs != [] {
      if rs[0].Ok? {
        LastWriteFollows(After(l, rs[0]), rs[1..]);
      } else {
        RanDone(After(l, rs[0]), rs[1..]);
      }
    }
  }

  lemma {:induction false} FetchFollows(l: Local, rs: seq<Reply>)
    requires l.pc.Fetch? && (l.pc.got.None? || l.pc.torn) && l.pc.tries < 24
    ensures Now(Ran(l, rs)) == Kubeconfig(l.cluster, l.rv, l.st, 24 - l.pc.tries, rs)
    decreases |rs|
  {
    if rs != [] {
      var l' := After(l, rs[0]);
      if rs[0].Body? {
        SecretFollows(l', rs[1..]);
      } else if l.pc.tries == 23 {
        RanDone(l', rs[1..]);
      } else {
        FetchFollows(l', rs[1..]);
        BodyLater(l, rs);
      }
    }
  }

  lemma BodyLater(l: Local, rs: seq<Reply>)
    requires rs != [] && !rs[0].Body? && l.pc.Fetch? && l.pc.tries < 23
    ensures Kubeconfig(l.cluster, l.rv, l.st, 24 - l.pc.tries, rs) ==
            Kubeconfig(l.cluster, l.rv, l.st, 23 - l.pc.tries, rs[1..])
  {
    var k := BodyAt(rs[1..]);
    if k < |rs[1..]| {
      assert rs[1..][k] == rs[k + 1] && rs[1..][k + 1..] == rs[k + 2..];
    }
  }

  /** A pass as `Networked` leaves it. */
  lemma BootstrapFollows(l: Local, rs: seq<Reply>)
    ensures Now(Ran(Networked(l), rs)) == Bootstrap(l.cluster, l.rv, l.st, rs)
  {
    var n := Networked(l);
    if n.pc.Done? {
      RanDone(n, rs);
    } else if rs != [] {
      if rs[0].Ok? {
        FetchFollows(After(n, rs[0]), rs[1..]);
      } else {
        RanDone(After(n, rs[0]), rs[1..]);
      }
    }
  }

  lemma MarkAfter(p: Local, r: Reply)
    requires p.pc.MarkPending?
    ensures After(p, r) == if r.Written? then Networked(p.(rv := p.rv + 1)) else End(p, Error)
  {
  }

  lemma MarkedFollows(p: Local, rs: seq<Reply>)
    requires p.pc.MarkPending?
    ensures Now(Ran(p, rs)) ==
            if rs == [] then Asks(UpdateStatus(p.rv, p.st))
            else if !rs[0].Written? then Ends(Error)
            else Bootstrap(p.cluster, p.rv + 1, p.st, rs[1..])
  {
    if rs != [] {
      MarkAfter(p, rs[0]);
      if rs[0].Written? {
        BootstrapFollows(p.(rv := p.rv + 1), rs[1..]);
      } else {
        RanDone(End(p, Error), rs[1..]);
      }
    }
  }

  lemma MarkFollows(l: Local, rs: seq<Reply>)
    ensures Now(Ran(Pending(l), rs)) == Mark(l.cluster, l.rv, l.st, rs)
  {
    MarkedFollows(Pending(l), rs);
  }

  lemma FireFollows(l: Local, rs: seq<Reply>)
    ensures Now(Ran(if l.cluster.hasRules then l.(pc := AddFirewall) else Pending(l), rs)) ==
            Fire(l.cluster, l.rv, l.st, rs)
  {
    if !l.cluster.hasRules {
      MarkFollows(l, rs);
    } else if rs != [] {
      var f := l.(pc := AddFirewall);
      if rs[0].Ok? {
        MarkFollows(f, rs[1..]);
      } else {
        RanDone(After(f, rs[0]), rs[1..]);
      }
    }
  }

  lemma RecordNatFollows(l: Local, rs: seq<Reply>)
    requires l.pc.RecordIp?
    ensures Now(Ran(l, rs)) == RecordNat(l.cluster, l.rv, l.st, rs)
  {
    if rs != [] {
      if rs[0].Written? {
        FireFollows(l.(rv := l.rv + 1), rs[1..]);
      } else {
        RanDone(After(l, rs[0]), rs[1..]);
      }
    }
  }

  lemma NatFollows(l: Local, rs: seq<Reply>)
    requires l.pc.PostNat?
    ensures Now(Ran(l, rs)) == Nat(l.cluster, l.rv, l.st, l.pc.pub, l.pc.network, l.pc.addr, rs)
  {
    if rs != [] {
      if rs[0].Nat? {
        RecordNatFollows(After(l, rs[0]), rs[1..]);
      } else {
        RanDone(After(l, rs[0]), rs[1..]);
      }
    }
  }

  lemma {:induction false} FirstFreeAt(ips: seq<PublicIp>, i: nat)
    requires i <= |ips| && forall j :: 0 <= j < i ==> ips[j].kind != ASSOCIATE
    requires i < |ips| ==> ips[i].kind == ASSOCIATE
    ensures FirstFree(ips) == if i < |ips| then Some(ips[i]) else None
  {
    if i > 0 {
      FirstFreeAt(ips[1..], i - 1);
    }
  }

  lemma FirstFreeIsAvailable(ips: seq<PublicIp>)
    ensures FirstFree(ips) == if |Available(ips)| == 0 then None else Some(Available(ips)[0])
  {
    var i := Workers.FirstAvailable(ips);
    FirstFreeAt(ips, i);
  }

  lemma IpsFollow(l: Local, rs: seq<Reply>)
    requires l.pc.ListIps?
    ensures Now(Ran(l, rs)) == Ips(l.cluster, l.rv, l.st, l.pc.network, l.pc.addr, rs)
  {
    if rs != [] {
      var l' := After(l, rs[0]);
      if rs[0].Ips? {
        FirstFreeIsAvailable(rs[0].ips);
      }
      if l'.pc.Done? {
        RanDone(l', rs[1..]);
      } else {
        NatFollows(l', rs[1..]);
      }
    }
  }

  lemma AttachFollows(l: Local, rs: seq<Reply>)
    requires l.pc.PickAddress?
    ensures Now(Ran(l, rs)) == Attach(l.cluster, l.rv, l.st, rs)
  {
    if rs != [] {
      if rs[0].Picked? {
        IpsFollow(After(l, rs[0]), rs[1..]);
      } else {
        RanDone(After(l, rs[0]), rs[1..]);
      }
    }
  }

  lemma SettleFollows(l: Local, rs: seq<Reply>)
    ensures Now(Ran(Synced(l), rs)) == Settle(l.cluster, l.rv, l.st, rs)
  {
    if l.st.state != "ACTIVE" {
      RanDone(Synced(l), rs);
    } else if l.cluster.external && l.st.ips == [] {
      AttachFollows(Synced(l), rs);
    } else {
      BootstrapFollows(l, rs);
    }
  }

  lemma OverwriteFollows(l: Local, rs: seq<Reply>)
    requires l.pc.Overwrite?
    ensures Now(Ran(l, rs)) == Overwritten(l.cluster, l.rv, l.st, rs)
  {
    if rs != [] {
      if rs[0].Written? {
        assert After(l, rs[0]) == Synced(l.(rv := l.rv + 1));
        SettleFollows(l.(rv := l.rv + 1), rs[1..]);
      } else {
        assert After(l, rs[0]) == End(l, Error);
        RanDone(End(l, Error), rs[1..]);
      }
    }
  }

  lemma CreateFollows(l: Local, rs: seq<Reply>)
    requires l.pc.PostVm? && l.st.id == ""
    ensures Now(Ran(l, rs)) == ControlPlane(l.cluster, l.rv, l.st, rs)
  {
    if rs != [] {
      var l' := After(l, rs[0]);
      if rs[0].Vm? {
        LastWriteFollows(l', rs[1..]);
      } else {
        RanDone(l', rs[1..]);
      }
    }
  }

  lemma SyncFollows(l: Local, rs: seq<Reply>)
    requires l.pc.GetVm? && l.st.id != ""
    ensures Now(Ran(l, rs)) == ControlPlane(l.cluster, l.rv, l.st, rs)
  {
    if rs != [] {
      var l' := After(l, rs[0]);
      if !rs[0].Vm? {
        RanDone(l', rs[1..]);
      } else if rs[0].vm.state == l.st.state {
        SettleFollows(l, rs[1..]);
      } else {
        OverwriteFollows(l', rs[1..]);
      }
    }
  }

  lemma FollowFollows(l: Local, rs: seq<Reply>)
    requires l.pc.GetWorkerVm?
    ensures Now(Ran(l, rs)) == Follow(l.rv, l.st, rs)
  {
    if rs != [] {
      var l' := After(l, rs[0]);
      if l'.pc.Done? {
        RanDone(l', rs[1..]);
      } else {
        LastWriteFollows(l', rs[1..]);
      }
    }
  }

  lemma FlagFollows(l: Local, rs: seq<Reply>)
    ensures Now(Ran(Joined(l), rs)) == Flag(l.rv, l.st, rs)
  {
    if rs != [] {
      var l' := After(Joined(l), rs[0]);
      if rs[0].Written? {
        FollowFollows(l', rs[1..]);
      } else {
        RanDone(l', rs[1..]);
      }
    }
  }

  lemma PostFollows(l: Local, rs: seq<Reply>)
    requires l.pc.PostWorker?
    ensures Now(Ran(l, rs)) == Post(l.rv, l.st, l.pc.address, rs)
  {
    if rs != [] {
      var l' := After(l, rs[0]);
      if rs[0].Refused? {
        FlagFollows(l, rs[1..]);
      } else if rs[0].Vm? {
        RecordFollows(l', rs[1..]);
        assert |rs| > 1 ==> rs[1..][0] == rs[1] && rs[1..][1..] == rs[2..];
      } else {
        RanDone(l', rs[1..]);
      }
    }
  }

  lemma RecordFollows(l: Local, rs: seq<Reply>)
    requires l.pc.RecordWorker?
    ensures Now(Ran(l, rs)) ==
            if rs == [] then Asks(UpdateStatus(l.rv, Bare(l.pc.vm, "Creating")))
            else if !rs[0].Written? then Ends(Error)
            else Flag(l.rv, l.st, rs[1..])
  {
    if rs != [] {
      if rs[0].Written? {
        FlagFollows(l, rs[1..]);
      } else {
        RanDone(After(l, rs[0]), rs[1..]);
      }
    }
  }

  lemma {:induction false} ProbingFollows(l: Local, cands: seq<Listed>, i: nat, rs: seq<Reply>)
    requires i <= |cands|
    ensures Now(Ran(NextCandidate(l, cands, i), rs)) == Probing(l.rv, l.st, cands[i..], rs)
    decreases |cands| - i
  {
    var n := NextCandidate(l, cands, i);
    if n.pc.Done? {
      RanDone(n, rs);
    } else if rs != [] {
      if rs[0].Ok? {
        PostFollows(After(n, rs[0]), rs[1..]);
      } else {
        ProbingFollows(n, cands, i + 1, rs[1..]);
        assert cands[i..][1..] == cands[i + 1..];
      }
    }
  }

  lemma LabelIsRole(name: string)
    ensures HasLabel(name) <==> IsControlPlane(name)
  {
    Names.ContainsExactly(name, "control-plane");
  }

  lemma {:induction false} ReadySnoc(self: string, ms: seq<Listed>, m: Listed)
    ensures ReadyOnes(self, ms + [m]) == ReadyOnes(self, ms) + ReadyOnes(self, [m])
  {
    if ms == [] {
      assert ms + [m] == [m];
    } else {
      assert (ms + [m])[1..] == ms[1..] + [m];
      ReadySnoc(self, ms[1..], m);
    }
  }

  lemma {:induction false} ReadyOnesAreCandidates(self: string, ms: seq<Listed>)
    ensures ReadyOnes(self, ms) == Candidates(self, ms)
  {
    if ms != [] {
      var n := |ms| - 1;
      ReadyOnesAreCandidates(self, ms[..n]);
      ReadySnoc(self, ms[..n], ms[n]);
      assert ms == ms[..n] + [ms[n]] && [ms[n]][1..] == [];
      LabelIsRole(ms[n].name);
    }
  }

  lemma ListedAfter(l: Local, ms: seq<Listed>)
    requires l.pc.ListMachines?
    ensures var cands := Candidates(l.name, ms);
            After(l, Machines(ms)) == if cands == [] then End(l, Nil) else NextCandidate(l, cands, 0)
  {
  }

  /** What follows a list of machines. */
  lemma ListedFollows(l: Local, ms: seq<Listed>, rs: seq<Reply>)
    requires l.pc.ListMachines?
    ensures Now(Ran(After(l, Machines(ms)), rs)) ==
            if ReadyOnes(l.name, ms) == [] then Ends(Nil) else Probing(l.rv, l.st, ReadyOnes(l.name, ms), rs)
  {
    ReadyOnesAreCandidates(l.name, ms);
    ListedAfter(l, ms);
    CandidatesFollow(l, Candidates(l.name, ms), rs);
  }

  lemma CandidatesFollow(l: Local, cands: seq<Listed>, rs: seq<Reply>)
    ensures Now(Ran(if cands == [] then End(l, Nil) else NextCandidate(l, cands, 0), rs)) ==
            if cands == [] then Ends(Nil) else Probing(l.rv, l.st, cands, rs)
  {
    if cands == [] {
      RanDone(End(l, Nil), rs);
    } else {
      ProbingFollows(l, cands, 0, rs);
      assert cands[0..] == cands;
    }
  }

  lemma WorkerFollows(l: Local, rs: seq<Reply>)
    requires l.pc == if l.st.state == "" && !l.st.joined then ListMachines else GetWorkerVm
    ensures Now(Ran(l, rs)) == Worker(l.ns, l.name, l.rv, l.st, rs)
  {
    if l.pc.GetWorkerVm? {
      FollowFollows(l, rs);
    } else if rs != [] {
      if rs[0].Machines? {
        ListedFollows(l, rs[0].machines, rs[1..]);
      } else {
        RanDone(End(l, Error), rs[1..]);
      }
    }
  }

  /** A pass that has heard these replies is about to say exactly what the text says, or has
      ended as the text ends. */
  lemma PassFollowsScript(uid: nat, ns: string, name: string, cl: KTCluster, rv: nat, st: Status, rs: seq<Reply>)
    ensures Now(Ran(Start(uid, ns, name, cl, rv, st), rs)) == Expected(ns, name, cl, rv, st, rs)
  {
    LabelIsRole(name);
    var l := Start(uid, ns, name, cl, rv, st);
    if !IsControlPlane(name) {
      WorkerFollows(l, rs);
    } else if st.id == "" {
      CreateFollows(l, rs);
    } else {
      SyncFollows(l, rs);
    }
  }
}

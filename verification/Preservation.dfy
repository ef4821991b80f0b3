/** Every step keeps the invariant, so every reachable world satisfies it. */
module Preservation {
  import opened KTObjects
  import opened Pass
  import opened World
  import opened Invariant

  // ---------- the pass's own copy ----------

  /** What a status write can carry, given the version it replaces. */
  lemma WriteShape(l: Local, base: Status)
    requires IsWrite(l.pc) && LocalOk(l, base) && StatusOk(IsControlPlane(l.name), base)
    ensures StatusOk(IsControlPlane(l.name), WriteOf(l))
    ensures Follows(base, WriteOf(l))
    ensures WriteOf(l).cpRef.ready ==> l.pc.MarkReady?
    ensures WriteOf(l).ips != [] ==> WriteOf(l).ips == base.ips || l.pc.RecordIp?
    ensures WriteOf(l).id != "" ==> WriteOf(l).id == base.id || l.pc.RecordVm? || l.pc.RecordWorker?
  {
  }

  /** The stored version a pass stands on after a reply. */
  function BaseAfter(l: Local, r: Reply, base: Status): Status {
    if IsWrite(l.pc) && r.Written? && !l.pc.RecordWorker? then WriteOf(l) else base
  }

  lemma SyncedOk(l: Local)
    requires IsControlPlane(l.name) && StatusOk(true, l.st) && l.st.id != ""
    ensures LocalOk(Synced(l), l.st)
  {
  }

  lemma NetworkedOk(l: Local)
    requires IsControlPlane(l.name) && StatusOk(true, l.st)
    ensures LocalOk(Networked(l), l.st)
  {
  }

  lemma RefetchOk(l: Local, tries: nat, got: Option<string>, torn: bool)
    requires IsControlPlane(l.name) && Probing(l, l.st)
    ensures LocalOk(Refetch(l, tries, got, torn), l.st)
  {
  }

  lemma AfterFailure(l: Local, base: Status)
    requires LocalOk(l, base) && IsControlPlane(l.name) && !l.pc.Done?
    ensures LocalOk(After(l, Failed), base)
  {
    if l.pc.Fetch? {
      RefetchOk(l, l.pc.tries + 1, l.pc.got, l.pc.torn);
    }
  }

  lemma AfterWrite(l: Local, base: Status)
    requires LocalOk(l, base) && IsControlPlane(l.name) && IsWrite(l.pc) && StatusOk(true, base)
    ensures LocalOk(After(l, Written), WriteOf(l))
  {
    WriteShape(l, base);
    var l' := l.(rv := l.rv + 1);
    if l.pc.Overwrite? {
      SyncedOk(l');
    } else if l.pc.MarkPending? {
      NetworkedOk(l');
    }
  }

  lemma AfterVmReply(l: Local, base: Status, r: Reply)
    requires LocalOk(l, base) && IsControlPlane(l.name) && StatusOk(true, base)
    requires l.pc.PostVm? || l.pc.GetVm?
    requires r.Refused? || (r.Vm? && r.vm.id != "" && (l.pc.GetVm? ==> r.vm.id == base.id && r.vm.state != ""))
    ensures LocalOk(After(l, r), base)
  {
    if l.pc.GetVm? && r.Vm? && r.vm.state == l.st.state {
      SyncedOk(l);
    }
  }

  lemma AfterAddress(w: World, l: Local, r: Reply, base: Status)
    requires LocalOk(l, base) && IsControlPlane(l.name)
    requires l.pc.PickAddress? || l.pc.ListIps? || l.pc.PostNat?
    requires CanReply(w, l, r)
    ensures LocalOk(After(l, r), base)
  {
    if l.pc.PostNat? && r.Nat? {
      var l' := After(l, r);
      assert l'.st.ips == [AssignedIp(l.pc.pub.id, l.pc.pub.ip, r.natId, l.pc.network, l.pc.addr)];
    }
  }

  lemma AfterBootstrap(l: Local, r: Reply, base: Status)
    requires LocalOk(l, base) && IsControlPlane(l.name)
    requires l.pc.AddFirewall? || l.pc.Probe? || l.pc.Fetch? || l.pc.CreateSecret?
    ensures LocalOk(After(l, r), base)
  {
    if l.pc.Fetch? {
      if r.Torn? {
        RefetchOk(l, l.pc.tries + 1, Some(r.data), true);
      } else if !r.Body? {
        RefetchOk(l, l.pc.tries + 1, l.pc.got, l.pc.torn);
      }
    }
  }

  lemma AfterControlPlane(w: World, l: Local, r: Reply, base: Status)
    requires LocalOk(l, base) && IsControlPlane(l.name) && StatusOk(true, base)
    requires CanReply(w, l, r)
    ensures LocalOk(After(l, r), BaseAfter(l, r, base))
  {
    if r.Failed? {
      AfterFailure(l, base);
    } else if IsWrite(l.pc) {
      AfterWrite(l, base);
    } else if l.pc.PostVm? || l.pc.GetVm? {
      AfterVmReply(l, base, r);
    } else if l.pc.PickAddress? || l.pc.ListIps? || l.pc.PostNat? {
      AfterAddress(w, l, r, base);
    } else {
      AfterBootstrap(l, r, base);
    }
  }

  predicate OneIpEach(ms: seq<Listed>) {
    forall m :: m in ms ==> |m.st.ips| == 1
  }

  lemma NextCandidateOk(l: Local, cands: seq<Listed>, next: nat)
    requires !IsControlPlane(l.name) && Unjoined(l.st) && OneIpEach(cands)
    ensures LocalOk(NextCandidate(l, cands, next), l.st)
  {
  }

  lemma AfterWorkerWrite(l: Local, base: Status)
    requires LocalOk(l, base) && !IsControlPlane(l.name) && IsWrite(l.pc) && StatusOk(false, base)
    ensures LocalOk(After(l, Written), BaseAfter(l, Written, base))
    ensures LocalOk(After(l, Failed), base)
  {
  }

  lemma AfterWorkerCall(l: Local, r: Reply, base: Status)
    requires LocalOk(l, base) && !IsControlPlane(l.name) && StatusOk(false, base)
    requires l.pc.PostWorker? || l.pc.GetWorkerVm?
    requires r.Vm? ==>
      if l.pc.PostWorker? then r.vm.id != ""
      else if base.id == "" then r.vm == NO_VM else r.vm.id == base.id && r.vm.state != ""
    ensures LocalOk(After(l, r), base)
  {
  }

  lemma AfterWorker(w: World, l: Local, r: Reply, base: Status)
    requires LocalOk(l, base) && !IsControlPlane(l.name) && StatusOk(false, base)
    requires CanReply(w, l, r)
    requires l.pc.ProbeCandidate? ==> OneIpEach(l.pc.cands)
    requires l.pc.ListMachines? && r.Machines? ==> OneIpEach(Candidates(l.name, r.machines))
    ensures LocalOk(After(l, r), BaseAfter(l, r, base))
  {
    if IsWrite(l.pc) {
      AfterWorkerWrite(l, base);
    } else if l.pc.ListMachines? {
      if r.Machines? {
        NextCandidateOk(l, Candidates(l.name, r.machines), 0);
      }
    } else if l.pc.ProbeCandidate? {
      NextCandidateOk(l, l.pc.cands, l.pc.next + 1);
    } else {
      AfterWorkerCall(l, r, base);
    }
  }

  // ---------- what the pass knows afterwards ----------

  lemma BaseOk(w: World, pid: nat, l: Local)
    requires MachinesOk(w) && PassOk(w, pid, l)
    ensures VersionOk(w, l.uid, w.machines[l.uid].versions[l.rv])
  {
    assert HistoryOk(w, l.uid);
  }

  /** A listed candidate is ready, so it holds exactly one IP and names a join point. */
  lemma CandidateJoins(w: World, ns: string, m: Listed)
    requires MachinesOk(w) && CandidateOk(w, ns, m)
    ensures |m.st.ips| == 1 && JoinPoint(w, |w.log|, ns, m.st.ips[0].pvtIp)
  {
    assert HistoryOk(w, m.uid);
    var vs := w.machines[m.uid].versions;
    var i :| 0 <= i < |vs| && vs[i] == m.st;
    assert VersionOk(w, m.uid, vs[i]);
    assert JoinVersion(w, m.uid, i, ns, m.st.ips[0].pvtIp);
  }

  lemma CandidatesJoin(w: World, l: Local, ms: seq<Listed>)
    requires MachinesOk(w)
    requires forall m :: m in ms ==> Listable(w, l.ns, m)
    ensures forall m :: m in Candidates(l.name, ms) ==> CandidateOk(w, l.ns, m)
    ensures OneIpEach(Candidates(l.name, ms))
  {
    CandidateMembers(l.name, ms);
    forall m | m in Candidates(l.name, ms)
      ensures CandidateOk(w, l.ns, m) && |m.st.ips| == 1
    {
      CandidateJoins(w, l.ns, m);
    }
  }

  lemma CandsOneIp(w: World, ns: string, cands: seq<Listed>)
    requires MachinesOk(w) && forall m :: m in cands ==> CandidateOk(w, ns, m)
    ensures OneIpEach(cands)
  {
    forall m | m in cands ensures |m.st.ips| == 1 {
      CandidateJoins(w, ns, m);
    }
  }

  lemma SecretKnown(w: World, pid: nat, l: Local, r: Reply)
    requires MachinesOk(w) && PassOk(w, pid, l) && l.pc.CreateSecret? && r.Ok? && CanReply(w, l, r)
    ensures KnowsOk(Effect(w, pid, l, r), pid, After(l, r))
  {
    BaseOk(w, pid, l);
    var w1 := Effect(w, pid, l, r);
    LogGrows(w.log, w1.log, |w.log|, l.uid, l.cluster.name);
    assert SecretAt(w1.log, |w.log|, l.cluster.name);
  }

  lemma NatKnown(w: World, pid: nat, l: Local, r: Reply)
    requires PassOk(w, pid, l) && l.pc.PostNat? && r.Nat? && CanReply(w, l, r)
    ensures KnowsOk(Effect(w, pid, l, r), pid, After(l, r))
  {
    var w1 := Effect(w, pid, l, r);
    assert AttachedAt(w1.log, |w.log|, l.uid);
  }

  /** The IP a pass goes on with is one the account has, at that address. */
  lemma IpKnown(w: World, pid: nat, l: Local, r: Reply)
    requires l.pc.ListIps? && r.Ips? && CanReply(w, l, r)
    ensures KnowsOk(w, pid, After(l, r))
  {
    AvailableMembers(r.ips);
    assert Available(r.ips) != [] ==> Available(r.ips)[0] in r.ips;
  }

  lemma ListKnown(w: World, pid: nat, l: Local, r: Reply)
    requires MachinesOk(w) && l.pc.ListMachines? && CanReply(w, l, r)
    ensures KnowsOk(w, pid, After(l, r))
  {
    if r.Machines? {
      CandidatesJoin(w, l, r.machines);
    }
  }

  lemma ProbeKnown(w: World, pid: nat, l: Local, r: Reply)
    requires MachinesOk(w) && l.pc.ProbeCandidate? && KnowsOk(w, pid, l)
    ensures KnowsOk(w, pid, After(l, r))
  {
    if l.pc.next < |l.pc.cands| {
      CandidateJoins(w, l.ns, l.pc.cands[l.pc.next]);
    }
  }

  /** The calls before which a pass relies on more than its own copy. */
  predicate Relies(pc: Pc) {
    pc.RecordVm? || pc.RecordWorker? || pc.PostNat? || pc.RecordIp? || pc.MarkReady? || pc.ProbeCandidate? ||
    pc.PostWorker?
  }

  lemma ReliesAfter(l: Local, r: Reply)
    requires Relies(After(l, r).pc) && !l.pc.Done?
    ensures (IsPost(l.pc) && r.Vm?) || (l.pc.PostNat? && r.Nat?) || (l.pc.CreateSecret? && r.Ok?) ||
            (l.pc.ListMachines? && r.Machines?) || l.pc.ProbeCandidate? || (l.pc.ListIps? && r.Ips?)
  {
  }

  lemma VmKnown(w: World, pid: nat, l: Local, r: Reply)
    requires IsPost(l.pc) && r.Vm? && CanReply(w, l, r)
    ensures KnowsOk(Effect(w, pid, l, r), pid, After(l, r))
  {
    var l' := After(l, r);
    PostDoes(w, pid, l, r);
    assert if l.pc.PostVm? then l'.pc.RecordVm? && l'.st.id == r.vm.id else l'.pc == RecordWorker(r.vm);
  }

  // ---------- what a call does, by kind ----------

  /** Calls that only ask: a read of the cloud or the store, a probe, or the pass's own choice. */
  predicate OnlyAsks(pc: Pc) {
    pc.PickAddress? || pc.ListIps? || pc.Probe? || pc.Fetch? || IsGet(pc) || pc.ListMachines? || pc.ProbeCandidate?
  }

  lemma AskingHasNoEffect(w: World, pid: nat, l: Local, r: Reply)
    requires CanReply(w, l, r) && OnlyAsks(l.pc)
    ensures Effect(w, pid, l, r) == w
  {
  }

  lemma WrittenIsCurrent(w: World, l: Local)
    requires CanReply(w, l, Written) && IsWrite(l.pc)
    ensures Current(w, l)
  {
  }

  /** A landed status write commits; no other call touches a machine. */
  lemma MachinesAfter(w: World, pid: nat, l: Local, r: Reply)
    requires CanReply(w, l, r) && (l.uid in w.machines ==> |w.machines[l.uid].versions| > 0)
    ensures if IsWrite(l.pc) && r.Written? then Effect(w, pid, l, r) == Commit(w, pid, l.uid, WriteOf(l))
            else Effect(w, pid, l, r).machines == w.machines
  {
    if !(IsWrite(l.pc) && r.Written?) {
      OnlyWritesTouch(w, pid, l, r);
    }
  }

  lemma OnlyWritesTouch(w: World, pid: nat, l: Local, r: Reply)
    requires CanReply(w, l, r) && !(IsWrite(l.pc) && r.Written?)
    ensures Effect(w, pid, l, r).machines == w.machines
  {
  }

  /** What a call leaves in the log: at most one event. */
  function EventsOf(w: World, pid: nat, l: Local, r: Reply): seq<Event>
    requires CanReply(w, l, r)
  {
    if IsWrite(l.pc) && r.Written? && |w.machines[l.uid].versions| > 0 then
      [StatusWritten(l.uid, pid, Stored(w, l.uid), WriteOf(l))]
    else if l.pc.PostVm? && r.Vm? then [VmAccepted(l.uid, r.vm.id, None)]
    else if l.pc.PostWorker? && r.Vm? then [VmAccepted(l.uid, r.vm.id, Some(l.pc.address))]
    else if l.pc.PostNat? && r.Nat? then [NatAttached(l.uid, pid, r.natId)]
    else if l.pc.AddFirewall? && r.Ok? then [FirewallAdded(l.uid, pid, LastNat(l.st))]
    else if l.pc.CreateSecret? && r.Ok? then [SecretCreated(l.cluster.name, pid)]
    else []
  }

  lemma EffectEvents(w: World, pid: nat, l: Local, r: Reply)
    requires CanReply(w, l, r)
    ensures Effect(w, pid, l, r).log == w.log + EventsOf(w, pid, l, r)
  {
    if IsWrite(l.pc) {
      WriteEvents(w, pid, l, r);
    } else if OnlyAsks(l.pc) {
      AskingHasNoEffect(w, pid, l, r);
    } else {
      CloudEvents(w, pid, l, r);
    }
  }

  lemma WriteEvents(w: World, pid: nat, l: Local, r: Reply)
    requires CanReply(w, l, r) && IsWrite(l.pc)
    ensures Effect(w, pid, l, r).log == w.log + EventsOf(w, pid, l, r)
  {
  }

  lemma CloudEvents(w: World, pid: nat, l: Local, r: Reply)
    requires CanReply(w, l, r) && !IsWrite(l.pc) && !OnlyAsks(l.pc)
    ensures Effect(w, pid, l, r).log == w.log + EventsOf(w, pid, l, r)
  {
  }

  /** A server POST that is accepted: the server is this machine's. */
  lemma PostDoes(w: World, pid: nat, l: Local, r: Reply)
    requires IsPost(l.pc) && r.Vm? && CanReply(w, l, r)
    ensures var w' := Effect(w, pid, l, r);
            && w' == w.(vms := w.vms[r.vm.id := l.uid], log := w'.log)
            && r.vm.id != "" && r.vm.id !in w.vms
  {
  }

  /** A NAT POST that is accepted: the NAT is this machine's, on the IP that was asked for. */
  lemma NatDoes(w: World, pid: nat, l: Local, r: Reply)
    requires l.pc.PostNat? && r.Nat? && CanReply(w, l, r)
    ensures var w' := Effect(w, pid, l, r);
            && w' == w.(nats := w.nats[r.natId := NatRecord(l.uid, l.pc.pub.id)], log := w'.log)
            && r.natId !in w.nats && IpFree(w, l.pc.pub.id)
  {
  }

  lemma SameCloud(w: World, pid: nat, l: Local, r: Reply)
    requires CanReply(w, l, r) && !(IsPost(l.pc) && r.Vm?) && !(l.pc.PostNat? && r.Nat?)
    ensures var w' := Effect(w, pid, l, r); w'.vms == w.vms && w'.nats == w.nats
  {
    if IsWrite(l.pc) {
      WriteSameCloud(w, pid, l, r);
    } else if OnlyAsks(l.pc) {
      AskingHasNoEffect(w, pid, l, r);
    }
  }

  lemma WriteSameCloud(w: World, pid: nat, l: Local, r: Reply)
    requires CanReply(w, l, r) && IsWrite(l.pc)
    ensures var w' := Effect(w, pid, l, r); w'.vms == w.vms && w'.nats == w.nats
  {
  }

  /** A Secret that is created holds the data it was created with, under a name that was free. */
  lemma SecretDoes(w: World, pid: nat, l: Local)
    requires l.pc.CreateSecret? && CanReply(w, l, Ok)
    ensures var w' := Effect(w, pid, l, Ok);
            && w' == w.(secrets := w.secrets[l.cluster.name := Secret(Some(pid), l.pc.data)], log := w'.log)
            && l.cluster.name !in w.secrets
  {
  }

  lemma KnownAfter(w: World, pid: nat, l: Local, r: Reply)
    requires MachinesOk(w) && PassOk(w, pid, l) && CanReply(w, l, r)
    ensures KnowsOk(Effect(w, pid, l, r), pid, After(l, r))
  {
    if Relies(After(l, r).pc) {
      ReliesAfter(l, r);
      if l.pc.CreateSecret? {
        SecretKnown(w, pid, l, r);
      } else if l.pc.PostNat? {
        NatKnown(w, pid, l, r);
      } else if l.pc.ListIps? {
        AskingHasNoEffect(w, pid, l, r);
        IpKnown(w, pid, l, r);
      } else if l.pc.ListMachines? {
        AskingHasNoEffect(w, pid, l, r);
        ListKnown(w, pid, l, r);
      } else if l.pc.ProbeCandidate? {
        AskingHasNoEffect(w, pid, l, r);
        ProbeKnown(w, pid, l, r);
      } else {
        VmKnown(w, pid, l, r);
      }
    }
  }

  lemma KnownAfterLoss(w: World, pid: nat, l: Local, r: Reply)
    requires MachinesOk(w) && PassOk(w, pid, l) && CanReply(w, l, r)
    ensures KnowsOk(Effect(w, pid, l, r), pid, After(l, Failed))
  {
    if Relies(After(l, Failed).pc) {
      ReliesAfter(l, Failed);
      ProbeKnown(w, pid, l, Failed);
    }
  }

  // ---------- the version a landed write adds ----------

  lemma WriteOk(w: World, pid: nat, l: Local)
    requires MachinesOk(w) && PassOk(w, pid, l) && IsWrite(l.pc)
    ensures var w1 := Commit(w, pid, l.uid, WriteOf(l));
            (l.rv == |w.machines[l.uid].versions| - 1 ==> VersionOk(w1, l.uid, WriteOf(l)))
    ensures Follows(w.machines[l.uid].versions[l.rv], WriteOf(l))
  {
    BaseOk(w, pid, l);
    var base := w.machines[l.uid].versions[l.rv];
    var st := WriteOf(l);
    WriteShape(l, base);
    var w1 := Commit(w, pid, l.uid, st);
    CommitGrows(w, pid, l.uid, st);
    VersionStays(w, w1, l.uid, base);
    KnowsStays(w, w1, pid, l);
    if l.rv == |w.machines[l.uid].versions| - 1 && st.cpRef.ready {
      assert w1.log[|w.log|] == StatusWritten(l.uid, pid, base, st);
      assert FlipAt(w1.log, |w.log|, l.uid);
      LogGrows(w.log, w1.log, |w.log|, l.uid, l.cluster.name);
    }
  }

  predicate SamePass(l: Local, l': Local) {
    l'.uid == l.uid && l'.ns == l.ns && l'.name == l.name && l'.cluster == l.cluster
  }

  lemma PassFromParts(w: World, w1: World, pid: nat, l: Local, l': Local)
    requires Grows(w, w1) && PassOk(w, pid, l) && SamePass(l, l')
    requires l'.rv < |w1.machines[l.uid].versions|
    requires LocalOk(l', w1.machines[l.uid].versions[l'.rv])
    requires KnowsOk(w1, pid, l')
    ensures PassOk(w1, pid, l')
  {
  }

  lemma PassFromParts'(w: World, w1: World, pid: nat, l: Local, l': Local)
    requires Grows(w, w1) && PassOk(w, pid, l) && SamePass(l, l') && l'.rv == l.rv
    requires LocalOk(l', w.machines[l.uid].versions[l.rv])
    requires KnowsOk(w1, pid, l')
    ensures PassOk(w1, pid, l')
  {
    assert w1.machines[l.uid].versions[l.rv] == w.machines[l.uid].versions[l.rv];
    PassFromParts(w, w1, pid, l, l');
  }

  lemma BaseAfterEffect(w: World, pid: nat, l: Local, r: Reply)
    requires l.uid in w.machines && l.rv < |w.machines[l.uid].versions| && CanReply(w, l, r)
    ensures var vs := Effect(w, pid, l, r).machines[l.uid].versions;
            var rv := if IsWrite(l.pc) && r.Written? && !l.pc.RecordWorker? then l.rv + 1 else l.rv;
            rv < |vs| && vs[rv] == BaseAfter(l, r, w.machines[l.uid].versions[l.rv])
  {
    MachinesAfter(w, pid, l, r);
    if IsWrite(l.pc) && r.Written? {
      WrittenIsCurrent(w, l);
    }
  }

  /** The stepping pass, after its reply arrived. */
  lemma PassAfter(w: World, pid: nat, l: Local, r: Reply)
    requires MachinesOk(w) && PassOk(w, pid, l) && CanReply(w, l, r)
    ensures PassOk(Effect(w, pid, l, r), pid, After(l, r))
  {
    BaseOk(w, pid, l);
    KnownAfter(w, pid, l, r);
    EffectGrows(w, pid, l, r);
    LocalAfter(w, pid, l, r, w.machines[l.uid].versions[l.rv]);
    SameIdentity(l, r);
    BaseAfterEffect(w, pid, l, r);
    PassFromParts(w, Effect(w, pid, l, r), pid, l, After(l, r));
  }

  lemma LocalAfter(w: World, pid: nat, l: Local, r: Reply, base: Status)
    requires MachinesOk(w) && KnowsOk(w, pid, l) && CanReply(w, l, r)
    requires LocalOk(l, base) && StatusOk(IsControlPlane(l.name), base)
    ensures LocalOk(After(l, r), BaseAfter(l, r, base))
  {
    if IsControlPlane(l.name) {
      AfterControlPlane(w, l, r, base);
    } else {
      if l.pc.ProbeCandidate? {
        CandsOneIp(w, l.ns, l.pc.cands);
      } else if l.pc.ListMachines? && r.Machines? {
        CandidatesJoin(w, l, r.machines);
      }
      AfterWorker(w, l, r, base);
    }
  }

  lemma SameIdentity(l: Local, r: Reply)
    ensures SamePass(l, After(l, r))
    ensures After(l, r).rv == if IsWrite(l.pc) && r.Written? && !l.pc.RecordWorker? then l.rv + 1 else l.rv
  {
  }

  /** The stepping pass, when the reply to a call that took effect was lost. */
  lemma PassAfterLoss(w: World, pid: nat, l: Local, r: Reply)
    requires MachinesOk(w) && PassOk(w, pid, l) && CanReply(w, l, r) && !l.pc.PickAddress?
    ensures PassOk(Effect(w, pid, l, r), pid, After(l, Failed))
  {
    BaseOk(w, pid, l);
    KnownAfterLoss(w, pid, l, r);
    EffectGrows(w, pid, l, r);
    LocalAfter(w, pid, l, Failed, w.machines[l.uid].versions[l.rv]);
    SameIdentity(l, Failed);
    PassFromParts'(w, Effect(w, pid, l, r), pid, l, After(l, Failed));
  }

  // ---------- machines ----------

  lemma HistoryStays(w: World, w': World, uid: nat)
    requires Grows(w, w') && uid in w.machines && HistoryOk(w, uid)
    requires w'.machines[uid].versions == w.machines[uid].versions
    ensures HistoryOk(w', uid)
  {
    var vs := w.machines[uid].versions;
    forall i | 0 <= i < |vs| ensures VersionOk(w', uid, vs[i]) {
      VersionStays(w, w', uid, vs[i]);
    }
  }

  lemma HistoryAppends(w: World, w': World, uid: nat, st: Status)
    requires Grows(w, w') && uid in w.machines && HistoryOk(w, uid)
    requires w'.machines[uid].versions == w.machines[uid].versions + [st]
    requires VersionOk(w', uid, st) && Follows(Stored(w, uid), st)
    ensures HistoryOk(w', uid)
  {
    var vs := w.machines[uid].versions;
    var vs' := w'.machines[uid].versions;
    forall i | 0 <= i < |vs'| ensures VersionOk(w', uid, vs'[i]) {
      if i < |vs| {
        VersionStays(w, w', uid, vs[i]);
      }
    }
    forall i, j | 0 <= i < |vs'| && j == i + 1 && j < |vs'| ensures Follows(vs'[i], vs'[j]) {
      if j < |vs| {
        assert Follows(vs[i], vs[j]);
      }
    }
  }

  lemma CommitMachines(w: World, pid: nat, l: Local)
    requires MachinesOk(w) && PassOk(w, pid, l) && IsWrite(l.pc) && Current(w, l)
    ensures MachinesOk(Commit(w, pid, l.uid, WriteOf(l)))
  {
    var w1 := Commit(w, pid, l.uid, WriteOf(l));
    CommitGrows(w, pid, l.uid, WriteOf(l));
    WriteOk(w, pid, l);
    forall uid | uid in w1.machines ensures HistoryOk(w1, uid) {
      if uid == l.uid {
        HistoryAppends(w, w1, uid, WriteOf(l));
      } else {
        HistoryStays(w, w1, uid);
      }
    }
  }

  lemma SameMachinesOk(w: World, w': World)
    requires MachinesOk(w) && Grows(w, w') && w'.machines == w.machines
    ensures MachinesOk(w')
  {
    forall uid | uid in w'.machines ensures HistoryOk(w', uid) {
      HistoryStays(w, w', uid);
    }
  }

  lemma EffectMachines(w: World, pid: nat, l: Local, r: Reply)
    requires MachinesOk(w) && PassOk(w, pid, l) && CanReply(w, l, r)
    ensures MachinesOk(Effect(w, pid, l, r))
  {
    MachinesAfter(w, pid, l, r);
    if IsWrite(l.pc) && r.Written? {
      WrittenIsCurrent(w, l);
      CommitMachines(w, pid, l);
    } else {
      EffectGrows(w, pid, l, r);
      SameMachinesOk(w, Effect(w, pid, l, r));
    }
  }

  // ---------- the cloud ----------

  lemma EffectCloud(w: World, pid: nat, l: Local, r: Reply)
    requires CloudOk(w) && CanReply(w, l, r)
    ensures CloudOk(Effect(w, pid, l, r))
  {
    if IsPost(l.pc) && r.Vm? {
      PostDoes(w, pid, l, r);
    } else if l.pc.PostNat? && r.Nat? {
      NatDoes(w, pid, l, r);
      assert IpFree(w, l.pc.pub.id);
    } else {
      SameCloud(w, pid, l, r);
    }
  }

  // ---------- the log and the lock ----------

  /** The event a landed status write leaves behind. */
  lemma FlipNeedsSecret(w: World, pid: nat, l: Local)
    requires MachinesOk(w) && PassOk(w, pid, l) && IsWrite(l.pc) && Current(w, l)
    ensures var e := StatusWritten(l.uid, pid, Stored(w, l.uid), WriteOf(l));
            IsFlip(e) ==>
              && l.pc.MarkReady?
              && Unlocked(w.log, |w.log|, l.uid, w.machines[l.uid].cluster)
              && w.machines[l.uid].cluster in w.secrets
              && w.secrets[w.machines[l.uid].cluster].creator == Some(pid)
  {
    BaseOk(w, pid, l);
    WriteShape(l, w.machines[l.uid].versions[l.rv]);
  }

  /** One more event. A ready write comes from a pass that had not ended, while the
      creator of the Secret behind any earlier ready write has. */
  lemma LogExtends(w: World, w': World, e: Event)
    requires LogOk(w) && LockOk(w) && Grows(w, w') && w'.log == w.log + [e]
    requires EventOk(w', |w.log|)
    requires IsFlip(e) ==> e.pid in w.passes && !w.passes[e.pid].pc.Done?
    ensures LogOk(w') && LockOk(w')
  {
    forall i: nat | i < |w.log| ensures EventOk(w', i) && w'.log[i] == w.log[i] {
      EventStays(w, w', i);
    }
    forall i, j | 0 <= i < j < |w'.log| && IsFlip(w'.log[i]) && IsFlip(w'.log[j])
      ensures && w'.log[i].uid in w'.machines && w'.log[j].uid in w'.machines
              && w'.machines[w'.log[i].uid].cluster != w'.machines[w'.log[j].uid].cluster
    {
      assert EventOk(w, i) && EventOk(w', i) && EventOk(w', j);
    }
  }

  lemma LogStays(w: World, w': World)
    requires LogOk(w) && LockOk(w) && Grows(w, w') && w'.log == w.log
    ensures LogOk(w') && LockOk(w')
  {
    forall i: nat | i < |w.log| ensures EventOk(w', i) {
      EventStays(w, w', i);
    }
    forall i, j | 0 <= i < j < |w'.log| && IsFlip(w'.log[i]) && IsFlip(w'.log[j])
      ensures && w'.log[i].uid in w'.machines && w'.log[j].uid in w'.machines
              && w'.machines[w'.log[i].uid].cluster != w'.machines[w'.log[j].uid].cluster
    {
      assert EventOk(w, i) && EventOk(w, j);
    }
  }

  lemma CommitEvent(w: World, w': World, pid: nat, l: Local, l': Local)
    requires MachinesOk(w) && PassOk(w, pid, l) && IsWrite(l.pc) && Current(w, l)
    requires l.pc.MarkReady? ==> l'.pc.Done?
    requires Grows(w, w') && pid in w'.passes && w'.passes[pid] == l'
    requires w'.log == w.log + [StatusWritten(l.uid, pid, Stored(w, l.uid), WriteOf(l))]
    ensures EventOk(w', |w.log|)
    ensures IsFlip(w'.log[|w.log|]) ==> l.pc.MarkReady?
  {
    FlipNeedsSecret(w, pid, l);
    LogGrows(w.log, w'.log, |w.log|, l.uid, w.machines[l.uid].cluster);
  }

  lemma VmEvent(w: World, w': World, pid: nat, l: Local, vm: string)
    requires PassOk(w, pid, l) && IsPost(l.pc) && Grows(w, w')
    requires VmOf(w', l.uid, vm)
    requires w'.log == w.log + [VmAccepted(l.uid, vm, if l.pc.PostWorker? then Some(l.pc.address) else None)]
    ensures EventOk(w', |w.log|)
  {
    if l.pc.PostWorker? {
      JoinPointStays(w, w', |w.log|, |w.log|, l.ns, l.pc.address);
    }
  }

  lemma NatEvent(w: World, w': World, pid: nat, l: Local, n: string)
    requires PassOk(w, pid, l) && l.pc.PostNat? && Grows(w, w')
    requires n in w'.nats && w'.nats[n].owner == l.uid
    requires w'.log == w.log + [NatAttached(l.uid, pid, n)]
    ensures EventOk(w', |w.log|)
  {
    assert (l.ns, l.cluster) in w'.clusters && l.cluster.external;
  }

  /** The log after a call, whatever the pass then made of the reply. */
  lemma EffectLog(w: World, pid: nat, l: Local, r: Reply, l': Local)
    requires MachinesOk(w) && LogOk(w) && LockOk(w)
    requires pid in w.passes && w.passes[pid] == l && PassOk(w, pid, l) && CanReply(w, l, r)
    requires l.pc.MarkReady? ==> l'.pc.Done?
    requires Grows(w, SetPass(Effect(w, pid, l, r), pid, l'))
    ensures var w' := SetPass(Effect(w, pid, l, r), pid, l'); LogOk(w') && LockOk(w')
  {
    var w' := SetPass(Effect(w, pid, l, r), pid, l');
    EffectEvents(w, pid, l, r);
    if IsWrite(l.pc) && r.Written? {
      HasVersion(w, l.uid);
      WrittenIsCurrent(w, l);
      WriteLog(w, w', pid, l, l');
    } else if IsPost(l.pc) && r.Vm? {
      PostDoes(w, pid, l, r);
      VmEvent(w, w', pid, l, r.vm.id);
      LogExtends(w, w', EventsOf(w, pid, l, r)[0]);
    } else if l.pc.PostNat? && r.Nat? {
      NatDoes(w, pid, l, r);
      NatEvent(w, w', pid, l, r.natId);
      LogExtends(w, w', EventsOf(w, pid, l, r)[0]);
    } else if l.pc.CreateSecret? && r.Ok? {
      SecretDoes(w, pid, l);
      LogExtends(w, w', SecretCreated(l.cluster.name, pid));
    } else if l.pc.AddFirewall? && r.Ok? {
      LogExtends(w, w', FirewallAdded(l.uid, pid, LastNat(l.st)));
    } else {
      assert w'.log == w.log;
      LogStays(w, w');
    }
  }

  lemma WriteLog(w: World, w': World, pid: nat, l: Local, l': Local)
    requires MachinesOk(w) && LogOk(w) && LockOk(w) && Grows(w, w')
    requires pid in w.passes && w.passes[pid] == l && PassOk(w, pid, l) && IsWrite(l.pc) && Current(w, l)
    requires l.pc.MarkReady? ==> l'.pc.Done?
    requires pid in w'.passes && w'.passes[pid] == l' && |w.machines[l.uid].versions| > 0
    requires w'.log == w.log + [StatusWritten(l.uid, pid, Stored(w, l.uid), WriteOf(l))]
    ensures LogOk(w') && LockOk(w')
  {
    CommitEvent(w, w', pid, l, l');
    LogExtends(w, w', StatusWritten(l.uid, pid, Stored(w, l.uid), WriteOf(l)));
  }

  lemma HasVersion(w: World, uid: nat)
    requires MachinesOk(w) && uid in w.machines
    ensures |w.machines[uid].versions| > 0
  {
    assert HistoryOk(w, uid);
  }

  // ---------- steps and runs ----------

  lemma OthersStay(w: World, w': World, pid: nat)
    requires PassesOk(w) && Grows(w, w') && pid in w'.passes && PassOk(w', pid, w'.passes[pid])
    requires forall p :: p in w'.passes && p != pid ==> p in w.passes && w'.passes[p] == w.passes[p]
    ensures PassesOk(w')
  {
    forall p | p in w'.passes ensures PassOk(w', p, w'.passes[p]) {
      if p != pid {
        PassStays(w, w', p, w.passes[p]);
      }
    }
  }

  lemma ReplyMachines(w: World, pid: nat, l: Local, r: Reply, w': World)
    requires MachinesOk(w) && PassOk(w, pid, l) && CanReply(w, l, r)
    requires Grows(Effect(w, pid, l, r), w') && w'.machines == Effect(w, pid, l, r).machines
    ensures MachinesOk(w')
  {
    EffectMachines(w, pid, l, r);
    SameMachinesOk(Effect(w, pid, l, r), w');
  }

  lemma ReplyPasses(w: World, pid: nat, w1: World, l': Local)
    requires PassesOk(w) && Grows(w, SetPass(w1, pid, l')) && Grows(w1, SetPass(w1, pid, l'))
    requires w1.passes == w.passes && PassOk(w1, pid, l')
    ensures PassesOk(SetPass(w1, pid, l'))
  {
    PassStays(w1, SetPass(w1, pid, l'), pid, l');
    OthersStay(w, SetPass(w1, pid, l'), pid);
  }

  /** A call whose effect reached the world, after which the pass stands at `l'`. */
  lemma ReplyKeeps(w: World, pid: nat, r: Reply, l': Local)
    requires Inv(w) && pid in w.passes && CanReply(w, w.passes[pid], r)
    requires w.passes[pid].pc.MarkReady? ==> l'.pc.Done?
    requires PassOk(Effect(w, pid, w.passes[pid], r), pid, l')
    ensures Inv(SetPass(Effect(w, pid, w.passes[pid], r), pid, l'))
  {
    var l := w.passes[pid];
    assert PassOk(w, pid, l);
    var w1 := Effect(w, pid, l, r);
    ReplyGrows(w, pid, r, l');
    SetPassGrows(w1, pid, l');
    ReplyMachines(w, pid, l, r, SetPass(w1, pid, l'));
    EffectCloud(w, pid, l, r);
    EffectLog(w, pid, l, r, l');
    ReplyPasses(w, pid, w1, l');
  }

  lemma DeliverKeeps(w: World, pid: nat, r: Reply)
    requires Inv(w) && Enabled(w, Deliver(pid, r))
    ensures Inv(Apply(w, Deliver(pid, r)))
  {
    var l := w.passes[pid];
    PassAfter(w, pid, l, r);
    ReplyKeeps(w, pid, r, After(l, r));
  }

  lemma LoseReplyKeeps(w: World, pid: nat, r: Reply)
    requires Inv(w) && Enabled(w, LoseReply(pid, r))
    ensures Inv(Apply(w, LoseReply(pid, r)))
  {
    var l := w.passes[pid];
    PassAfterLoss(w, pid, l, r);
    ReplyKeeps(w, pid, r, After(l, Failed));
  }

  /** Replacing one pass and nothing else. */
  lemma SetPassKeeps(w: World, pid: nat, l': Local)
    requires Inv(w) && PassOk(w, pid, l')
    requires pid in w.passes && w.passes[pid].pc.Done? ==> l'.pc.Done?
    ensures Inv(SetPass(w, pid, l'))
  {
    var w' := SetPass(w, pid, l');
    SetPassGrows(w, pid, l');
    SameMachinesOk(w, w');
    LogStays(w, w');
    PassStays(w, w', pid, l');
    OthersStay(w, w', pid);
  }

  lemma BeginKeeps(w: World, pid: nat, uid: nat, rv: nat, cluster: KTCluster)
    requires Inv(w) && Enabled(w, Begin(pid, uid, rv, cluster))
    ensures Inv(Apply(w, Begin(pid, uid, rv, cluster)))
  {
    var m := w.machines[uid];
    assert HistoryOk(w, uid);
    assert VersionOk(w, uid, m.versions[rv]);
    SetPassKeeps(w, pid, Start(uid, m.ns, m.name, cluster, rv, m.versions[rv]));
  }

  lemma AllPassesStay(w: World, w': World)
    requires PassesOk(w) && Grows(w, w') && w'.passes == w.passes
    ensures PassesOk(w')
  {
    forall p | p in w'.passes ensures PassOk(w', p, w'.passes[p]) {
      PassStays(w, w', p, w.passes[p]);
    }
  }

  lemma OutsideMachines(w: World, s: Step)
    requires MachinesOk(w) && Enabled(w, s) && IsOutside(s)
    ensures MachinesOk(Apply(w, s))
  {
    var w' := Apply(w, s);
    OutsideGrows(w, s);
    forall uid | uid in w'.machines ensures HistoryOk(w', uid) {
      if s.CreateMachine? && uid == s.uid {
      } else if s.TouchMachine? && uid == s.uid {
        assert HistoryOk(w, uid);
        var last := Stored(w, uid);
        assert VersionOk(w, uid, last);
        VersionStays(w, w', uid, last);
        HistoryAppends(w, w', uid, last);
      } else {
        HistoryStays(w, w', uid);
      }
    }
  }

  lemma OutsideKeeps(w: World, s: Step)
    requires Inv(w) && Enabled(w, s) && IsOutside(s)
    ensures Inv(Apply(w, s))
  {
    var w' := Apply(w, s);
    OutsideGrows(w, s);
    OutsideMachines(w, s);
    AllPassesStay(w, w');
    LogStays(w, w');
  }

  lemma StepKeeps(w: World, s: Step)
    requires Inv(w) && Enabled(w, s)
    ensures Inv(Apply(w, s))
  {
    match s
    case Begin(pid, uid, rv, cluster) => BeginKeeps(w, pid, uid, rv, cluster);
    case Deliver(pid, r) => DeliverKeeps(w, pid, r);
    case LoseReply(pid, r) => LoseReplyKeeps(w, pid, r);
    case Crash(pid) =>
      assert PassOk(w, pid, w.passes[pid]);
      SetPassKeeps(w, pid, End(w.passes[pid], Error));
    case _ => OutsideKeeps(w, s);
  }

  lemma {:induction false} RunKeeps(w: World, run: seq<Step>)
    requires Inv(w) && Legal(w, run)
    ensures Inv(Exec(w, run)) && Grows(w, Exec(w, run))
    decreases |run|
  {
    if run == [] {
    } else {
      var w1 := Apply(w, run[0]);
      StepKeeps(w, run[0]);
      StepGrows(w, run[0]);
      RunKeeps(w1, run[1..]);
      GrowsTransitive(w, w1, Exec(w, run));
    }
  }

  /** The worlds a run from the start can reach. */
  ghost predicate Reachable(w: World) {
    exists w0: World, run: seq<Step> {:trigger Legal(w0, run)} :: Init(w0) && Legal(w0, run) && Exec(w0, run) == w
  }

  lemma {:induction false} ExecAppend(first: World, run: seq<Step>, s: Step)
    requires Legal(first, run) && Enabled(Exec(first, run), s)
    ensures Legal(first, run + [s]) && Exec(first, run + [s]) == Apply(Exec(first, run), s)
    decreases |run|
  {
    if run == [] {
      assert [s][1..] == [];
    } else {
      ExecAppend(Apply(first, run[0]), run[1..], s);
      assert (run + [s])[1..] == run[1..] + [s];
    }
  }

  lemma ReachNext(w: World, s: Step)
    requires Reachable(w) && Enabled(w, s)
    ensures Reachable(Apply(w, s))
  {
    var w0: World, run: seq<Step> :| Init(w0) && Legal(w0, run) && Exec(w0, run) == w;
    ExecAppend(w0, run, s);
    assert Legal(w0, run + [s]);
  }

  lemma ReachableInv(w: World)
    requires Reachable(w)
    ensures Inv(w)
  {
    var w0: World, run: seq<Step> :| Init(w0) && Legal(w0, run) && Exec(w0, run) == w;
    InitInv(w0);
    RunKeeps(w0, run);
  }
}

/** Servers, NATs and join flags: the store against the cloud, over every run. */
module Machines {
  import opened KTObjects
  import opened Pass
  import opened World
  import opened Invariant
  import opened Preservation

  // ---------- servers ----------

  /** The servers the cloud ever accepted for a machine: one per accepted POST, ids being fresh. */
  ghost function PostedFor(w: World, uid: nat): set<string> {
    set v | v in w.vms && w.vms[v] == uid
  }

  ghost predicate EverStored(w: World, uid: nat, vm: string) {
    uid in w.machines && exists st :: st in w.machines[uid].versions && st.id == vm
  }

  /** Accepted, but no status write carrying the id ever landed. */
  ghost function LostFor(w: World, uid: nat): set<string> {
    set v | v in PostedFor(w, uid) && !EverStored(w, uid, v)
  }

  ghost function RecordedFor(w: World, uid: nat): set<string>
    requires uid in w.machines && |w.machines[uid].versions| > 0
  {
    if Stored(w, uid).id == "" then {} else {Stored(w, uid).id}
  }

  /** Along a history, an id once stored is the id from then on. */
  lemma {:induction false} IdSticks(w: World, uid: nat, i: nat, j: nat)
    requires uid in w.machines && HistoryOk(w, uid)
    requires i <= j < |w.machines[uid].versions| && w.machines[uid].versions[i].id != ""
    ensures w.machines[uid].versions[j].id == w.machines[uid].versions[i].id
    decreases j
  {
    if i < j {
      IdSticks(w, uid, i, j - 1);
      assert Follows(w.machines[uid].versions[j - 1], w.machines[uid].versions[j]);
    }
  }

  /** VM conservation: what was posted is what is recorded plus what was lost, nothing twice. */
  lemma VmConservation(w: World, uid: nat)
    requires Reachable(w) && uid in w.machines
    ensures |w.machines[uid].versions| > 0
    ensures PostedFor(w, uid) == RecordedFor(w, uid) + LostFor(w, uid)
    ensures RecordedFor(w, uid) !! LostFor(w, uid)
    ensures |PostedFor(w, uid)| == |LostFor(w, uid)| + if Stored(w, uid).id == "" then 0 else 1
  {
    ReachableInv(w);
    InvConservation(w, uid);
  }

  lemma InvConservation(w: World, uid: nat)
    requires Inv(w) && uid in w.machines
    ensures HistoryOk(w, uid)
    ensures PostedFor(w, uid) == RecordedFor(w, uid) + LostFor(w, uid)
    ensures RecordedFor(w, uid) !! LostFor(w, uid)
    ensures |PostedFor(w, uid)| == |LostFor(w, uid)| + if Stored(w, uid).id == "" then 0 else 1
  {
    assert HistoryOk(w, uid);
    var vs := w.machines[uid].versions;
    var last := Stored(w, uid);
    assert VersionOk(w, uid, vs[|vs| - 1]);
    forall v | v in PostedFor(w, uid) && EverStored(w, uid, v)
      ensures v == "" || v == last.id
    {
      var st :| st in vs && st.id == v;
      var i :| 0 <= i < |vs| && vs[i] == st;
      if v != "" {
        IdSticks(w, uid, i, |vs| - 1);
      }
    }
    assert last in vs;
    assert RecordedFor(w, uid) <= PostedFor(w, uid);
  }

  /** The accepted create POSTs of a machine, counted in the log. */
  function Posts(log: seq<Event>, uid: nat): nat {
    if log == [] then 0
    else Posts(log[..|log| - 1], uid) +
         if log[|log| - 1].VmAccepted? && log[|log| - 1].uid == uid then 1 else 0
  }

  lemma PostsAppend(log: seq<Event>, e: Event, uid: nat)
    ensures Posts(log + [e], uid) == Posts(log, uid) + if e.VmAccepted? && e.uid == uid then 1 else 0
  {
    assert (log + [e])[..|log|] == log;
  }

  lemma AcceptVmPosts(w: World, owner: nat, vm: string, join: Option<string>, uid: nat)
    requires vm !in w.vms && Posts(w.log, uid) == |PostedFor(w, uid)|
    ensures var w' := AcceptVm(w, owner, vm, join); Posts(w'.log, uid) == |PostedFor(w', uid)|
  {
    PostsAppend(w.log, VmAccepted(owner, vm, join), uid);
    assert PostedFor(AcceptVm(w, owner, vm, join), uid) == PostedFor(w, uid) + if owner == uid then {vm} else {};
  }

  lemma OtherEffect(w: World, pid: nat, l: Local, r: Reply)
    requires CanReply(w, l, r) && !(IsPost(l.pc) && r.Vm?)
    ensures var w' := Effect(w, pid, l, r);
            && w'.vms == w.vms
            && (w'.log == w.log || exists e: Event :: w'.log == w.log + [e] && !e.VmAccepted?)
  {
    if l.pc.PostNat? && r.Nat? {
      NatDoes(w, pid, l, r);
    } else {
      SameCloud(w, pid, l, r);
    }
    EffectEvents(w, pid, l, r);
    var es := EventsOf(w, pid, l, r);
    assert es == [] ==> w.log + es == w.log;
    assert es != [] ==> es == [es[0]] && !es[0].VmAccepted?;
  }

  lemma EffectPosts(w: World, pid: nat, l: Local, r: Reply, uid: nat)
    requires CanReply(w, l, r)
    requires Posts(w.log, uid) == |PostedFor(w, uid)|
    ensures var w' := Effect(w, pid, l, r); Posts(w'.log, uid) == |PostedFor(w', uid)|
  {
    if IsPost(l.pc) && r.Vm? {
      AcceptVmPosts(w, l.uid, r.vm.id, if l.pc.PostWorker? then Some(l.pc.address) else None, uid);
    } else {
      OtherEffect(w, pid, l, r);
    }
  }

  lemma StepPosts(w: World, s: Step, uid: nat)
    requires Enabled(w, s) && Posts(w.log, uid) == |PostedFor(w, uid)|
    ensures var w' := Apply(w, s); Posts(w'.log, uid) == |PostedFor(w', uid)|
  {
    if s.Deliver? || s.LoseReply? {
      EffectPosts(w, s.pid, w.passes[s.pid], s.reply, uid);
      assert PostedFor(Apply(w, s), uid) == PostedFor(Effect(w, s.pid, w.passes[s.pid], s.reply), uid);
    } else {
      assert PostedFor(Apply(w, s), uid) == PostedFor(w, uid);
    }
  }

  /** The set of accepted servers counts the POSTs of the run, so conservation is about them. */
  lemma {:induction false} PostsAreServers(w: World, run: seq<Step>, uid: nat)
    requires Legal(w, run) && Posts(w.log, uid) == |PostedFor(w, uid)|
    ensures var w' := Exec(w, run); Posts(w'.log, uid) == |PostedFor(w', uid)|
    decreases |run|
  {
    if run == [] {
    } else {
      StepPosts(w, run[0], uid);
      PostsAreServers(Apply(w, run[0]), run[1..], uid);
    }
  }

  /** A run only ever adds versions to a history, and keeps it in order. */
  lemma RunHistory(w: World, run: seq<Step>, uid: nat)
    requires Inv(w) && Legal(w, run) && uid in w.machines
    ensures var w' := Exec(w, run);
            && uid in w'.machines && HistoryOk(w', uid)
            && w.machines[uid].versions <= w'.machines[uid].versions
  {
    RunKeeps(w, run);
    assert MachinesOk(Exec(w, run));
  }

  lemma IdStaysStored(w: World, w': World, uid: nat)
    requires uid in w.machines && uid in w'.machines && HistoryOk(w', uid) && |w.machines[uid].versions| > 0
    requires w.machines[uid].versions <= w'.machines[uid].versions && Stored(w, uid).id != ""
    ensures Stored(w', uid).id == Stored(w, uid).id
  {
    var n := |w.machines[uid].versions| - 1;
    assert w'.machines[uid].versions[n] == w.machines[uid].versions[n];
    IdSticks(w', uid, n, |w'.machines[uid].versions| - 1);
  }

  /** A server id, once recorded, is neither changed nor cleared by any later step. */
  lemma RecordedIdStays(w: World, run: seq<Step>, uid: nat)
    requires Inv(w) && Legal(w, run) && uid in w.machines && HistoryOk(w, uid)
    requires Stored(w, uid).id != ""
    ensures uid in Exec(w, run).machines && HistoryOk(Exec(w, run), uid)
    ensures Stored(Exec(w, run), uid).id == Stored(w, uid).id
  {
    RunHistory(w, run, uid);
    IdStaysStored(w, Exec(w, run), uid);
  }

  // ---------- the join flag ----------

  /** No stored worker both claims to have joined and holds a server. */
  lemma JoinedHoldsNoServer(w: World, uid: nat, i: nat)
    requires Reachable(w) && uid in w.machines && i < |w.machines[uid].versions|
    ensures !(w.machines[uid].versions[i].joined && w.machines[uid].versions[i].id != "")
  {
    ReachableInv(w);
    assert HistoryOk(w, uid);
    assert VersionOk(w, uid, w.machines[uid].versions[i]);
  }

  /** The flag write can land only while no server was ever recorded: after the pass's own
      record landed, or anyone else's, the version it carries is stale. */
  lemma FlagLandsOnlyUnrecorded(w: World, pid: nat)
    requires Reachable(w) && pid in w.passes && w.passes[pid].pc.MarkJoined?
    requires CanReply(w, w.passes[pid], Written)
    ensures var l := w.passes[pid];
            l.uid in w.machines && RecordedFor(w, l.uid) == {} &&
            forall i: nat :: i < |w.machines[l.uid].versions| ==> w.machines[l.uid].versions[i].id == ""
  {
    ReachableInv(w);
    CurrentUnrecorded(w, pid, w.passes[pid]);
  }

  lemma CurrentUnrecorded(w: World, pid: nat, l: Local)
    requires MachinesOk(w) && PassOk(w, pid, l) && l.pc.MarkJoined? && Current(w, l)
    ensures |w.machines[l.uid].versions| > 0 && RecordedFor(w, l.uid) == {}
    ensures forall i: nat :: i < |w.machines[l.uid].versions| ==> w.machines[l.uid].versions[i].id == ""
  {
    assert HistoryOk(w, l.uid);
    var vs := w.machines[l.uid].versions;
    forall i: nat | i < |vs| ensures vs[i].id == "" {
      if vs[i].id != "" {
        IdSticks(w, l.uid, i, |vs| - 1);
      }
    }
  }

  lemma {:induction false} JoinedSticks(w: World, uid: nat, i: nat, j: nat)
    requires uid in w.machines && HistoryOk(w, uid)
    requires i <= j < |w.machines[uid].versions| && w.machines[uid].versions[i].joined
    ensures w.machines[uid].versions[j] == w.machines[uid].versions[i]
    decreases j
  {
    if i < j {
      JoinedSticks(w, uid, i, j - 1);
      assert Follows(w.machines[uid].versions[j - 1], w.machines[uid].versions[j]);
    }
  }

  lemma JoinedStaysStored(w: World, w': World, uid: nat)
    requires uid in w.machines && uid in w'.machines && HistoryOk(w', uid) && |w.machines[uid].versions| > 0
    requires w.machines[uid].versions <= w'.machines[uid].versions && Stored(w, uid).joined
    ensures Stored(w', uid) == Stored(w, uid) && Stored(w', uid).id == ""
  {
    var n := |w.machines[uid].versions| - 1;
    assert w'.machines[uid].versions[n] == w.machines[uid].versions[n];
    JoinedSticks(w', uid, n, |w'.machines[uid].versions| - 1);
    assert VersionOk(w', uid, w'.machines[uid].versions[n]);
  }

  /** A worker whose flag landed is stranded: its stored status never changes again, so it
      never gets a server. When a flag lands is the subject of `Stranding`. */
  lemma StrandedForever(w: World, run: seq<Step>, uid: nat)
    requires Inv(w) && Legal(w, run) && uid in w.machines && HistoryOk(w, uid)
    requires Stored(w, uid).joined
    ensures uid in Exec(w, run).machines && HistoryOk(Exec(w, run), uid)
    ensures Stored(Exec(w, run), uid) == Stored(w, uid) && Stored(Exec(w, run), uid).id == ""
  {
    RunHistory(w, run, uid);
    JoinedStaysStored(w, Exec(w, run), uid);
  }

  // ---------- NATs ----------

  ghost function NatsFor(w: World, uid: nat): set<string> {
    set n | n in w.nats && w.nats[n].owner == uid
  }

  ghost predicate Holds(st: Status, n: string) {
    exists a :: a in st.ips && a.natId == n
  }

  ghost function HeldFor(w: World, uid: nat): set<string>
    requires uid in w.machines && |w.machines[uid].versions| > 0
  {
    set a | a in Stored(w, uid).ips :: a.natId
  }

  /** Attached, but no status write that lists the NAT ever landed. */
  ghost function NeverStored(w: World, uid: nat): set<string>
    requires uid in w.machines
  {
    set n | n in NatsFor(w, uid) && forall i: nat :: i < |w.machines[uid].versions| ==>
        !Holds(w.machines[uid].versions[i], n)
  }

  /** Listed by some version, and dropped by the whole-status overwrite that came next. */
  ghost predicate ErasedAt(w: World, uid: nat, n: string, i: nat)
    requires uid in w.machines
  {
    var vs := w.machines[uid].versions;
    i + 1 < |vs| && Holds(vs[i], n) && Erased(vs[i], vs[i + 1])
  }

  ghost function ErasedFor(w: World, uid: nat): set<string>
    requires uid in w.machines && |w.machines[uid].versions| > 0
  {
    set n | n in NatsFor(w, uid) && n !in HeldFor(w, uid) && exists i: nat :: ErasedAt(w, uid, n, i)
  }

  /** From a version that lists the NAT to the last one: still listed, or erased on the way. */
  lemma {:induction false} NatKeptOrErased(w: World, uid: nat, n: string, i: nat)
    requires uid in w.machines && HistoryOk(w, uid)
    requires i < |w.machines[uid].versions| && Holds(w.machines[uid].versions[i], n)
    ensures n in HeldFor(w, uid) || exists j: nat :: ErasedAt(w, uid, n, j)
    decreases |w.machines[uid].versions| - i
  {
    var vs := w.machines[uid].versions;
    if i + 1 < |vs| {
      assert Follows(vs[i], vs[i + 1]);
      if Erased(vs[i], vs[i + 1]) {
        assert ErasedAt(w, uid, n, i);
      } else {
        NatKeptOrErased(w, uid, n, i + 1);
      }
    }
  }

  lemma NatsCovered(w: World, uid: nat)
    requires uid in w.machines && HistoryOk(w, uid)
    ensures NatsFor(w, uid) <= HeldFor(w, uid) + NeverStored(w, uid) + ErasedFor(w, uid)
  {
    var vs := w.machines[uid].versions;
    forall n | n in NatsFor(w, uid)
      ensures n in HeldFor(w, uid) + NeverStored(w, uid) + ErasedFor(w, uid)
    {
      if n !in NeverStored(w, uid) {
        var i: nat :| i < |vs| && Holds(vs[i], n);
        NatKeptOrErased(w, uid, n, i);
      }
    }
  }

  lemma HeldOk(w: World, uid: nat)
    requires uid in w.machines && HistoryOk(w, uid)
    ensures HeldFor(w, uid) <= NatsFor(w, uid) && HeldFor(w, uid) !! NeverStored(w, uid)
    ensures |HeldFor(w, uid)| <= 1
  {
    var vs := w.machines[uid].versions;
    var last := Stored(w, uid);
    assert VersionOk(w, uid, vs[|vs| - 1]);
    forall n | n in HeldFor(w, uid) ensures n in NatsFor(w, uid) && n !in NeverStored(w, uid) {
      var a :| a in last.ips && a.natId == n;
      assert NatOf(w, uid, a);
      assert Holds(vs[|vs| - 1], n);
    }
    if |last.ips| == 0 {
      assert HeldFor(w, uid) == {};
    } else {
      assert HeldFor(w, uid) == {last.ips[0].natId};
    }
  }

  lemma ThreeParts<T>(a: set<T>, b: set<T>, c: set<T>)
    requires a !! b && a !! c && b !! c
    ensures |a + b + c| == |a| + |b| + |c|
  {
  }

  /** NAT accounting, machine by machine: recorded (at most one), lost before any write
      recorded it, or dropped by the overwrite; and nothing twice. */
  lemma NatAccounting(w: World, uid: nat)
    requires Reachable(w) && uid in w.machines
    ensures |w.machines[uid].versions| > 0
    ensures NatsFor(w, uid) == HeldFor(w, uid) + NeverStored(w, uid) + ErasedFor(w, uid)
    ensures HeldFor(w, uid) !! NeverStored(w, uid) && HeldFor(w, uid) !! ErasedFor(w, uid)
    ensures NeverStored(w, uid) !! ErasedFor(w, uid)
    ensures |HeldFor(w, uid)| <= 1
    ensures |NatsFor(w, uid)| == |HeldFor(w, uid)| + |NeverStored(w, uid)| + |ErasedFor(w, uid)|
  {
    assert HistoryOk(w, uid) by { ReachableInv(w); }
    NatsCovered(w, uid);
    HeldOk(w, uid);
    ThreeParts(HeldFor(w, uid), NeverStored(w, uid), ErasedFor(w, uid));
  }

  ghost function FreeIps(w: World): set<string> {
    set ip | ip in w.ips && IpFree(w, ip)
  }

  ghost function NattedIps(w: World): set<string> {
    set n | n in w.nats :: w.nats[n].ipId
  }

  lemma {:induction false} ImageSize(w: World, ns: set<string>)
    requires CloudOk(w) && ns <= w.nats.Keys
    ensures |set n | n in ns :: w.nats[n].ipId| == |ns|
  {
    if ns == {} {
      assert (set n | n in ns :: w.nats[n].ipId) == {};
    } else {
      var x :| x in ns;
      ImageSize(w, ns - {x});
      assert (set n | n in ns :: w.nats[n].ipId) ==
             (set n | n in ns - {x} :: w.nats[n].ipId) + {w.nats[x].ipId};
    }
  }

  /** A public IP is free or carries exactly one NAT. */
  lemma PublicIpsConserved(w: World)
    requires Reachable(w)
    ensures FreeIps(w) !! NattedIps(w) && FreeIps(w) + NattedIps(w) == w.ips.Keys
    ensures |FreeIps(w)| + |w.nats| == |w.ips|
  {
    ReachableInv(w);
    ImageSize(w, w.nats.Keys);
    assert NattedIps(w) == set n | n in w.nats.Keys :: w.nats[n].ipId;
    assert |w.nats| == |w.nats.Keys| && |w.ips| == |w.ips.Keys|;
  }

  /** Every IP any machine ever stored is the account's, under the address the account gives it:
      the probe and the kubeconfig fetch go where the NAT is. */
  lemma RecordedIpIsReal(w: World, uid: nat, i: nat, a: AssignedIp)
    requires Reachable(w) && uid in w.machines && i < |w.machines[uid].versions|
    requires a in w.machines[uid].versions[i].ips
    ensures a.id in w.ips && w.ips[a.id] == a.ip && a.natId in w.nats && w.nats[a.natId] == NatRecord(uid, a.id)
  {
    ReachableInv(w);
    assert HistoryOk(w, uid);
    assert VersionOk(w, uid, w.machines[uid].versions[i]);
    assert NatOf(w, uid, a);
  }

  /** No public IP is recorded on two machines at once. */
  lemma PublicIpRecordedOnce(w: World, u: nat, v: nat, a: AssignedIp, b: AssignedIp)
    requires Reachable(w) && u in w.machines && v in w.machines
    requires |w.machines[u].versions| > 0 && |w.machines[v].versions| > 0
    requires a in Stored(w, u).ips && b in Stored(w, v).ips && a.id == b.id
    ensures u == v && a == b
  {
    ReachableInv(w);
    assert HistoryOk(w, u) && HistoryOk(w, v);
    assert VersionOk(w, u, Stored(w, u)) && VersionOk(w, v, Stored(w, v));
    assert NatOf(w, u, a) && NatOf(w, v, b);
  }
}

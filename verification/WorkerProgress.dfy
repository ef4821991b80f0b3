/** How far a worker gets when every call goes as well as it can. */
module WorkerProgress {
  import opened KTObjects
  import opened Pass
  import opened World
  import opened Invariant
  import opened Preservation
  import opened Reach

  /** The call goes as well as it can: POSTs are accepted, the cloud answers, some candidate is
      listed and one of them answers, and every write lands that is not stale. */
  predicate GoesWell(w: World, l: Local, r: Reply) {
    && CanReply(w, l, r)
    && if IsPost(l.pc) || IsGet(l.pc) then r.Vm?
       else if IsWrite(l.pc) then (if Current(w, l) then r.Written? else r.Failed?)
       else if l.pc.ListMachines? then r.Machines? && Candidates(l.name, r.machines) != []
       else if l.pc.ProbeCandidate? then r.Ok? || (r.Failed? && l.pc.next + 1 < |l.pc.cands|)
       else r.Ok?
  }

  predicate AllWell(w: World, pid: nat, rs: seq<Reply>)
    decreases |rs|
  {
    rs == [] ||
    (pid in w.passes && GoesWell(w, w.passes[pid], rs[0]) && AllWell(Apply(w, Deliver(pid, rs[0])), pid, rs[1..]))
  }

  function Outcome(w: World, pid: nat, rs: seq<Reply>): World
    requires AllWell(w, pid, rs)
    decreases |rs|
  {
    if rs == [] then w else Outcome(Apply(w, Deliver(pid, rs[0])), pid, rs[1..])
  }

  ghost predicate IsWorkerPass(w: World, pid: nat, l: Local) {
    PassOk(w, pid, l) && !IsControlPlane(l.name) && w.machines[l.uid].live
  }

  predicate IsNewest(w: World, l: Local)
    requires l.uid in w.machines
  {
    l.rv == |w.machines[l.uid].versions| - 1
  }

  ghost predicate HasServer(w: World, uid: nat) {
    uid in w.machines && |w.machines[uid].versions| > 0 && Stored(w, uid).id != ""
  }

  // ---------- the first pass ----------

  /** On its way to a server: until the server is recorded the pass holds the newest version;
      from then on it does not, and all it can do is fail. */
  ghost predicate Joining(w: World, pid: nat, l: Local) {
    && IsWorkerPass(w, pid, l)
    && if l.pc.MarkJoined? then HasServer(w, l.uid) && !IsNewest(w, l)
       else if l.pc.Done? then l.pc.verdict == Error && HasServer(w, l.uid)
       else (l.pc.ListMachines? || l.pc.ProbeCandidate? || l.pc.PostWorker? || l.pc.RecordWorker?) && IsNewest(w, l)
  }

  lemma JoiningShape(l: Local, base: Status, r: Reply)
    requires LocalOk(l, base) && !IsControlPlane(l.name)
    requires l.pc.ListMachines? || l.pc.ProbeCandidate? || l.pc.PostWorker?
    requires l.pc.PostWorker? ==> r.Vm?
    requires l.pc.ListMachines? ==>
              r.Machines? && Candidates(l.name, r.machines) != [] && OneIpEach(Candidates(l.name, r.machines))
    requires l.pc.ProbeCandidate? ==> OneIpEach(l.pc.cands) && (r.Ok? || l.pc.next + 1 < |l.pc.cands|)
    ensures var pc := After(l, r).pc; pc.ProbeCandidate? || pc.PostWorker? || pc.RecordWorker?
    ensures After(l, r).rv == l.rv && SamePass(l, After(l, r))
  {
  }

  lemma CandidatesKnown(w: World, pid: nat, l: Local, r: Reply)
    requires MachinesOk(w) && PassOk(w, pid, l) && CanReply(w, l, r)
    ensures l.pc.ListMachines? && r.Machines? ==> OneIpEach(Candidates(l.name, r.machines))
    ensures l.pc.ProbeCandidate? ==> OneIpEach(l.pc.cands)
  {
    if l.pc.ListMachines? && r.Machines? {
      CandidatesJoin(w, l, r.machines);
    } else if l.pc.ProbeCandidate? {
      CandsOneIp(w, l.ns, l.pc.cands);
    }
  }

  lemma RecordLands(w: World, pid: nat, l: Local)
    requires PassOk(w, pid, l) && l.pc.RecordWorker? && Current(w, l) && !IsControlPlane(l.name)
    ensures var w1 := Effect(w, pid, l, Written);
            && l.uid in w1.machines && w1.machines[l.uid].live && HasServer(w1, l.uid)
            && Stored(w1, l.uid).id == l.pc.vm.id
            && After(l, Written) == Joined(l) && l.rv + 1 < |w1.machines[l.uid].versions|
  {
  }

  lemma JoiningStep(w: World, pid: nat, l: Local, r: Reply)
    requires MachinesOk(w) && Joining(w, pid, l) && !l.pc.Done? && GoesWell(w, l, r)
    ensures Joining(Effect(w, pid, l, r), pid, After(l, r)) && After(l, r).uid == l.uid
  {
    PassAfter(w, pid, l, r);
    CandidatesKnown(w, pid, l, r);
    SameIdentity(l, r);
    if l.pc.RecordWorker? {
      RecordLands(w, pid, l);
    } else if l.pc.MarkJoined? {
      assert !Current(w, l);
    } else {
      BaseOk(w, pid, l);
      JoiningShape(l, w.machines[l.uid].versions[l.rv], r);
      OnlyWritesTouch(w, pid, l, r);
    }
  }

  lemma JoiningStays(w: World, pid: nat, l: Local)
    requires Joining(w, pid, l) && (pid in w.passes && w.passes[pid].pc.Done? ==> l.pc.Done?)
    ensures Joining(SetPass(w, pid, l), pid, l)
  {
    SetPassGrows(w, pid, l);
    PassStays(w, SetPass(w, pid, l), pid, l);
  }

  lemma JoiningNext(w: World, pid: nat, r: Reply)
    requires Inv(w) && pid in w.passes && Joining(w, pid, w.passes[pid]) && !w.passes[pid].pc.Done?
    requires GoesWell(w, w.passes[pid], r)
    ensures var w' := Apply(w, Deliver(pid, r));
            && Inv(w') && pid in w'.passes && w'.passes[pid] == After(w.passes[pid], r)
            && Joining(w', pid, w'.passes[pid]) && w'.passes[pid].uid == w.passes[pid].uid
  {
    var l := w.passes[pid];
    JoiningStep(w, pid, l, r);
    JoiningStays(Effect(w, pid, l, r), pid, After(l, r));
    StepKeeps(w, Deliver(pid, r));
  }

  lemma {:induction false} JoiningRun(w: World, pid: nat, rs: seq<Reply>)
    requires Inv(w) && pid in w.passes && Joining(w, pid, w.passes[pid]) && AllWell(w, pid, rs)
    ensures var w' := Outcome(w, pid, rs);
            pid in w'.passes && w'.passes[pid].uid == w.passes[pid].uid && Joining(w', pid, w'.passes[pid])
    decreases |rs|
  {
    if rs != [] {
      var l := w.passes[pid];
      if !l.pc.Done? {
        JoiningNext(w, pid, rs[0]);
        JoiningRun(Apply(w, Deliver(pid, rs[0])), pid, rs[1..]);
      }
    }
  }

  /** A worker's first pass, when everything goes as well as it can, records a server and still
      ends in an error: its own flag write must conflict. */
  lemma FirstPassErrs(w: World, pid: nat, uid: nat, rv: nat, cluster: KTCluster, rs: seq<Reply>)
    requires Inv(w) && Enabled(w, Begin(pid, uid, rv, cluster)) && w.machines[uid].live
    requires !IsControlPlane(w.machines[uid].name) && rv == |w.machines[uid].versions| - 1
    requires Stored(w, uid).id == "" && !Stored(w, uid).joined
    requires AllWell(Apply(w, Begin(pid, uid, rv, cluster)), pid, rs)
    ensures var w' := Outcome(Apply(w, Begin(pid, uid, rv, cluster)), pid, rs);
            pid in w'.passes && (w'.passes[pid].pc.Done? ==> w'.passes[pid].pc == Done(Error) && HasServer(w', uid))
  {
    var w1 := Apply(w, Begin(pid, uid, rv, cluster));
    StepKeeps(w, Begin(pid, uid, rv, cluster));
    assert PassOk(w1, pid, w1.passes[pid]);
    JoiningRun(w1, pid, rs);
  }

  // ---------- such a pass exists ----------

  function Stage(pc: Pc): nat {
    if pc.ListMachines? then 5
    else if pc.ProbeCandidate? then 4
    else if pc.PostWorker? then 3
    else if pc.RecordWorker? then 2
    else if pc.MarkJoined? then 1
    else 0
  }

  ghost predicate CanList(w: World, l: Local, ms: seq<Listed>) {
    (forall m :: m in ms ==> Listable(w, l.ns, m)) && Candidates(l.name, ms) != []
  }

  /** The reply that goes well where the pass stands, and that it brings the pass further. */
  lemma GoodReply(w: World, pid: nat, l: Local, ms: seq<Listed>) returns (r: Reply)
    requires MachinesOk(w) && Joining(w, pid, l) && !l.pc.Done? && (l.pc.ListMachines? ==> CanList(w, l, ms))
    ensures GoesWell(w, l, r) && Stage(After(l, r).pc) < Stage(l.pc) && !After(l, r).pc.ListMachines?
  {
    if l.pc.ListMachines? {
      r := Machines(ms);
      CandidatesKnown(w, pid, l, r);
    } else if l.pc.ProbeCandidate? {
      r := Ok;
    } else if l.pc.PostWorker? {
      var id := FreshName(w.vms.Keys);
      r := Vm(CloudVm(id, "", map[]));
    } else if l.pc.RecordWorker? {
      r := Written;
    } else {
      r := Failed;
    }
  }

  lemma OutcomeCons(w: World, pid: nat, r: Reply, rest: seq<Reply>)
    requires pid in w.passes && GoesWell(w, w.passes[pid], r) && AllWell(Apply(w, Deliver(pid, r)), pid, rest)
    ensures AllWell(w, pid, [r] + rest)
    ensures Outcome(w, pid, [r] + rest) == Outcome(Apply(w, Deliver(pid, r)), pid, rest)
  {
    assert ([r] + rest)[1..] == rest;
  }

  /** With a listed candidate, a pass that goes as well as it can exists, and ends. */
  lemma {:induction false} FirstPassExists(w: World, pid: nat, ms: seq<Listed>) returns (rs: seq<Reply>)
    requires Inv(w) && pid in w.passes && Joining(w, pid, w.passes[pid])
    requires w.passes[pid].pc.ListMachines? ==> CanList(w, w.passes[pid], ms)
    ensures AllWell(w, pid, rs)
    ensures pid in Outcome(w, pid, rs).passes && Outcome(w, pid, rs).passes[pid].pc.Done?
    decreases Stage(w.passes[pid].pc)
  {
    var l := w.passes[pid];
    if l.pc.Done? {
      rs := [];
    } else {
      var r := GoodReply(w, pid, l, ms);
      JoiningNext(w, pid, r);
      var rest := FirstPassExists(Apply(w, Deliver(pid, r)), pid, ms);
      OutcomeCons(w, pid, r, rest);
      rs := [r] + rest;
    }
  }

  // ---------- the next pass ----------

  /** A pass over a worker with a server: it holds the newest version, or has ended well. */
  ghost predicate Following(w: World, pid: nat, l: Local, id: string) {
    && IsWorkerPass(w, pid, l) && HasServer(w, l.uid) && Stored(w, l.uid).id == id
    && if l.pc.Done? then l.pc.verdict == Nil else (l.pc.GetWorkerVm? || l.pc.OverwriteWorker?) && IsNewest(w, l)
  }

  lemma OverwriteLands(w: World, pid: nat, l: Local)
    requires PassOk(w, pid, l) && l.pc.OverwriteWorker? && Current(w, l)
    ensures var w1 := Effect(w, pid, l, Written);
            && l.uid in w1.machines && w1.machines[l.uid].live && HasServer(w1, l.uid)
            && Stored(w1, l.uid).id == w.machines[l.uid].versions[l.rv].id
            && After(l, Written).pc == Done(Nil)
  {
  }

  lemma FollowingStep(w: World, pid: nat, l: Local, r: Reply, id: string)
    requires MachinesOk(w) && Following(w, pid, l, id) && !l.pc.Done? && GoesWell(w, l, r)
    ensures Following(Effect(w, pid, l, r), pid, After(l, r), id) && After(l, r).uid == l.uid
  {
    PassAfter(w, pid, l, r);
    SameIdentity(l, r);
    if l.pc.OverwriteWorker? {
      OverwriteLands(w, pid, l);
    } else {
      OnlyWritesTouch(w, pid, l, r);
    }
  }

  lemma FollowingStays(w: World, pid: nat, l: Local, id: string)
    requires Following(w, pid, l, id) && (pid in w.passes && w.passes[pid].pc.Done? ==> l.pc.Done?)
    ensures Following(SetPass(w, pid, l), pid, l, id)
  {
    SetPassGrows(w, pid, l);
    PassStays(w, SetPass(w, pid, l), pid, l);
  }

  lemma {:induction false} FollowingRun(w: World, pid: nat, rs: seq<Reply>, id: string)
    requires Inv(w) && pid in w.passes && Following(w, pid, w.passes[pid], id) && AllWell(w, pid, rs)
    ensures var w' := Outcome(w, pid, rs);
            pid in w'.passes && w'.passes[pid].uid == w.passes[pid].uid && Following(w', pid, w'.passes[pid], id)
    decreases |rs|
  {
    if rs != [] {
      var l := w.passes[pid];
      if !l.pc.Done? {
        FollowingStep(w, pid, l, rs[0], id);
        FollowingStays(Effect(w, pid, l, rs[0]), pid, After(l, rs[0]), id);
        StepKeeps(w, Deliver(pid, rs[0]));
        FollowingRun(Apply(w, Deliver(pid, rs[0])), pid, rs[1..], id);
      }
    }
  }

  lemma FollowingFrom(w: World, w1: World, pid: nat, l: Local)
    requires PassOk(w1, pid, l) && l.pc.GetWorkerVm? && w1.machines == w.machines && HasServer(w, l.uid)
    requires !IsControlPlane(w.machines[l.uid].name) && w.machines[l.uid].live && IsNewest(w, l)
    ensures Following(w1, pid, l, Stored(w, l.uid).id)
  {
  }

  /** Every pass after that, when everything goes well, ends with nil and keeps the server. */
  lemma NextPassIsNil(w: World, pid: nat, uid: nat, rv: nat, cluster: KTCluster, rs: seq<Reply>)
    requires Inv(w) && Enabled(w, Begin(pid, uid, rv, cluster)) && w.machines[uid].live
    requires !IsControlPlane(w.machines[uid].name) && rv == |w.machines[uid].versions| - 1
    requires HasServer(w, uid)
    requires AllWell(Apply(w, Begin(pid, uid, rv, cluster)), pid, rs)
    ensures var w' := Outcome(Apply(w, Begin(pid, uid, rv, cluster)), pid, rs);
            && pid in w'.passes && HasServer(w', uid) && Stored(w', uid).id == Stored(w, uid).id
            && (w'.passes[pid].pc.Done? ==> w'.passes[pid].pc == Done(Nil))
  {
    var w1 := Apply(w, Begin(pid, uid, rv, cluster));
    StepKeeps(w, Begin(pid, uid, rv, cluster));
    assert PassOk(w1, pid, w1.passes[pid]);
    FollowingFrom(w, w1, pid, w1.passes[pid]);
    FollowingRun(w1, pid, rs, Stored(w, uid).id);
  }
}

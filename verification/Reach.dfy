/** A control plane that can become ready does, given a free public IP: the passes that
    ReadyExactly speaks of exist. */
module Reach {
  import opened KTObjects
  import opened Pass
  import opened World
  import opened Invariant
  import opened Preservation
  import opened Progress

  lemma {:induction false} LengthBound(keys: set<string>) returns (n: nat)
    ensures forall k :: k in keys ==> |k| < n
  {
    if keys == {} {
      n := 0;
    } else {
      var k :| k in keys;
      var m := LengthBound(keys - {k});
      n := if m > |k| then m else |k| + 1;
    }
  }

  lemma FreshName(keys: set<string>) returns (s: string)
    ensures s !in keys && s != ""
  {
    var n := LengthBound(keys);
    s := seq(n + 1, _ => 'x');
  }

  lemma {:induction false} FreshNumber(keys: set<nat>) returns (n: nat)
    ensures n !in keys && forall k :: k in keys ==> k < n
  {
    if keys == {} {
      n := 0;
    } else {
      var k :| k in keys;
      var m := FreshNumber(keys - {k});
      n := if m > k then m else k + 1;
      assert forall j :: j in keys ==> j == k || j in keys - {k};
    }
  }

  predicate HasAddress(st: Status) {
    exists n :: n in st.addresses && st.addresses[n] != []
  }

  predicate SomeIpFree(w: World) {
    exists ip :: ip in w.ips && IpFree(w, ip)
  }

  /** What a pass from this status will ask for is there: nothing, when it has its IP. */
  predicate WillDo(w: World, st: Status) {
    (st.state == STATUS_ACTIVE && st.ips != []) ||
    (SomeIpFree(w) && (st.state == STATUS_ACTIVE ==> HasAddress(st)))
  }

  /** The account and the cloud still hold what the rest of the pass will ask for. */
  predicate Supplied(w: World, l: Local) {
    match l.pc
    case GetVm => WillDo(w, l.st)
    case Overwrite => SomeIpFree(w) && HasAddress(l.st)
    case PickAddress => SomeIpFree(w) && HasAddress(l.st)
    case ListIps(_, _) => SomeIpFree(w)
    case PostNat(pub, _, _) => IpFree(w, pub.id)
    case _ => true
  }

  function Left(pc: Pc): nat {
    match pc
    case PostVm => 14
    case RecordVm => 13
    case GetVm => 12
    case Overwrite => 11
    case PickAddress => 10
    case ListIps(_, _) => 9
    case PostNat(_, _, _) => 8
    case RecordIp => 7
    case AddFirewall => 6
    case MarkPending => 5
    case Probe => 4
    case Fetch(_, _, _) => 3
    case CreateSecret(_) => 2
    case MarkReady => 1
    case _ => 0
  }

  lemma VmReply(w: World, l: Local) returns (r: Reply)
    requires (l.pc.PostVm? || l.pc.GetVm?) && (l.pc.GetVm? ==> l.st.id != "")
    ensures Succeeds(w, l, r)
    ensures Supplied(w, l) ==> Supplied(w, After(l, r))
    ensures Left(After(l, r).pc) < Left(l.pc)
  {
    if l.pc.PostVm? {
      var id := FreshName(w.vms.Keys);
      r := Vm(CloudVm(id, "", map[]));
    } else {
      r := Vm(CloudVm(l.st.id, STATUS_ACTIVE, map["net" := ["10.0.0.1"]]));
      assert FromCloud(r.vm).addresses["net"] == ["10.0.0.1"];
    }
  }

  lemma IpReply(w: World, l: Local) returns (r: Reply)
    requires l.pc.PickAddress? || l.pc.ListIps? || l.pc.PostNat?
    requires Supplied(w, l)
    ensures Succeeds(w, l, r)
    ensures l.pc.PickAddress? || l.pc.ListIps? ==> Supplied(w, After(l, r))
    ensures Left(After(l, r).pc) < Left(l.pc)
  {
    if l.pc.PickAddress? {
      var n :| n in l.st.addresses && l.st.addresses[n] != [];
      r := Picked(n, l.st.addresses[n][0]);
    } else if l.pc.ListIps? {
      var ip :| ip in w.ips && IpFree(w, ip);
      r := Ips([PublicIp(ip, w.ips[ip], ASSOCIATE)]);
    } else {
      var n := FreshName(w.nats.Keys);
      r := Nat(n);
    }
  }

  lemma OtherReply(w: World, l: Local) returns (r: Reply)
    requires IsWrite(l.pc) || l.pc.AddFirewall? || l.pc.Probe? || l.pc.Fetch? || l.pc.CreateSecret?
    requires IsControlPlane(l.name) &&
              (IsWrite(l.pc) ==> !l.pc.RecordWorker? && !l.pc.MarkJoined? && !l.pc.OverwriteWorker?)
    requires Current(w, l)
    ensures Succeeds(w, l, r)
    ensures Left(After(l, r).pc) < Left(l.pc)
  {
    if IsWrite(l.pc) {
      r := Written;
    } else if l.pc.Fetch? {
      r := Body("");
    } else if l.pc.CreateSecret? && !NameFree(w, l) {
      r := Failed;
    } else {
      r := Ok;
    }
  }

  lemma SuppliedStays(w: World, pid: nat, l: Local, r: Reply)
    requires CanReply(w, l, r) && Supplied(w, After(l, r)) && !l.pc.PostNat?
    ensures Supplied(Effect(w, pid, l, r), After(l, r))
  {
    if IsPost(l.pc) && r.Vm? {
      PostDoes(w, pid, l, r);
    } else {
      SameCloud(w, pid, l, r);
    }
  }

  lemma OtherSupplied(w: World, pid: nat, l: Local, base: Status)
    requires IsControlPlane(l.name) && LocalOk(l, base) && Supplied(w, l) && l.pc.Overwrite?
    ensures Supplied(w, After(l, Written))
  {
  }

  lemma NeedsNothing(w: World, l: Local, r: Reply)
    requires l.pc.RecordVm? || l.pc.RecordIp? || l.pc.MarkPending? || l.pc.MarkReady? || l.pc.PostNat? ||
             l.pc.AddFirewall? || l.pc.Probe? || l.pc.Fetch? || l.pc.CreateSecret?
    ensures Supplied(w, After(l, r))
  {
  }

  /** Wherever a pass on course stands, some reply lets it succeed and go on. */
  lemma NextReply(w: World, pid: nat, l: Local) returns (r: Reply)
    requires MachinesOk(w) && OnCourse(w, pid, l) && !l.pc.Done? && Supplied(w, l)
    ensures Succeeds(w, l, r) && Left(After(l, r).pc) < Left(l.pc)
    ensures Supplied(Effect(w, pid, l, r), After(l, r))
  {
    var base := w.machines[l.uid].versions[l.rv];
    if l.pc.PostVm? || l.pc.GetVm? {
      r := VmReply(w, l);
      SuppliedStays(w, pid, l, r);
    } else if l.pc.PickAddress? || l.pc.ListIps? || l.pc.PostNat? {
      r := IpReply(w, l);
      if l.pc.PostNat? {
        NeedsNothing(Effect(w, pid, l, r), l, r);
      } else {
        SuppliedStays(w, pid, l, r);
      }
    } else {
      r := OtherReply(w, l);
      if l.pc.Overwrite? {
        OtherSupplied(w, pid, l, base);
      } else {
        NeedsNothing(w, l, r);
      }
      SuppliedStays(w, pid, l, r);
    }
  }

  predicate Completes(w: World, pid: nat, rs: seq<Reply>) {
    && AllSucceed(w, pid, rs)
    && pid in Solo(w, pid, rs).passes
    && Solo(w, pid, rs).passes[pid].pc.Done?
  }

  lemma CompletesCons(w: World, pid: nat, r: Reply, rest: seq<Reply>)
    requires pid in w.passes && Succeeds(w, w.passes[pid], r)
    requires Completes(Apply(w, Deliver(pid, r)), pid, rest)
    ensures Completes(w, pid, [r] + rest)
    ensures Solo(w, pid, [r] + rest) == Solo(Apply(w, Deliver(pid, r)), pid, rest)
  {
    assert ([r] + rest)[1..] == rest;
  }

  lemma {:induction false} PassExists(w: World, pid: nat, l: Local) returns (rs: seq<Reply>)
    requires Inv(w) && pid in w.passes && w.passes[pid] == l && OnCourse(w, pid, l) && Supplied(w, l)
    ensures Completes(w, pid, rs)
    decreases Left(l.pc)
  {
    if l.pc.Done? {
      rs := [];
    } else {
      var r := NextReply(w, pid, l);
      GoodStep(w, pid, l, r);
      StepKeeps(w, Deliver(pid, r));
      var rest := PassExists(Apply(w, Deliver(pid, r)), pid, After(l, r));
      CompletesCons(w, pid, r, rest);
      rs := [r] + rest;
    }
  }

  /** The machine has its public IP; or the account has a free one, and the stored status, if
      it is to be used as it is, an address to pair it with. */
  predicate Supply(w: World, uid: nat)
    requires uid in w.machines && |w.machines[uid].versions| > 0
  {
    var st := Stored(w, uid);
    st.ips != [] || (SomeIpFree(w) && (st.state == STATUS_ACTIVE ==> HasAddress(st)))
  }

  predicate CanBegin(w: World, uid: nat, cluster: KTCluster) {
    && IsCp(w, uid) && |w.machines[uid].versions| > 0 && w.machines[uid].live
    && cluster.external && cluster.name == w.machines[uid].cluster
    && (w.machines[uid].ns, cluster) in w.clusters
  }

  lemma GoodPassExists(w: World, uid: nat, cluster: KTCluster) returns (p: GoodPass)
    requires Inv(w) && CanBegin(w, uid, cluster) && Supply(w, uid)
    ensures IsGoodPass(w, uid, cluster, p)
  {
    var pid := FreshNumber(w.passes.Keys);
    FreshCourse(w, uid, cluster, pid);
    var w1 := Apply(w, Fresh(w, uid, cluster, pid));
    var rs := PassExists(w1, pid, w1.passes[pid]);
    p := GoodPass(pid, rs);
  }

  /** Posting a VM and recording it. */
  lemma PostAndRecord(w: World, pid: nat, l: Local, id: string)
    requires pid in w.passes && w.passes[pid] == l && l.pc.PostVm? && id != "" && id !in w.vms
    requires Current(w, l)
    ensures var r := Vm(CloudVm(id, "", map[]));
            && Completes(w, pid, [r] + [Written])
            && var w' := Solo(w, pid, [r] + [Written]);
               && w'.nats == w.nats && w'.ips == w.ips && w'.clusters == w.clusters
               && w'.machines == w.machines[l.uid := w.machines[l.uid].(versions := w.machines[l.uid].versions +
                                               [FromCloud(r.vm).(state := CREATING)])]
  {
    var r := Vm(CloudVm(id, "", map[]));
    assert Succeeds(w, l, r);
    var w1 := Apply(w, Deliver(pid, r));
    assert Succeeds(w1, w1.passes[pid], Written);
    var w2 := Apply(w1, Deliver(pid, Written));
    assert Completes(w2, pid, []);
    CompletesCons(w1, pid, Written, []);
    CompletesCons(w, pid, r, [Written]);
  }

  /** The first pass over a new machine posts its VM and uses nothing else up. */
  lemma FirstPass(w: World, uid: nat, cluster: KTCluster) returns (p: GoodPass)
    requires Inv(w) && CanBegin(w, uid, cluster) && RankOf(w, uid) == 0 && SomeIpFree(w)
    ensures IsGoodPass(w, uid, cluster, p)
    ensures var w' := PassEnd(w, uid, cluster, p); CanBegin(w', uid, cluster) && Supply(w', uid)
  {
    var pid := FreshNumber(w.passes.Keys);
    var id := FreshName(w.vms.Keys);
    var w1 := Apply(w, Fresh(w, uid, cluster, pid));
    PostAndRecord(w1, pid, w1.passes[pid], id);
    p := GoodPass(pid, [Vm(CloudVm(id, "", map[]))] + [Written]);
  }

  lemma OnePass(w: World, uid: nat, cluster: KTCluster) returns (ps: seq<GoodPass>)
    requires Inv(w) && CanBegin(w, uid, cluster) && Supply(w, uid) && RankOf(w, uid) > 0
    requires CanBeReady(RankOf(w, uid), SecretFree(w, cluster))
    ensures GoodPasses(w, uid, cluster, ps) && RankOf(PassesEnd(w, uid, cluster, ps), uid) == 4
  {
    var p := GoodPassExists(w, uid, cluster);
    ps := [p];
    assert ps[1..] == [];
    ReadyExactly(w, uid, cluster, ps);
  }

  /** From every state ReadyExactly allows, some passes in which every call goes well do
      reach ready, as long as a machine without its public IP can still get one. */
  lemma ReachesReady(w: World, uid: nat, cluster: KTCluster) returns (ps: seq<GoodPass>)
    requires Inv(w) && CanBegin(w, uid, cluster) && Supply(w, uid)
    requires CanBeReady(RankOf(w, uid), SecretFree(w, cluster))
    ensures GoodPasses(w, uid, cluster, ps) && RankOf(PassesEnd(w, uid, cluster, ps), uid) == 4
  {
    if RankOf(w, uid) == 0 {
      assert HistoryOk(w, uid);
      assert VersionOk(w, uid, Stored(w, uid));
      var p := FirstPass(w, uid, cluster);
      GoodPassOutcome(w, uid, cluster, p);
      var rest := OnePass(PassEnd(w, uid, cluster, p), uid, cluster);
      ps := [p] + rest;
    } else {
      ps := OnePass(w, uid, cluster);
    }
  }

  // ---------- and without supply there is none ----------

  /** A pass that will ask for a public IP it cannot get, or an address that is not there. */
  predicate Starved(w: World, l: Local) {
    && IsControlPlane(l.name) && l.cluster.external && l.st.ips == []
    && match l.pc
       case GetVm => l.st.id != "" && (!SomeIpFree(w) || (l.st.state == STATUS_ACTIVE && !HasAddress(l.st)))
       case Overwrite => !SomeIpFree(w) && l.st.state == STATUS_ACTIVE
       case PickAddress => !SomeIpFree(w) || !HasAddress(l.st)
       case ListIps(_, _) => !SomeIpFree(w)
       case _ => false
  }

  lemma StarvedEffect(w: World, pid: nat, l: Local, r: Reply)
    requires Starved(w, l) && Succeeds(w, l, r)
    ensures var w' := Effect(w, pid, l, r); w'.nats == w.nats && w'.ips == w.ips
  {
  }

  lemma StarvedStays(w: World, w': World, l: Local)
    requires Starved(w, l) && w'.nats == w.nats && w'.ips == w.ips
    ensures Starved(w', l)
  {
    if SomeIpFree(w') {
      var ip :| ip in w'.ips && IpFree(w', ip);
      assert IpFree(w, ip);
    }
  }

  /** Such a pass never ends with every call having gone well. */
  lemma {:induction false} StarvedNeverEnds(w: World, pid: nat, rs: seq<Reply>)
    requires pid in w.passes && Starved(w, w.passes[pid]) && AllSucceed(w, pid, rs)
    ensures var w' := Solo(w, pid, rs); pid in w'.passes && !w'.passes[pid].pc.Done?
    decreases |rs|
  {
    if rs != [] {
      var l := w.passes[pid];
      StarvedEffect(w, pid, l, rs[0]);
      StarvedStays(w, Apply(w, Deliver(pid, rs[0])), After(l, rs[0]));
      StarvedNeverEnds(Apply(w, Deliver(pid, rs[0])), pid, rs[1..]);
    }
  }

  lemma NoGoodPass(w: World, uid: nat, cluster: KTCluster, p: GoodPass)
    requires Inv(w) && CanBegin(w, uid, cluster) && RankOf(w, uid) > 0 && !Supply(w, uid)
    ensures !IsGoodPass(w, uid, cluster, p)
  {
    if IsGoodPass(w, uid, cluster, p) {
      var w1 := Apply(w, Fresh(w, uid, cluster, p.pid));
      StarvedNeverEnds(w1, p.pid, p.replies);
    }
  }

  /** A public IP that is free later was free before: NATs are never taken away. */
  lemma FreeBefore(w: World, w': World)
    requires Grows(w, w') && SomeIpFree(w')
    ensures SomeIpFree(w)
  {
    var ip :| ip in w'.ips && IpFree(w', ip);
    forall n | n in w.nats ensures w.nats[n].ipId != ip {
      assert w'.nats[n] == w.nats[n];
    }
  }

  lemma {:induction false} SoloGrows(w: World, pid: nat, rs: seq<Reply>)
    requires AllSucceed(w, pid, rs)
    ensures Grows(w, Solo(w, pid, rs))
    decreases |rs|
  {
    if rs != [] {
      var w1 := Apply(w, Deliver(pid, rs[0]));
      StepGrows(w, Deliver(pid, rs[0]));
      SoloGrows(w1, pid, rs[1..]);
      GrowsTransitive(w, w1, Solo(w1, pid, rs[1..]));
    }
  }

  lemma PassGrows(w: World, uid: nat, cluster: KTCluster, p: GoodPass)
    requires IsGoodPass(w, uid, cluster, p)
    ensures Grows(w, PassEnd(w, uid, cluster, p))
  {
    var w1 := Apply(w, Fresh(w, uid, cluster, p.pid));
    StepGrows(w, Fresh(w, uid, cluster, p.pid));
    SoloGrows(w1, p.pid, p.replies);
    GrowsTransitive(w, w1, PassEnd(w, uid, cluster, p));
  }

  lemma RankAndSupply(w: World, uid: nat)
    requires MachinesOk(w) && IsCp(w, uid) && |w.machines[uid].versions| > 0
    ensures RankOf(w, uid) >= 2 ==> Supply(w, uid)
    ensures RankOf(w, uid) == 0 ==> (Supply(w, uid) <==> SomeIpFree(w))
    ensures RankOf(w, uid) == 1 && Supply(w, uid) ==> SomeIpFree(w)
  {
    assert HistoryOk(w, uid);
    assert VersionOk(w, uid, Stored(w, uid));
  }

  lemma StillStarved(w: World, w': World, uid: nat)
    requires MachinesOk(w) && MachinesOk(w') && Grows(w, w') && IsCp(w, uid) && |w.machines[uid].versions| > 0
    requires RankOf(w, uid) == 0 && !Supply(w, uid) && RankOf(w', uid) == 1
    ensures IsCp(w', uid) && |w'.machines[uid].versions| > 0 && !Supply(w', uid)
  {
    assert HistoryOk(w', uid);
    RankAndSupply(w, uid);
    RankAndSupply(w', uid);
    if SomeIpFree(w') {
      FreeBefore(w, w');
    }
  }

  lemma FirstStarves(w: World, uid: nat, cluster: KTCluster, p: GoodPass)
    requires Inv(w) && IsGoodPass(w, uid, cluster, p) && RankOf(w, uid) == 0 && !Supply(w, uid)
    ensures var w' := PassEnd(w, uid, cluster, p);
            Inv(w') && RankOf(w', uid) == 1 && IsCp(w', uid) && |w'.machines[uid].versions| > 0 && !Supply(w', uid)
  {
    GoodPassOutcome(w, uid, cluster, p);
    PassGrows(w, uid, cluster, p);
    StillStarved(w, PassEnd(w, uid, cluster, p), uid);
  }

  lemma SupplyNeeded(w: World, uid: nat, cluster: KTCluster, ps: seq<GoodPass>)
    requires Inv(w) && CanBegin(w, uid, cluster) && GoodPasses(w, uid, cluster, ps)
    requires RankOf(PassesEnd(w, uid, cluster, ps), uid) == 4
    ensures Supply(w, uid)
  {
    RankAndSupply(w, uid);
    if !Supply(w, uid) {
      if RankOf(w, uid) > 0 {
        NoGoodPass(w, uid, cluster, ps[0]);
      } else {
        var w1 := PassEnd(w, uid, cluster, ps[0]);
        FirstStarves(w, uid, cluster, ps[0]);
        if |ps| > 1 {
          NoSecondPass(w1, uid, cluster, ps[1]);
        }
      }
    }
  }

  lemma NoSecondPass(w: World, uid: nat, cluster: KTCluster, p: GoodPass)
    requires Inv(w) && RankOf(w, uid) > 0 && IsCp(w, uid) && |w.machines[uid].versions| > 0 && !Supply(w, uid)
    ensures !IsGoodPass(w, uid, cluster, p)
  {
    if IsGoodPass(w, uid, cluster, p) {
      assert CanBegin(w, uid, cluster);
      NoGoodPass(w, uid, cluster, p);
    }
  }

  /** Exact progress, both ways: passes in which every call goes well can end in ready if and
      only if the machine could be ready and has its public IP or can still get one. */
  lemma ReadyReachedExactly(w: World, uid: nat, cluster: KTCluster)
    requires Inv(w) && CanBegin(w, uid, cluster)
    ensures (CanBeReady(RankOf(w, uid), SecretFree(w, cluster)) && Supply(w, uid)) <==>
            exists ps :: GoodPasses(w, uid, cluster, ps) && RankOf(PassesEnd(w, uid, cluster, ps), uid) == 4
  {
    if CanBeReady(RankOf(w, uid), SecretFree(w, cluster)) && Supply(w, uid) {
      var ps := ReachesReady(w, uid, cluster);
    }
    forall ps | GoodPasses(w, uid, cluster, ps) && RankOf(PassesEnd(w, uid, cluster, ps), uid) == 4
      ensures CanBeReady(RankOf(w, uid), SecretFree(w, cluster)) && Supply(w, uid)
    {
      ReadyExactly(w, uid, cluster, ps);
      SupplyNeeded(w, uid, cluster, ps);
    }
  }
}

/** How far a control plane gets, and which machines no later pass touches. */
module Progress {
  import opened KTObjects
  import opened Pass
  import opened World
  import opened Invariant
  import opened Preservation

  /** The phase of a stored control plane: no VM, VM, public IP, bootstrap pending, ready. */
  function Rank(st: Status): nat {
    if st.id == "" then 0
    else if st.ips == [] then 1
    else if st.cpRef.kind != BOOTSTRAP_READY then 2
    else if !st.cpRef.ready then 3
    else 4
  }

  // ---------- the phase never falls while the cloud says ACTIVE ----------

  /** A step in which the cloud does not report this machine as anything but ACTIVE. */
  predicate KeepsActive(w: World, uid: nat, s: Step) {
    s.Deliver? && s.pid in w.passes && w.passes[s.pid].uid == uid && w.passes[s.pid].pc.GetVm? && s.reply.Vm? ==>
      s.reply.vm.state == STATUS_ACTIVE
  }

  predicate RunKeepsActive(w: World, uid: nat, run: seq<Step>)
    requires Legal(w, run)
    decreases |run|
  {
    run == [] || (KeepsActive(w, uid, run[0]) && RunKeepsActive(Apply(w, run[0]), uid, run[1..]))
  }

  /** No pass is about to write a status the cloud reported before. */
  predicate OverwritesActive(w: World, uid: nat) {
    forall p :: p in w.passes && w.passes[p].uid == uid && w.passes[p].pc.Overwrite? ==>
      w.passes[p].st.state == STATUS_ACTIVE
  }

  lemma WriteRank(l: Local, base: Status)
    requires IsWrite(l.pc) && LocalOk(l, base) && IsControlPlane(l.name) && StatusOk(true, base)
    requires l.pc.Overwrite? ==> l.st.state == STATUS_ACTIVE
    ensures Rank(base) <= Rank(WriteOf(l))
  {
  }

  lemma AfterOverwrite(l: Local, r: Reply)
    requires After(l, r).pc.Overwrite? && !l.pc.Overwrite?
    ensures l.pc.GetVm? && r.Vm? && After(l, r).st == FromCloud(r.vm)
  {
  }

  lemma StillOverwrite(l: Local, r: Reply)
    requires l.pc.Overwrite?
    ensures !After(l, r).pc.Overwrite?
  {
  }

  lemma OverwritesStep(w: World, s: Step, uid: nat)
    requires Enabled(w, s) && KeepsActive(w, uid, s) && OverwritesActive(w, uid)
    ensures OverwritesActive(Apply(w, s), uid)
  {
    if s.Deliver? || s.LoseReply? {
      var l := w.passes[s.pid];
      var r := if s.Deliver? then s.reply else Failed;
      SameIdentity(l, r);
      if l.pc.Overwrite? {
        StillOverwrite(l, r);
      } else if After(l, r).pc.Overwrite? {
        AfterOverwrite(l, r);
      }
    }
  }

  function RankOf(w: World, uid: nat): nat {
    if uid in w.machines && |w.machines[uid].versions| > 0 then Rank(Stored(w, uid)) else 0
  }

  predicate IsCp(w: World, uid: nat) {
    uid in w.machines && IsControlPlane(w.machines[uid].name)
  }

  lemma CommitRank(w: World, pid: nat, l: Local, uid: nat)
    requires MachinesOk(w) && PassOk(w, pid, l) && IsCp(w, uid) && IsWrite(l.pc) && Current(w, l)
    requires l.uid == uid && l.pc.Overwrite? ==> l.st.state == STATUS_ACTIVE
    ensures |w.machines[l.uid].versions| > 0
    ensures RankOf(w, uid) <= RankOf(Commit(w, pid, l.uid, WriteOf(l)), uid)
  {
    assert HistoryOk(w, l.uid);
    if l.uid == uid {
      BaseOk(w, pid, l);
      WriteRank(l, Stored(w, uid));
    }
  }

  lemma ReplyRank(w: World, pid: nat, r: Reply, l': Local, uid: nat)
    requires MachinesOk(w) && pid in w.passes && PassOk(w, pid, w.passes[pid]) && IsCp(w, uid)
    requires CanReply(w, w.passes[pid], r) && OverwritesActive(w, uid)
    ensures RankOf(w, uid) <= RankOf(SetPass(Effect(w, pid, w.passes[pid], r), pid, l'), uid)
  {
    var l := w.passes[pid];
    assert HistoryOk(w, l.uid);
    MachinesAfter(w, pid, l, r);
    if IsWrite(l.pc) && r.Written? {
      CommitRank(w, pid, l, uid);
    }
  }

  lemma OutsideRank(w: World, s: Step, uid: nat)
    requires Enabled(w, s) && (IsOutside(s) || s.Begin? || s.Crash?) && uid in w.machines
    ensures RankOf(Apply(w, s), uid) == RankOf(w, uid)
  {
  }

  lemma CpStays(w: World, s: Step, uid: nat)
    requires Enabled(w, s) && IsCp(w, uid)
    ensures IsCp(Apply(w, s), uid)
  {
    StepGrows(w, s);
  }

  lemma RankStep(w: World, s: Step, uid: nat)
    requires MachinesOk(w) && PassesOk(w) && Enabled(w, s) && OverwritesActive(w, uid) && IsCp(w, uid)
    ensures RankOf(w, uid) <= RankOf(Apply(w, s), uid)
  {
    if s.Deliver? {
      ReplyRank(w, s.pid, s.reply, After(w.passes[s.pid], s.reply), uid);
    } else if s.LoseReply? {
      ReplyRank(w, s.pid, s.reply, After(w.passes[s.pid], Failed), uid);
    } else {
      OutsideRank(w, s, uid);
    }
  }

  /** While the cloud keeps saying ACTIVE, a control plane's phase never falls. */
  lemma {:induction false} RankNeverFalls(w: World, run: seq<Step>, uid: nat)
    requires Inv(w) && Legal(w, run) && RunKeepsActive(w, uid, run) && OverwritesActive(w, uid) && IsCp(w, uid)
    ensures RankOf(w, uid) <= RankOf(Exec(w, run), uid)
    decreases |run|
  {
    if run == [] {
    } else {
      RankStep(w, run[0], uid);
      CpStays(w, run[0], uid);
      OverwritesStep(w, run[0], uid);
      StepKeeps(w, run[0]);
      RankNeverFalls(Apply(w, run[0]), run[1..], uid);
    }
  }

  // ---------- passes in which every call succeeds ----------

  /** The call goes well: the cloud says ACTIVE, every write lands, and the Secret is
      created exactly when its name is free. */
  predicate Succeeds(w: World, l: Local, r: Reply) {
    && CanReply(w, l, r)
    && if IsPost(l.pc) then r.Vm?
       else if IsGet(l.pc) then r.Vm? && r.vm.state == STATUS_ACTIVE
       else if IsWrite(l.pc) then r.Written?
       else if l.pc.PickAddress? then r.Picked?
       else if l.pc.ListIps? then r.Ips? && Available(r.ips) != [] && IpFree(w, Available(r.ips)[0].id)
       else if l.pc.PostNat? then r.Nat?
       else if l.pc.Fetch? then r.Body?
       else if l.pc.CreateSecret? then (if NameFree(w, l) then r.Ok? else r.Failed?)
       else if l.pc.ListMachines? then r.Machines?
       else r.Ok?
  }

  predicate NameFree(w: World, l: Local) { l.cluster.name !in w.secrets }

  function ReadyIf(free: bool): nat { if free then 4 else 3 }

  /** The phase after one such pass. A recorded IP without a pending mark stays as it is. */
  function Next(rank: nat, free: bool): nat {
    if rank == 0 then 1
    else if rank == 1 || rank == 3 then ReadyIf(free)
    else rank
  }

  /** The phase a pass under way will leave behind if nothing fails. */
  function Forecast(l: Local, stored: Status, free: bool): nat {
    match l.pc
    case PostVm => 1
    case RecordVm => 1
    case GetVm => Next(Rank(stored), free)
    case MarkReady => 4
    case Done(_) => Rank(stored)
    case _ => ReadyIf(free)
  }

  /** A control-plane pass standing on the newest version, in a cluster with external networking. */
  ghost predicate OnCourse(w: World, pid: nat, l: Local) {
    && PassOk(w, pid, l)
    && IsControlPlane(l.name) && l.cluster.external
    && w.machines[l.uid].live && l.rv == |w.machines[l.uid].versions| - 1
    && (l.pc.Overwrite? ==> l.st.state == STATUS_ACTIVE)
  }

  lemma ForecastHolds(l: Local, base: Status, r: Reply, free: bool)
    requires LocalOk(l, base) && IsControlPlane(l.name) && l.cluster.external && StatusOk(true, base)
    requires l.pc.Overwrite? ==> l.st.state == STATUS_ACTIVE
    requires l.pc.GetVm? ==> r.Vm? && r.vm.state == STATUS_ACTIVE && r.vm.id != ""
    requires IsWrite(l.pc) ==> r.Written?
    requires l.pc.PostVm? ==> r.Vm?
    requires l.pc.PickAddress? ==> r.Picked?
    requires l.pc.ListIps? ==> r.Ips? && Available(r.ips) != []
    requires l.pc.PostNat? ==> r.Nat?
    requires l.pc.AddFirewall? || l.pc.Probe? ==> r.Ok?
    requires l.pc.Fetch? ==> r.Body?
    requires l.pc.CreateSecret? ==> if free then r.Ok? else r.Failed?
    ensures Forecast(After(l, r), BaseAfter(l, r, base), if l.pc.CreateSecret? then false else free) ==
            Forecast(l, base, free)
    ensures After(l, r).pc.Overwrite? ==> After(l, r).st.state == STATUS_ACTIVE
  {
  }

  lemma SucceedsShape(w: World, l: Local, r: Reply)
    requires Succeeds(w, l, r) && IsControlPlane(l.name) && (l.pc.GetVm? ==> l.st.id != "")
    ensures l.pc.GetVm? ==> r.Vm? && r.vm.state == STATUS_ACTIVE && r.vm.id != ""
    ensures IsWrite(l.pc) ==> r.Written?
    ensures l.pc.PostVm? ==> r.Vm?
    ensures l.pc.PickAddress? ==> r.Picked?
    ensures l.pc.ListIps? ==> r.Ips? && Available(r.ips) != []
    ensures l.pc.PostNat? ==> r.Nat?
    ensures l.pc.AddFirewall? || l.pc.Probe? ==> r.Ok?
    ensures l.pc.Fetch? ==> r.Body?
    ensures l.pc.CreateSecret? ==> if NameFree(w, l) then r.Ok? else r.Failed?
  {
  }

  /** What the newest version is after the call. */
  lemma NewestAfter(w: World, pid: nat, l: Local, r: Reply)
    requires l.uid in w.machines && |w.machines[l.uid].versions| > 0
    requires l.rv == |w.machines[l.uid].versions| - 1 && w.machines[l.uid].live
    requires CanReply(w, l, r) && !l.pc.RecordWorker?
    ensures var w' := Effect(w, pid, l, r);
            && l.uid in w'.machines && w'.machines[l.uid].live
            && |w'.machines[l.uid].versions| > 0
            && After(l, r).rv == |w'.machines[l.uid].versions| - 1
            && Stored(w', l.uid) == BaseAfter(l, r, Stored(w, l.uid))
  {
    SameIdentity(l, r);
  }

  lemma FreeAfter(w: World, pid: nat, l: Local, r: Reply)
    requires Succeeds(w, l, r)
    ensures NameFree(Effect(w, pid, l, r), l) == if l.pc.CreateSecret? then false else NameFree(w, l)
  {
  }

  ghost function ForecastOf(w: World, pid: nat, l: Local): nat
    requires OnCourse(w, pid, l)
  {
    Forecast(l, Stored(w, l.uid), NameFree(w, l))
  }

  lemma CourseFrom(w: World, w': World, pid: nat, l: Local, l': Local)
    requires OnCourse(w, pid, l) && PassOk(w', pid, l') && SamePass(l, l')
    requires w'.machines[l.uid].live && l'.rv == |w'.machines[l.uid].versions| - 1
    requires l'.pc.Overwrite? ==> l'.st.state == STATUS_ACTIVE
    ensures OnCourse(w', pid, l')
  {
  }

  lemma GoodCourse(w: World, pid: nat, l: Local, r: Reply)
    requires MachinesOk(w) && OnCourse(w, pid, l) && Succeeds(w, l, r)
    requires After(l, r).pc.Overwrite? ==> After(l, r).st.state == STATUS_ACTIVE
    ensures OnCourse(Effect(w, pid, l, r), pid, After(l, r))
    ensures Stored(Effect(w, pid, l, r), l.uid) == BaseAfter(l, r, Stored(w, l.uid))
  {
    PassAfter(w, pid, l, r);
    NewestAfter(w, pid, l, r);
    SameIdentity(l, r);
    CourseFrom(w, Effect(w, pid, l, r), pid, l, After(l, r));
  }

  lemma GoodForecast(w: World, pid: nat, l: Local, r: Reply)
    requires MachinesOk(w) && OnCourse(w, pid, l) && Succeeds(w, l, r)
    ensures After(l, r).pc.Overwrite? ==> After(l, r).st.state == STATUS_ACTIVE
    ensures var free := if l.pc.CreateSecret? then false else NameFree(w, l);
            Forecast(After(l, r), BaseAfter(l, r, Stored(w, l.uid)), free) ==
            Forecast(l, Stored(w, l.uid), NameFree(w, l))
  {
    BaseOk(w, pid, l);
    SucceedsShape(w, l, r);
    ForecastHolds(l, Stored(w, l.uid), r, NameFree(w, l));
  }

  lemma GoodEffect(w: World, pid: nat, l: Local, r: Reply)
    requires MachinesOk(w) && OnCourse(w, pid, l) && Succeeds(w, l, r)
    ensures var w1, l1 := Effect(w, pid, l, r), After(l, r);
            && SamePass(l, l1) && OnCourse(w1, pid, l1) && ForecastOf(w1, pid, l1) == ForecastOf(w, pid, l)
            && (NameFree(w1, l) == NameFree(w, l) || ForecastOf(w, pid, l) == 4)
  {
    GoodForecast(w, pid, l, r);
    GoodCourse(w, pid, l, r);
    FreeAfter(w, pid, l, r);
    SameIdentity(l, r);
  }

  lemma CourseStays(w: World, pid: nat, l: Local)
    requires OnCourse(w, pid, l) && (pid in w.passes && w.passes[pid].pc.Done? ==> l.pc.Done?)
    ensures OnCourse(SetPass(w, pid, l), pid, l)
    ensures ForecastOf(SetPass(w, pid, l), pid, l) == ForecastOf(w, pid, l)
  {
    SetPassGrows(w, pid, l);
    PassStays(w, SetPass(w, pid, l), pid, l);
  }

  lemma GoodStep(w: World, pid: nat, l: Local, r: Reply)
    requires MachinesOk(w) && pid in w.passes && w.passes[pid] == l && OnCourse(w, pid, l) && Succeeds(w, l, r)
    ensures var w', l' := Apply(w, Deliver(pid, r)), After(l, r);
            && SamePass(l, l') && w'.passes[pid] == l' && OnCourse(w', pid, l')
            && ForecastOf(w', pid, l') == ForecastOf(w, pid, l)
            && (NameFree(w', l) == NameFree(w, l) || ForecastOf(w, pid, l) == 4)
  {
    GoodEffect(w, pid, l, r);
    CourseStays(Effect(w, pid, l, r), pid, After(l, r));
  }

  /** The replies drive one pass, alone, and every call goes well. */
  predicate AllSucceed(w: World, pid: nat, rs: seq<Reply>)
    decreases |rs|
  {
    rs == [] ||
    (pid in w.passes && Succeeds(w, w.passes[pid], rs[0]) &&
        AllSucceed(Apply(w, Deliver(pid, rs[0])), pid, rs[1..]))
  }

  function Solo(w: World, pid: nat, rs: seq<Reply>): World
    requires AllSucceed(w, pid, rs)
    decreases |rs|
  {
    if rs == [] then w else Solo(Apply(w, Deliver(pid, rs[0])), pid, rs[1..])
  }

  lemma {:induction false} SoloKeeps(w: World, pid: nat, rs: seq<Reply>)
    requires Inv(w) && AllSucceed(w, pid, rs)
    ensures Inv(Solo(w, pid, rs))
    decreases |rs|
  {
    if rs == [] {
    } else {
      StepKeeps(w, Deliver(pid, rs[0]));
      SoloKeeps(Apply(w, Deliver(pid, rs[0])), pid, rs[1..]);
    }
  }

  /** What a pass leaves behind is what was forecast when it set out. */
  lemma {:induction false} SoloForecast(w: World, pid: nat, l: Local, rs: seq<Reply>)
    requires Inv(w) && pid in w.passes && w.passes[pid] == l && OnCourse(w, pid, l) && AllSucceed(w, pid, rs)
    ensures var w' := Solo(w, pid, rs);
            && pid in w'.passes && SamePass(l, w'.passes[pid]) && OnCourse(w', pid, w'.passes[pid])
            && ForecastOf(w', pid, w'.passes[pid]) == ForecastOf(w, pid, l)
            && (NameFree(w', l) == NameFree(w, l) || ForecastOf(w, pid, l) == 4)
    decreases |rs|
  {
    if rs == [] {
    } else {
      GoodStep(w, pid, l, rs[0]);
      StepKeeps(w, Deliver(pid, rs[0]));
      SoloForecast(Apply(w, Deliver(pid, rs[0])), pid, After(l, rs[0]), rs[1..]);
    }
  }

  lemma DoneForecast(w: World, pid: nat, l: Local)
    requires OnCourse(w, pid, l) && l.pc.Done?
    ensures ForecastOf(w, pid, l) == RankOf(w, l.uid)
  {
  }

  lemma SoloOutcome(w: World, pid: nat, l: Local, rs: seq<Reply>)
    requires Inv(w) && pid in w.passes && w.passes[pid] == l && OnCourse(w, pid, l) && AllSucceed(w, pid, rs)
    requires var w' := Solo(w, pid, rs); pid in w'.passes && w'.passes[pid].pc.Done?
    ensures var w' := Solo(w, pid, rs);
            && RankOf(w', l.uid) == ForecastOf(w, pid, l)
            && (NameFree(w', l) == NameFree(w, l) || ForecastOf(w, pid, l) == 4)
  {
    SoloForecast(w, pid, l, rs);
    var w' := Solo(w, pid, rs);
    DoneForecast(w', pid, w'.passes[pid]);
  }

  // ---------- repeated passes ----------

  datatype GoodPass = GoodPass(pid: nat, replies: seq<Reply>)

  function Fresh(w: World, uid: nat, cluster: KTCluster, pid: nat): Step
    requires uid in w.machines && |w.machines[uid].versions| > 0
  {
    Begin(pid, uid, |w.machines[uid].versions| - 1, cluster)
  }

  /** A whole pass over an up-to-date copy, in which every call goes well. */
  predicate IsGoodPass(w: World, uid: nat, cluster: KTCluster, p: GoodPass) {
    && IsCp(w, uid) && |w.machines[uid].versions| > 0 && w.machines[uid].live && cluster.external
    && Enabled(w, Fresh(w, uid, cluster, p.pid))
    && var w1 := Apply(w, Fresh(w, uid, cluster, p.pid));
       && AllSucceed(w1, p.pid, p.replies)
       && var w' := Solo(w1, p.pid, p.replies); p.pid in w'.passes && w'.passes[p.pid].pc.Done?
  }

  function PassEnd(w: World, uid: nat, cluster: KTCluster, p: GoodPass): World
    requires IsGoodPass(w, uid, cluster, p)
  {
    Solo(Apply(w, Fresh(w, uid, cluster, p.pid)), p.pid, p.replies)
  }

  predicate SecretFree(w: World, cluster: KTCluster) { cluster.name !in w.secrets }

  lemma StartForecast(uid: nat, ns: string, name: string, cluster: KTCluster, rv: nat, st: Status, free: bool)
    requires IsControlPlane(name)
    ensures var l := Start(uid, ns, name, cluster, rv, st);
            Forecast(l, st, free) == Next(Rank(st), free) && !l.pc.Overwrite?
  {
  }

  lemma FreshCourse(w: World, uid: nat, cluster: KTCluster, pid: nat)
    requires Inv(w) && IsCp(w, uid) && |w.machines[uid].versions| > 0 && w.machines[uid].live && cluster.external
    requires Enabled(w, Fresh(w, uid, cluster, pid))
    ensures var w1 := Apply(w, Fresh(w, uid, cluster, pid));
            var l := w1.passes[pid];
            && Inv(w1) && OnCourse(w1, pid, l) && l.uid == uid && l.cluster == cluster
            && ForecastOf(w1, pid, l) == Next(RankOf(w, uid), SecretFree(w, cluster))
  {
    StepKeeps(w, Fresh(w, uid, cluster, pid));
    var w1 := Apply(w, Fresh(w, uid, cluster, pid));
    assert PassOk(w1, pid, w1.passes[pid]);
    var m := w.machines[uid];
    StartForecast(uid, m.ns, m.name, cluster, |m.versions| - 1, Stored(w, uid), SecretFree(w, cluster));
  }

  /** One such pass moves the phase by Next, and uses up the Secret's name only to get ready. */
  lemma GoodPassOutcome(w: World, uid: nat, cluster: KTCluster, p: GoodPass)
    requires Inv(w) && IsGoodPass(w, uid, cluster, p)
    ensures var w' := PassEnd(w, uid, cluster, p);
            && Inv(w') && RankOf(w', uid) == Next(RankOf(w, uid), SecretFree(w, cluster))
            && (SecretFree(w', cluster) == SecretFree(w, cluster) || RankOf(w', uid) == 4)
  {
    FreshCourse(w, uid, cluster, p.pid);
    var w1 := Apply(w, Fresh(w, uid, cluster, p.pid));
    SoloKeeps(w1, p.pid, p.replies);
    SoloOutcome(w1, p.pid, w1.passes[p.pid], p.replies);
    assert w1.secrets == w.secrets;
  }

  predicate GoodPasses(w: World, uid: nat, cluster: KTCluster, ps: seq<GoodPass>)
    decreases |ps|
  {
    ps == [] || (IsGoodPass(w, uid, cluster, ps[0]) &&
        GoodPasses(PassEnd(w, uid, cluster, ps[0]), uid, cluster, ps[1..]))
  }

  function PassesEnd(w: World, uid: nat, cluster: KTCluster, ps: seq<GoodPass>): World
    requires GoodPasses(w, uid, cluster, ps)
    decreases |ps|
  {
    if ps == [] then w else PassesEnd(PassEnd(w, uid, cluster, ps[0]), uid, cluster, ps[1..])
  }

  /** Ready already, or the Secret's name is free and the machine is not in the state "IP
      recorded but never marked pending". */
  predicate CanBeReady(rank: nat, free: bool) {
    rank == 4 || (free && rank != 2)
  }

  /** Exact progress: two or more passes in which every call goes well end ready if and only
      if the machine could be ready; fewer never end ready otherwise. */
  lemma {:induction false} ReadyExactly(w: World, uid: nat, cluster: KTCluster, ps: seq<GoodPass>)
    requires Inv(w) && GoodPasses(w, uid, cluster, ps)
    ensures var rank, free := RankOf(w, uid), SecretFree(w, cluster);
            var rank' := RankOf(PassesEnd(w, uid, cluster, ps), uid);
            && (rank' == 4 ==> CanBeReady(rank, free))
            && (|ps| >= 2 || (|ps| == 1 && rank > 0) ==> (rank' == 4 <==> CanBeReady(rank, free)))
    decreases |ps|
  {
    if ps == [] {
    } else {
      GoodPassOutcome(w, uid, cluster, ps[0]);
      ReadyExactly(PassEnd(w, uid, cluster, ps[0]), uid, cluster, ps[1..]);
    }
  }

  // ---------- machines no pass touches ----------

  /** A ready control plane, or one with an IP but never marked pending; a worker with a
      server, or one whose flag landed. */
  predicate IsSettled(cp: bool, st: Status) {
    if cp then st.cpRef.ready || (st.ips != [] && st.cpRef.kind != BOOTSTRAP_READY)
    else st.id != "" || st.joined
  }

  predicate Settled(w: World, uid: nat) {
    && uid in w.machines && |w.machines[uid].versions| > 0
    && IsSettled(IsControlPlane(w.machines[uid].name), Stored(w, uid))
  }

  /** A step of a pass over this machine: begun on the newest version, and told by the cloud
      nothing but the state the store already holds. */
  predicate IsQuiet(w: World, uid: nat, s: Step) {
    match s
    case Begin(_, u, rv, _) => u == uid && uid in w.machines && rv == |w.machines[uid].versions| - 1
    case Deliver(pid, r) =>
      pid in w.passes && w.passes[pid].uid == uid && (r.Vm? ==> r.vm.state == w.passes[pid].st.state)
    case LoseReply(pid, _) => pid in w.passes && w.passes[pid].uid == uid
    case Crash(pid) => pid in w.passes && w.passes[pid].uid == uid
    case _ => false
  }

  predicate QuietRun(w: World, uid: nat, run: seq<Step>)
    requires Legal(w, run)
    decreases |run|
  {
    run == [] || (IsQuiet(w, uid, run[0]) && QuietRun(Apply(w, run[0]), uid, run[1..]))
  }

  /** Every pass over the machine has ended or is asking the cloud, holding the newest version. */
  predicate OnlyAsking(w: World, uid: nat) {
    forall p :: p in w.passes && w.passes[p].uid == uid ==>
      w.passes[p].pc.Done? || (IsGet(w.passes[p].pc) && uid in w.machines &&
          w.passes[p].rv == |w.machines[uid].versions| - 1)
  }

  predicate SameOutside(w: World, w': World) {
    w' == w.(passes := w'.passes)
  }

  lemma QuietReply(w: World, uid: nat, pid: nat, l: Local, r: Reply)
    requires MachinesOk(w) && PassOk(w, pid, l) && Settled(w, uid)
    requires l.uid == uid && IsGet(l.pc) && l.rv == |w.machines[uid].versions| - 1
    requires r.Vm? ==> r.vm.state == l.st.state
    ensures After(l, r).pc.Done?
  {
    BaseOk(w, pid, l);
  }

  lemma QuietBegin(w: World, uid: nat, s: Step)
    requires MachinesOk(w) && Settled(w, uid) && s.Begin? && Enabled(w, s) && IsQuiet(w, uid, s)
    ensures var l := Apply(w, s).passes[s.pid]; IsGet(l.pc) && l.rv == |w.machines[uid].versions| - 1
  {
    var m := w.machines[uid];
    assert HistoryOk(w, uid);
    assert VersionOk(w, uid, m.versions[s.rv]);
  }

  lemma AskingStays(w: World, uid: nat, pid: nat, l: Local)
    requires OnlyAsking(w, uid) && uid in w.machines
    requires l.pc.Done? || (IsGet(l.pc) && l.rv == |w.machines[uid].versions| - 1)
    ensures SameOutside(w, SetPass(w, pid, l)) && OnlyAsking(SetPass(w, pid, l), uid)
  {
  }

  lemma QuietStep(w: World, uid: nat, s: Step)
    requires MachinesOk(w) && PassesOk(w) && Settled(w, uid) && OnlyAsking(w, uid)
    requires Enabled(w, s) && IsQuiet(w, uid, s)
    ensures SameOutside(w, Apply(w, s)) && OnlyAsking(Apply(w, s), uid)
  {
    if s.Begin? {
      QuietBegin(w, uid, s);
      AskingStays(w, uid, s.pid, Apply(w, s).passes[s.pid]);
    } else if s.Deliver? {
      var l := w.passes[s.pid];
      AskingHasNoEffect(w, s.pid, l, s.reply);
      QuietReply(w, uid, s.pid, l, s.reply);
      AskingStays(w, uid, s.pid, After(l, s.reply));
    } else if s.LoseReply? {
      var l := w.passes[s.pid];
      AskingHasNoEffect(w, s.pid, l, s.reply);
      QuietReply(w, uid, s.pid, l, Failed);
      AskingStays(w, uid, s.pid, After(l, Failed));
    } else {
      AskingStays(w, uid, s.pid, End(w.passes[s.pid], Error));
    }
  }

  lemma SettledStays(w: World, w': World, uid: nat)
    requires Settled(w, uid) && SameOutside(w, w')
    ensures Settled(w', uid)
  {
  }

  /** Quiescence: over a settled machine whose stored state the cloud keeps confirming, any
      number of later passes, however they interleave, fail or crash, change nothing in the
      store and nothing on the cloud. */
  lemma {:induction false} QuietForever(w: World, uid: nat, run: seq<Step>)
    requires Inv(w) && Settled(w, uid) && OnlyAsking(w, uid) && Legal(w, run) && QuietRun(w, uid, run)
    ensures SameOutside(w, Exec(w, run))
    decreases |run|
  {
    if run == [] {
    } else {
      QuietStep(w, uid, run[0]);
      SettledStays(w, Apply(w, run[0]), uid);
      StepKeeps(w, run[0]);
      QuietForever(Apply(w, run[0]), uid, run[1..]);
    }
  }
}

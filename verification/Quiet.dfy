/** A settled machine among everything else that goes on: other machines' passes, users and
    the cloud act, and what concerns it stays as it is. */
module Quiet {
  import opened KTObjects
  import opened Pass
  import opened World
  import opened Invariant
  import opened Preservation
  import opened Progress

  /** Anything but a user's write to this machine, a pass over it begun on an old version, or
      news of its state from the cloud. */
  predicate LeavesAlone(w: World, uid: nat, s: Step) {
    match s
    case Begin(_, u, rv, _) => u == uid ==> IsQuiet(w, uid, s)
    case Deliver(pid, r) =>
      pid in w.passes && w.passes[pid].uid == uid && r.Vm? ==> r.vm.state == w.passes[pid].st.state
    case TouchMachine(u) => u != uid
    case _ => true
  }

  predicate MixedRun(w: World, uid: nat, run: seq<Step>)
    requires Legal(w, run)
    decreases |run|
  {
    run == [] || (LeavesAlone(w, uid, run[0]) && MixedRun(Apply(w, run[0]), uid, run[1..]))
  }

  /** The event is of this machine: its server, NAT, policy or status, or a Secret one of its
      passes created. */
  predicate Concerns(w: World, e: Event, uid: nat) {
    match e
    case VmAccepted(u, _, _) => u == uid
    case NatAttached(u, _, _) => u == uid
    case FirewallAdded(u, _, _) => u == uid
    case StatusWritten(u, _, _, _) => u == uid
    case SecretCreated(_, pid) => pid in w.passes && w.passes[pid].uid == uid
  }

  /** The machine's versions are the same, and nothing that happened since concerns it. */
  ghost predicate Untouched(w: World, w': World, uid: nat) {
    && uid in w.machines && uid in w'.machines && w'.machines[uid].versions == w.machines[uid].versions
    && w.log <= w'.log
    && forall i :: |w.log| <= i < |w'.log| ==> !Concerns(w', w'.log[i], uid)
  }

  /** What a call of another machine's pass does, seen from this machine. */
  lemma OthersCall(w: World, uid: nat, pid: nat, l: Local, r: Reply)
    requires CanReply(w, l, r) && l.uid != uid && uid in w.machines
    ensures var w' := Effect(w, pid, l, r);
            && uid in w'.machines && w'.machines[uid] == w.machines[uid]
            && (w'.log == w.log || exists e: Event :: w'.log == w.log + [e] && IsOthers(e, uid, pid))
  {
    EffectEvents(w, pid, l, r);
    var es := EventsOf(w, pid, l, r);
    assert es == [] || IsOthers(es[0], uid, pid);
    assert es == [] ==> w.log + es == w.log;
  }

  predicate IsOthers(e: Event, uid: nat, pid: nat) {
    match e
    case VmAccepted(u, _, _) => u != uid
    case NatAttached(u, _, _) => u != uid
    case FirewallAdded(u, _, _) => u != uid
    case StatusWritten(u, _, _, _) => u != uid
    case SecretCreated(_, p) => p == pid
  }

  lemma OthersReply(w: World, uid: nat, pid: nat, r: Reply, l': Local)
    requires pid in w.passes && CanReply(w, w.passes[pid], r) && uid in w.machines
    requires w.passes[pid].uid != uid && l'.uid == w.passes[pid].uid && OnlyAsking(w, uid)
    ensures var w' := SetPass(Effect(w, pid, w.passes[pid], r), pid, l');
            Untouched(w, w', uid) && OnlyAsking(w', uid)
  {
    var l := w.passes[pid];
    OthersCall(w, uid, pid, l, r);
    var w1 := Effect(w, pid, l, r);
    if w1.log != w.log {
      var e: Event :| w1.log == w.log + [e] && IsOthers(e, uid, pid);
    }
  }

  lemma SettledStill(w: World, w': World, uid: nat)
    requires Settled(w, uid) && Grows(w, w') && Untouched(w, w', uid)
    ensures Settled(w', uid)
  {
  }

  lemma OutsideLeaves(w: World, uid: nat, s: Step)
    requires Enabled(w, s) && IsOutside(s) && LeavesAlone(w, uid, s) && uid in w.machines && OnlyAsking(w, uid)
    ensures Untouched(w, Apply(w, s), uid) && OnlyAsking(Apply(w, s), uid)
  {
  }

  /** The pass steps of this machine itself. */
  lemma OwnStep(w: World, uid: nat, s: Step)
    requires MachinesOk(w) && PassesOk(w) && Settled(w, uid) && OnlyAsking(w, uid)
    requires Enabled(w, s) && IsQuiet(w, uid, s)
    ensures Untouched(w, Apply(w, s), uid) && OnlyAsking(Apply(w, s), uid)
  {
    QuietStep(w, uid, s);
  }

  lemma MixedStep(w: World, uid: nat, s: Step)
    requires MachinesOk(w) && PassesOk(w) && Settled(w, uid) && OnlyAsking(w, uid)
    requires Enabled(w, s) && LeavesAlone(w, uid, s)
    ensures Untouched(w, Apply(w, s), uid) && OnlyAsking(Apply(w, s), uid)
  {
    if IsQuiet(w, uid, s) {
      OwnStep(w, uid, s);
    } else if IsOutside(s) {
      OutsideLeaves(w, uid, s);
    } else if s.Deliver? {
      SameIdentity(w.passes[s.pid], s.reply);
      OthersReply(w, uid, s.pid, s.reply, After(w.passes[s.pid], s.reply));
    } else if s.LoseReply? {
      SameIdentity(w.passes[s.pid], Failed);
      OthersReply(w, uid, s.pid, s.reply, After(w.passes[s.pid], Failed));
    } else {
      OthersMove(w, uid, s);
    }
  }

  lemma OthersMove(w: World, uid: nat, s: Step)
    requires Enabled(w, s) && (s.Begin? || s.Crash?) && OnlyAsking(w, uid) && uid in w.machines
    requires s.Begin? ==> s.uid != uid
    ensures Untouched(w, Apply(w, s), uid) && OnlyAsking(Apply(w, s), uid)
  {
  }

  lemma UntouchedTwice(w: World, w1: World, w2: World, uid: nat)
    requires Untouched(w, w1, uid) && Untouched(w1, w2, uid) && LogOk(w1) && PassesKept(w1, w2)
    ensures Untouched(w, w2, uid)
  {
    forall i | |w.log| <= i < |w2.log| ensures !Concerns(w2, w2.log[i], uid) {
      if i < |w1.log| {
        assert w2.log[i] == w1.log[i] && !Concerns(w1, w1.log[i], uid);
        assert EventOk(w1, i);
      }
    }
  }

  /** Passes stay over the machine they began on. */
  predicate PassesKept(w: World, w': World) {
    forall p :: p in w.passes ==> p in w'.passes && w'.passes[p].uid == w.passes[p].uid
  }

  lemma StepKeepsPasses(w: World, s: Step)
    requires Enabled(w, s)
    ensures PassesKept(w, Apply(w, s))
  {
    if s.Deliver? {
      SameIdentity(w.passes[s.pid], s.reply);
    } else if s.LoseReply? {
      SameIdentity(w.passes[s.pid], Failed);
    }
  }

  lemma {:induction false} RunKeepsPasses(w: World, run: seq<Step>)
    requires Legal(w, run)
    ensures PassesKept(w, Exec(w, run))
    decreases |run|
  {
    if run != [] {
      StepKeepsPasses(w, run[0]);
      RunKeepsPasses(Apply(w, run[0]), run[1..]);
    }
  }

  /** A settled machine stays as it is whatever else goes on: no later step of any run, of its
      own passes, of other machines' or of users, writes its status, posts a server, attaches a
      NAT, adds a policy or creates a Secret for it, until the cloud reports another state or
      someone writes to the machine. */
  lemma {:induction false} SettledAmongOthers(w: World, uid: nat, run: seq<Step>)
    requires Inv(w) && Settled(w, uid) && OnlyAsking(w, uid) && Legal(w, run) && MixedRun(w, uid, run)
    ensures Untouched(w, Exec(w, run), uid)
    decreases |run|
  {
    if run != [] {
      var w1 := Apply(w, run[0]);
      MixedStep(w, uid, run[0]);
      StepGrows(w, run[0]);
      SettledStill(w, w1, uid);
      StepKeeps(w, run[0]);
      SettledAmongOthers(w1, uid, run[1..]);
      RunKeepsPasses(w1, run[1..]);
      UntouchedTwice(w, w1, Exec(w, run), uid);
    }
  }

  // ---------- passes begun on old versions ----------

  /** Every pass over the machine has ended, holds an old version, or is asking the cloud. */
  predicate Harmless(w: World, uid: nat)
    requires uid in w.machines
  {
    forall p :: p in w.passes && w.passes[p].uid == uid ==>
      var l := w.passes[p];
      l.pc.Done? || IsStale(w, l) || (IsGet(l.pc) && l.rv == |w.machines[uid].versions| - 1)
  }

  predicate IsStale(w: World, l: Local) {
    l.uid in w.machines && l.rv + 1 < |w.machines[l.uid].versions|
  }

  /** Anything but a user's write to this machine, or news of its state from the cloud to a
      pass that holds its newest version. */
  predicate NoNews(w: World, uid: nat, s: Step) {
    match s
    case Deliver(pid, r) =>
      pid in w.passes && w.passes[pid].uid == uid && !IsStale(w, w.passes[pid]) && r.Vm? ==>
        r.vm.state == w.passes[pid].st.state
    case TouchMachine(u) => u != uid
    case _ => true
  }

  predicate NoNewsRun(w: World, uid: nat, run: seq<Step>)
    requires Legal(w, run)
    decreases |run|
  {
    run == [] || (NoNews(w, uid, run[0]) && NoNewsRun(Apply(w, run[0]), uid, run[1..]))
  }

  /** A stale pass may do anything on the cloud, but no write of it lands. */
  lemma StaleReply(w: World, pid: nat, l: Local, r: Reply, r': Reply)
    requires CanReply(w, l, r) && IsStale(w, l) && (r' == r || r' == Failed)
    ensures Effect(w, pid, l, r).machines == w.machines
    ensures After(l, r').uid == l.uid && After(l, r').rv == l.rv
  {
    if IsWrite(l.pc) && r.Written? {
      WrittenIsCurrent(w, l);
    }
    OnlyWritesTouch(w, pid, l, r);
    SameIdentity(l, r');
  }

  lemma HarmlessAfter(w: World, w': World, uid: nat, pid: nat, l': Local)
    requires uid in w.machines && uid in w'.machines && w'.machines[uid].versions == w.machines[uid].versions
    requires Harmless(w, uid) && w'.passes == w.passes[pid := l']
    requires l'.uid == uid ==>
               l'.pc.Done? || IsStale(w', l') || (IsGet(l'.pc) && l'.rv == |w'.machines[uid].versions| - 1)
    ensures Harmless(w', uid)
  {
  }

  /** An answered or lost call of any pass. */
  lemma HarmlessReply(w: World, uid: nat, pid: nat, r: Reply, r': Reply)
    requires MachinesOk(w) && PassesOk(w) && Settled(w, uid) && Harmless(w, uid)
    requires pid in w.passes && CanReply(w, w.passes[pid], r) && (r' == r || r' == Failed)
    requires w.passes[pid].uid == uid && !IsStale(w, w.passes[pid]) && r.Vm? ==> r.vm.state == w.passes[pid].st.state
    ensures var w' := SetPass(Effect(w, pid, w.passes[pid], r), pid, After(w.passes[pid], r'));
            uid in w'.machines && w'.machines[uid].versions == w.machines[uid].versions && Harmless(w', uid)
  {
    var l := w.passes[pid];
    var w' := SetPass(Effect(w, pid, l, r), pid, After(l, r'));
    SameIdentity(l, r');
    if l.uid != uid {
      OthersCall(w, uid, pid, l, r);
    } else if IsStale(w, l) {
      StaleReply(w, pid, l, r, r');
    } else {
      AskingHasNoEffect(w, pid, l, r);
      QuietReply(w, uid, pid, l, r');
    }
    HarmlessAfter(w, w', uid, pid, After(l, r'));
  }

  lemma HarmlessBegin(w: World, uid: nat, s: Step)
    requires MachinesOk(w) && Settled(w, uid) && Harmless(w, uid) && s.Begin? && Enabled(w, s)
    ensures Harmless(Apply(w, s), uid)
  {
    var l := Apply(w, s).passes[s.pid];
    if s.uid == uid && s.rv == |w.machines[uid].versions| - 1 {
      QuietBegin(w, uid, s);
    }
    HarmlessAfter(w, Apply(w, s), uid, s.pid, l);
  }

  lemma HarmlessOutside(w: World, uid: nat, s: Step)
    requires Enabled(w, s) && IsOutside(s) && NoNews(w, uid, s) && uid in w.machines && Harmless(w, uid)
    ensures var w' := Apply(w, s);
            uid in w'.machines && w'.machines[uid].versions == w.machines[uid].versions && Harmless(w', uid)
  {
  }

  lemma HarmlessStep(w: World, uid: nat, s: Step)
    requires MachinesOk(w) && PassesOk(w) && Settled(w, uid) && Harmless(w, uid)
    requires Enabled(w, s) && NoNews(w, uid, s)
    ensures var w' := Apply(w, s);
            uid in w'.machines && w'.machines[uid].versions == w.machines[uid].versions && Harmless(w', uid)
  {
    if s.Deliver? {
      HarmlessReply(w, uid, s.pid, s.reply, s.reply);
    } else if s.LoseReply? {
      HarmlessLoss(w, uid, s.pid, s.reply);
    } else if s.Begin? {
      HarmlessBegin(w, uid, s);
    } else if s.Crash? {
      HarmlessAfter(w, Apply(w, s), uid, s.pid, End(w.passes[s.pid], Error));
    } else {
      HarmlessOutside(w, uid, s);
    }
  }

  /** A lost reply tells the pass nothing, whatever it said. */
  lemma HarmlessLoss(w: World, uid: nat, pid: nat, r: Reply)
    requires MachinesOk(w) && PassesOk(w) && Settled(w, uid) && Harmless(w, uid)
    requires pid in w.passes && CanReply(w, w.passes[pid], r)
    ensures var w' := SetPass(Effect(w, pid, w.passes[pid], r), pid, After(w.passes[pid], Failed));
            uid in w'.machines && w'.machines[uid].versions == w.machines[uid].versions && Harmless(w', uid)
  {
    var l := w.passes[pid];
    if l.uid == uid && !IsStale(w, l) {
      AskingHasNoEffect(w, pid, l, r);
      HarmlessReply(w, uid, pid, Failed, Failed);
    } else {
      HarmlessReply(w, uid, pid, r, Failed);
    }
  }

  lemma SettledSame(w: World, s: Step, uid: nat)
    requires Enabled(w, s) && Settled(w, uid)
    requires uid in Apply(w, s).machines && Apply(w, s).machines[uid].versions == w.machines[uid].versions
    ensures Settled(Apply(w, s), uid)
  {
    StepGrows(w, s);
  }

  /** Passes over a settled machine may begin on any version it ever had: whatever they go on to
      do on the cloud, no write of theirs lands, and the stored versions never change, until the
      cloud reports another state to an up-to-date pass or someone writes to the machine. */
  lemma {:induction false} SettledStaysStored(w: World, uid: nat, run: seq<Step>)
    requires Inv(w) && Settled(w, uid) && Harmless(w, uid) && Legal(w, run) && NoNewsRun(w, uid, run)
    ensures uid in Exec(w, run).machines && Exec(w, run).machines[uid].versions == w.machines[uid].versions
    decreases |run|
  {
    if run != [] {
      var w1 := Apply(w, run[0]);
      HarmlessStep(w, uid, run[0]);
      StepKeeps(w, run[0]);
      SettledSame(w, run[0], uid);
      SettledStaysStored(w1, uid, run[1..]);
    }
  }
}

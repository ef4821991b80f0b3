/** When a worker is stranded: flagged as joined, and without a server for good. */
module Stranding {
  import opened KTObjects
  import opened Pass
  import opened World
  import opened Invariant
  import opened Preservation
  import opened Machines

  /** The pass learned that the cloud refused its worker POST. */
  function Refusal(w: World, s: Step): set<nat> {
    if s.Deliver? && s.pid in w.passes && w.passes[s.pid].pc.PostWorker? && s.reply.Refused? then {s.pid} else {}
  }

  /** The step is a flag write of a pass over the machine, and it lands. */
  predicate FlagLands(w: World, s: Step, uid: nat) {
    && (s.Deliver? || s.LoseReply?) && s.pid in w.passes
    && w.passes[s.pid].uid == uid && w.passes[s.pid].pc.MarkJoined? && s.reply.Written?
  }

  /** In the run, a pass whose POST was refused (or that is in `refused` already) gets its
      flag write landed. */
  predicate Strands(w: World, run: seq<Step>, uid: nat, refused: set<nat>)
    requires Legal(w, run)
    decreases |run|
  {
    run != [] &&
    ((FlagLands(w, run[0], uid) && run[0].pid in refused) ||
     Strands(Apply(w, run[0]), run[1..], uid, refused + Refusal(w, run[0])))
  }

  predicate EverJoined(w: World, uid: nat) {
    uid in w.machines && AnyJoined(w.machines[uid].versions)
  }

  predicate AnyJoined(vs: seq<Status>) {
    exists i :: 0 <= i < |vs| && vs[i].joined
  }

  lemma OneMoreJoined(vs: seq<Status>, st: Status)
    ensures AnyJoined(vs + [st]) <==> AnyJoined(vs) || st.joined
  {
    var vs' := vs + [st];
    assert vs'[|vs|] == st;
    assert forall i :: 0 <= i < |vs| ==> vs'[i] == vs[i];
  }

  /** A pass about to write the flag after its server was recorded holds a stale version. */
  predicate StaleUnlessRefused(w: World, refused: set<nat>) {
    forall p :: p in w.passes && w.passes[p].pc.MarkJoined? && p !in refused ==>
      w.passes[p].uid in w.machines && w.passes[p].rv + 1 < |w.machines[w.passes[p].uid].versions|
  }

  // ---------- one step ----------

  /** How a pass comes to be at its flag write. */
  lemma ToMarkJoined(l: Local, r: Reply)
    requires After(l, r).pc.MarkJoined?
    ensures (l.pc.PostWorker? && r.Refused?) || (l.pc.RecordWorker? && r.Written?)
    ensures After(l, r).uid == l.uid && After(l, r).rv == l.rv
  {
  }

  lemma RecordedIsStale(w: World, pid: nat, l: Local)
    requires l.pc.RecordWorker? && CanReply(w, l, Written)
    ensures var w' := Effect(w, pid, l, Written);
            l.uid in w'.machines && l.rv + 1 < |w'.machines[l.uid].versions|
  {
  }

  lemma StepStale(w: World, s: Step, refused: set<nat>)
    requires Enabled(w, s) && StaleUnlessRefused(w, refused)
    ensures StaleUnlessRefused(Apply(w, s), refused + Refusal(w, s))
  {
    var w' := Apply(w, s);
    StepGrows(w, s);
    forall p | p in w'.passes && w'.passes[p].pc.MarkJoined? && p !in refused + Refusal(w, s)
      ensures w'.passes[p].uid in w'.machines && w'.passes[p].rv + 1 < |w'.machines[w'.passes[p].uid].versions|
    {
      if s.Deliver? && s.pid == p {
        ToMarkJoined(w.passes[p], s.reply);
        RecordedIsStale(w, p, w.passes[p]);
      } else if s.LoseReply? && s.pid == p {
        ToMarkJoined(w.passes[p], Failed);
      } else {
        assert w.passes[p] == w'.passes[p];
      }
    }
  }

  lemma CommitJoined(w: World, pid: nat, l: Local, uid: nat)
    requires MachinesOk(w) && PassOk(w, pid, l) && IsWrite(l.pc) && Current(w, l)
    ensures EverJoined(Commit(w, pid, l.uid, WriteOf(l)), uid) <==>
              EverJoined(w, uid) || (l.uid == uid && l.pc.MarkJoined?)
  {
    BaseOk(w, pid, l);
    var w' := Commit(w, pid, l.uid, WriteOf(l));
    if l.uid == uid {
      OneMoreJoined(w.machines[uid].versions, WriteOf(l));
      assert w'.machines[uid].versions == w.machines[uid].versions + [WriteOf(l)];
    }
  }

  lemma SameVersionsJoined(w: World, w': World, uid: nat)
    requires uid in w'.machines ==> (uid in w.machines && w'.machines[uid].versions == w.machines[uid].versions)
    requires uid in w.machines ==> uid in w'.machines
    ensures EverJoined(w', uid) <==> EverJoined(w, uid)
  {
  }

  lemma ReplyJoined(w: World, pid: nat, r: Reply, uid: nat)
    requires MachinesOk(w) && PassesOk(w) && pid in w.passes && CanReply(w, w.passes[pid], r)
    ensures var l := w.passes[pid];
            EverJoined(Effect(w, pid, l, r), uid) <==>
              EverJoined(w, uid) || (l.uid == uid && l.pc.MarkJoined? && r.Written?)
  {
    var l := w.passes[pid];
    assert PassOk(w, pid, l);
    if IsWrite(l.pc) && r.Written? {
      assert HistoryOk(w, l.uid);
      CommitJoined(w, pid, l, uid);
    } else {
      OnlyWritesTouch(w, pid, l, r);
    }
  }

  lemma TouchJoined(w: World, u: nat, uid: nat)
    requires MachinesOk(w) && u in w.machines && |w.machines[u].versions| > 0
    ensures EverJoined(Apply(w, TouchMachine(u)), uid) <==> EverJoined(w, uid)
  {
    if u == uid {
      var vs := w.machines[uid].versions;
      OneMoreJoined(vs, vs[|vs| - 1]);
    }
  }

  lemma StepJoined(w: World, s: Step, uid: nat)
    requires MachinesOk(w) && PassesOk(w) && Enabled(w, s)
    ensures EverJoined(Apply(w, s), uid) <==> EverJoined(w, uid) || FlagLands(w, s, uid)
  {
    var w' := Apply(w, s);
    if s.Deliver? || s.LoseReply? {
      ReplyJoined(w, s.pid, s.reply, uid);
      assert w'.machines == Effect(w, s.pid, w.passes[s.pid], s.reply).machines;
    } else if s.TouchMachine? {
      TouchJoined(w, s.uid, uid);
    } else if s.CreateMachine? {
      assert s.machine.versions == [NEW_STATUS];
    } else {
      SameVersionsJoined(w, w', uid);
    }
  }

  /** A flag write lands only for a pass whose POST was refused: any other is stale. */
  lemma LandsRefused(w: World, s: Step, uid: nat, refused: set<nat>)
    requires Enabled(w, s) && FlagLands(w, s, uid) && StaleUnlessRefused(w, refused)
    ensures s.pid in refused
  {
  }

  // ---------- runs ----------

  lemma {:induction false} JoinedFrom(w: World, run: seq<Step>, uid: nat, refused: set<nat>)
    requires Inv(w) && Legal(w, run) && StaleUnlessRefused(w, refused)
    ensures EverJoined(Exec(w, run), uid) <==> EverJoined(w, uid) || Strands(w, run, uid, refused)
    decreases |run|
  {
    if run != [] {
      StepKeeps(w, run[0]);
      StepStale(w, run[0], refused);
      StepJoined(w, run[0], uid);
      if FlagLands(w, run[0], uid) {
        LandsRefused(w, run[0], uid, refused);
      }
      JoinedFrom(Apply(w, run[0]), run[1..], uid, refused + Refusal(w, run[0]));
    }
  }

  /** A machine is stored as joined if and only if, earlier in the run, the cloud refused the
      POST of a pass over it and that pass's flag write then landed. */
  lemma JoinedExactly(w0: World, run: seq<Step>, uid: nat)
    requires Init(w0) && Legal(w0, run) && uid in Exec(w0, run).machines
    ensures |Exec(w0, run).machines[uid].versions| > 0
    ensures Stored(Exec(w0, run), uid).joined <==> Strands(w0, run, uid, {})
  {
    var w := Exec(w0, run);
    InitInv(w0);
    RunKeeps(w0, run);
    JoinedFrom(w0, run, uid, {});
    assert HistoryOk(w, uid);
    var vs := w.machines[uid].versions;
    if EverJoined(w, uid) {
      var i :| 0 <= i < |vs| && vs[i].joined;
      JoinedSticks(w, uid, i, |vs| - 1);
    }
  }

  /** No pass of the run learned of a refused worker POST. */
  predicate NoRefusal(w: World, run: seq<Step>)
    requires Legal(w, run)
    decreases |run|
  {
    run == [] || (Refusal(w, run[0]) == {} && NoRefusal(Apply(w, run[0]), run[1..]))
  }

  lemma {:induction false} NoRefusalNoStrand(w: World, run: seq<Step>, uid: nat)
    requires Legal(w, run) && NoRefusal(w, run)
    ensures !Strands(w, run, uid, {})
    decreases |run|
  {
    if run != [] {
      assert {} + Refusal(w, run[0]) == {};
      NoRefusalNoStrand(Apply(w, run[0]), run[1..], uid);
    }
  }

  /** While the cloud refuses no worker POST, no version of any machine ever has the flag. */
  lemma NoRefusalNoFlag(w0: World, run: seq<Step>, uid: nat)
    requires Init(w0) && Legal(w0, run) && NoRefusal(w0, run)
    ensures !EverJoined(Exec(w0, run), uid)
  {
    InitInv(w0);
    JoinedFrom(w0, run, uid, {});
    NoRefusalNoStrand(w0, run, uid);
  }

  lemma RefusedMoves(w: World, pid: nat)
    requires pid in w.passes && w.passes[pid].pc.PostWorker?
    ensures Enabled(w, Deliver(pid, Refused))
    ensures Apply(w, Deliver(pid, Refused)) == SetPass(w, pid, Joined(w.passes[pid]))
  {
  }

  /** The other way at a single pass: if its POST is refused while it holds the newest version,
      its flag write can land, and then the machine is stranded. */
  lemma RefusedCanStrand(w: World, pid: nat)
    requires Inv(w) && pid in w.passes && w.passes[pid].pc.PostWorker? && Current(w, w.passes[pid])
    ensures Enabled(w, Deliver(pid, Refused))
    ensures var w1 := Apply(w, Deliver(pid, Refused));
            && Enabled(w1, Deliver(pid, Written))
            && FlagLands(w1, Deliver(pid, Written), w.passes[pid].uid)
            && EverJoined(Apply(w1, Deliver(pid, Written)), w.passes[pid].uid)
  {
    RefusedMoves(w, pid);
    StepKeeps(w, Deliver(pid, Refused));
    FlagWriteStores(SetPass(w, pid, Joined(w.passes[pid])), pid);
  }

  lemma FlagWriteStores(w: World, pid: nat)
    requires Inv(w) && pid in w.passes && w.passes[pid].pc.MarkJoined? && Current(w, w.passes[pid])
    ensures Enabled(w, Deliver(pid, Written)) && FlagLands(w, Deliver(pid, Written), w.passes[pid].uid)
    ensures EverJoined(Apply(w, Deliver(pid, Written)), w.passes[pid].uid)
  {
    StepJoined(w, Deliver(pid, Written), w.passes[pid].uid);
  }
}

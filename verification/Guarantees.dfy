/** What every run of machine passes keeps, for readers who do not care how. */
module Guarantees {
  import opened KTObjects
  import opened Pass
  import opened World
  import opened Invariant
  import opened Preservation

  // ---------- the kubeconfig Secret as a lock ----------

  ghost predicate ReadyWriteFor(w: World, i: nat, cluster: string) {
    i < |w.log| && IsFlip(w.log[i]) && w.log[i].uid in w.machines && w.machines[w.log[i].uid].cluster == cluster
  }

  /** Across all machines, namespaces and passes, at most one status write per cluster
      name ever turns ControlPlaneRef.Status on. */
  lemma ReadyWriteOncePerCluster(w: World, cluster: string, i: nat, j: nat)
    requires Reachable(w) && ReadyWriteFor(w, i, cluster) && ReadyWriteFor(w, j, cluster)
    ensures i == j
  {
    ReachableInv(w);
  }

  /** That write comes after the Secret was created, and by the pass that created it. */
  lemma ReadyWriteByCreator(w: World, cluster: string, i: nat)
    requires Reachable(w) && ReadyWriteFor(w, i, cluster)
    ensures exists k: nat :: k < i && w.log[k] == SecretCreated(cluster, w.log[i].pid)
  {
    ReachableInv(w);
    assert EventOk(w, i);
    var k :| k < i && SecretAt(w.log, k, cluster) && Attached(w.log, k, w.log[i].uid);
    assert EventOk(w, k);
    assert w.log[k] == SecretCreated(cluster, w.log[i].pid);
  }

  /** What one step adds to the log; a ready write is made by a pass that still runs. */
  lemma StepLog(w: World, s: Step)
    requires Inv(w) && Enabled(w, s)
    ensures var w' := Apply(w, s);
            w'.log == w.log ||
            (|w'.log| == |w.log| + 1 && w.log <= w'.log &&
             (IsFlip(w'.log[|w.log|]) ==>
                w'.log[|w.log|].pid in w.passes && !w.passes[w'.log[|w.log|].pid].pc.Done?))
  {
    StepGrows(w, s);
    if s.Deliver? || s.LoseReply? {
      EffectAddsOne(w, s.pid, w.passes[s.pid], s.reply);
    }
  }

  lemma EffectAddsOne(w: World, pid: nat, l: Local, r: Reply)
    requires CanReply(w, l, r)
    ensures var w' := Effect(w, pid, l, r);
            w'.log == w.log ||
            (|w'.log| == |w.log| + 1 && !l.pc.Done? &&
             (w'.log[|w.log|].StatusWritten? ==> w'.log[|w.log|].pid == pid))
  {
    EffectEvents(w, pid, l, r);
  }

  /** The Secret's name was taken by an outsider, or by a pass that has ended: by crashing,
      by losing the reply to its create, or by failing to write the status. */
  ghost predicate NameTaken(w: World, cluster: string) {
    && cluster in w.secrets
    && (w.secrets[cluster].creator.Some? ==>
          var p := w.secrets[cluster].creator.value; p in w.passes && w.passes[p].pc.Done?)
  }

  lemma NameTakenStep(w: World, w': World, cluster: string)
    requires NameTaken(w, cluster) && Grows(w, w') && LogOk(w')
    requires |w.log| < |w'.log| && IsFlip(w'.log[|w.log|]) ==>
               w'.log[|w.log|].pid in w.passes && !w.passes[w'.log[|w.log|].pid].pc.Done?
    requires |w'.log| <= |w.log| + 1
    ensures NameTaken(w', cluster)
    ensures forall i: nat :: |w.log| <= i ==> !ReadyWriteFor(w', i, cluster)
  {
    forall i: nat | |w.log| <= i ensures !ReadyWriteFor(w', i, cluster) {
      assert i < |w'.log| ==> EventOk(w', i);
    }
  }

  /** From then on no machine of that cluster ever turns ready, whatever happens. */
  lemma {:induction false} NameTakenForever(w: World, run: seq<Step>, cluster: string)
    requires Inv(w) && NameTaken(w, cluster) && Legal(w, run)
    ensures forall i: nat :: |w.log| <= i ==> !ReadyWriteFor(Exec(w, run), i, cluster)
    decreases |run|
  {
    if run == [] {
    } else {
      var w1 := Apply(w, run[0]);
      StepGrows(w, run[0]);
      StepLog(w, run[0]);
      StepKeeps(w, run[0]);
      NameTakenStep(w, w1, cluster);
      NameTakenForever(w1, run[1..], cluster);
      RunKeeps(w1, run[1..]);
      NoNewReadyWrite(w, w1, Exec(w1, run[1..]), cluster);
    }
  }

  lemma NoNewReadyWrite(w: World, w1: World, w': World, cluster: string)
    requires LogOk(w1) && Grows(w1, w')
    requires forall i: nat :: |w.log| <= i ==> !ReadyWriteFor(w1, i, cluster)
    requires forall i: nat :: |w1.log| <= i ==> !ReadyWriteFor(w', i, cluster)
    ensures forall i: nat :: |w.log| <= i ==> !ReadyWriteFor(w', i, cluster)
  {
    forall i: nat | |w.log| <= i ensures !ReadyWriteFor(w', i, cluster) {
      if i < |w1.log| {
        assert EventOk(w1, i) && !ReadyWriteFor(w1, i, cluster);
      }
    }
  }

  /** Once any machine of a cluster was ready, no machine of that cluster ever turns ready
      again, the same one included: one that loses its ready flag has lost it for good. */
  lemma OnceReadyNeverAgain(w: World, run: seq<Step>, uid: nat, i: nat)
    requires Inv(w) && Legal(w, run) && uid in w.machines && i < |w.machines[uid].versions|
    requires w.machines[uid].versions[i].cpRef.ready
    ensures forall j: nat :: |w.log| <= j ==> !ReadyWriteFor(Exec(w, run), j, w.machines[uid].cluster)
  {
    var k := ReadyWriteBefore(w, uid, i);
    RunKeeps(w, run);
  }

  lemma ReadyWriteBefore(w: World, uid: nat, i: nat) returns (k: nat)
    requires MachinesOk(w) && uid in w.machines && i < |w.machines[uid].versions|
    requires w.machines[uid].versions[i].cpRef.ready
    ensures FlipAt(w.log, k, uid)
  {
    assert HistoryOk(w, uid);
    assert VersionOk(w, uid, w.machines[uid].versions[i]);
    var k' :| k' < |w.log| && FlipAt(w.log, k', uid) && Unlocked(w.log, k', uid, w.machines[uid].cluster);
    k := k';
  }

}

/** Workers wait for control planes: causality, the join choice, and who may panic. */
module Workers {
  import opened KTObjects
  import opened Pass
  import opened World
  import opened Invariant
  import opened Preservation

  // ---------- what a stored control plane looks like ----------

  /** Every status a control plane ever stored. */
  lemma StoredControlPlane(w: World, uid: nat, i: nat)
    requires Reachable(w) && uid in w.machines && i < |w.machines[uid].versions|
    requires IsControlPlane(w.machines[uid].name)
    ensures var st := w.machines[uid].versions[i];
            && |st.ips| <= 1
            && (st.cpRef.kind == BOOTSTRAP_READY ==> |st.ips| == 1)
            && (st.cpRef.ready ==> st.cpRef.kind == BOOTSTRAP_READY)
            && forall a :: a in st.ips ==> a.network in st.addresses && a.pvtIp in st.addresses[a.network]
  {
    ReachableInv(w);
    assert HistoryOk(w, uid);
    assert VersionOk(w, uid, w.machines[uid].versions[i]);
  }

  /** Whenever a pass indexes AssignedPublicIps[0] there is an entry: in the probe and the
      kubeconfig fetch of a control plane, and in the candidate loop of a worker. */
  lemma FirstIpInRange(w: World, pid: nat)
    requires Reachable(w) && pid in w.passes
    ensures var l := w.passes[pid];
            && (l.pc.Probe? || l.pc.Fetch? || l.pc.CreateSecret? ==> |l.st.ips| == 1)
            && (l.pc.ProbeCandidate? ==>
                  l.pc.next < |l.pc.cands| && forall m :: m in l.pc.cands ==> |m.st.ips| == 1)
            && (l.pc == Done(Panic) ==> !IsControlPlane(l.name))
  {
    ReachableInv(w);
    var l := w.passes[pid];
    assert PassOk(w, pid, l);
    if l.pc.ProbeCandidate? {
      CandsOneIp(w, l.ns, l.pc.cands);
    }
  }

  // ---------- causality ----------

  /** Before any worker's server was accepted, some control plane of its namespace had got a
      NAT, then a kubeconfig Secret, then its ready write, in that order; and the address
      the worker was told to join is that control plane's NATed private IP. */
  lemma WorkerAfterBootstrap(w: World, i: nat) returns (c: nat, v: nat, nat_: nat, secret: nat, ready: nat)
    requires Reachable(w) && i < |w.log| && w.log[i].VmAccepted? && w.log[i].join.Some?
    ensures nat_ < secret < ready < i
    ensures w.log[i].uid in w.machines
    ensures !IsControlPlane(w.machines[w.log[i].uid].name)
    ensures c in w.machines && w.machines[c].ns == w.machines[w.log[i].uid].ns
    ensures IsControlPlane(w.machines[c].name)
    ensures w.log[nat_].NatAttached? && w.log[nat_].uid == c
    ensures w.log[secret].SecretCreated? && w.log[secret].cluster == w.machines[c].cluster
    ensures IsFlip(w.log[ready]) && w.log[ready].uid == c
    ensures v < |w.machines[c].versions|
    ensures var st := w.machines[c].versions[v];
            st.cpRef.ready && |st.ips| == 1 && Some(st.ips[0].pvtIp) == w.log[i].join
  {
    ReachableInv(w);
    assert EventOk(w, i);
    var uid := w.log[i].uid;
    var ns, address := w.machines[uid].ns, w.log[i].join.value;
    var c': nat, v': nat :| JoinVersion(w, c', v', ns, address) &&
        Bootstrapped(w.log, i, c', w.machines[c'].cluster);
    var cluster := w.machines[c'].cluster;
    var r' :| r' < i && FlipAt(w.log, r', c') && Unlocked(w.log, r', c', cluster);
    var s' :| s' < r' && SecretAt(w.log, s', cluster) && Attached(w.log, s', c');
    var n' :| n' < s' && AttachedAt(w.log, n', c');
    c, v, nat_, secret, ready := c', v', n', s', r';
  }

  lemma WorkerNeedsExternal(w: World, i: nat)
    requires Reachable(w) && i < |w.log| && w.log[i].VmAccepted? && w.log[i].join.Some?
    ensures w.log[i].uid in w.machines && External(w, w.machines[w.log[i].uid].ns)
  {
    ReachableInv(w);
    var _, _, n, _, _ := WorkerAfterBootstrap(w, i);
    assert EventOk(w, n);
  }

  /** Where external networking is off in every KTCluster spec the namespace ever had, no
      worker's server is ever accepted. */
  lemma NoExternalNoWorker(w: World, ns: string, i: nat)
    requires Reachable(w) && i < |w.log| && w.log[i].VmAccepted?
    requires w.log[i].uid in w.machines && w.machines[w.log[i].uid].ns == ns
    requires forall c: KTCluster :: (ns, c) in w.clusters ==> !c.external
    ensures w.log[i].join == None && IsControlPlane(w.machines[w.log[i].uid].name)
  {
    if w.log[i].join.Some? {
      WorkerNeedsExternal(w, i);
    } else {
      ReachableInv(w);
      assert EventOk(w, i);
    }
  }

  // ---------- the join choice ----------

  predicate Increasing(idx: seq<nat>) {
    forall i, j :: 0 <= i < j < |idx| ==> idx[i] < idx[j]
  }

  /** The candidates are the machines passing the filter, each where the list had it. */
  lemma {:induction false} CandidatesInOrder(self: string, ms: seq<Listed>) returns (idx: seq<nat>)
    ensures |idx| == |Candidates(self, ms)| && Increasing(idx)
    ensures forall k :: 0 <= k < |idx| ==> idx[k] < |ms| && Candidates(self, ms)[k] == ms[idx[k]]
    ensures forall j: nat :: j < |ms| ==> (j in idx <==> IsCandidate(self, ms[j]))
  {
    if ms == [] {
      idx := [];
    } else {
      var n := |ms| - 1;
      var rest := CandidatesInOrder(self, ms[..n]);
      idx := rest + if IsCandidate(self, ms[n]) then [n] else [];
      forall j: nat | j < |ms| ensures j in idx <==> IsCandidate(self, ms[j]) {
        assert j < n ==> ms[..n][j] == ms[j] && (j in rest <==> IsCandidate(self, ms[..n][j]));
        assert n !in rest;
      }
    }
  }

  /** The pass after its probes were answered one by one. */
  function Answered(l: Local, answers: seq<bool>): Local
    decreases |answers|
  {
    if answers == [] || !l.pc.ProbeCandidate? then l
    else Answered(After(l, if answers[0] then Ok else Failed), answers[1..])
  }

  /** The first `silent` candidates do not answer and the next one, if there is one, does.
      Candidates are probed in order, each at most once, up to the first that answers; it
      is that one the worker joins. If none answers the pass panics. */
  lemma {:induction false} JoinsFirstAnswering(l: Local, answers: seq<bool>, silent: nat)
    requires l.pc.ProbeCandidate? && OneIpEach(l.pc.cands) && l.pc.next < |l.pc.cands|
    requires |answers| == |l.pc.cands| - l.pc.next && silent <= |answers|
    requires forall i :: 0 <= i < silent ==> !answers[i]
    requires silent < |answers| ==> answers[silent]
    ensures Answered(l, answers) ==
            if silent < |answers| then l.(pc := PostWorker(l.pc.cands[l.pc.next + silent].st.ips[0].pvtIp))
            else l.(pc := Done(Panic))
    ensures silent < |answers| ==> Answered(l, answers[..silent + 1]) == Answered(l, answers)
    decreases |answers|
  {
    if silent == 0 {
    } else if |answers| == 1 {
    } else {
      JoinsFirstAnswering(After(l, Failed), answers[1..], silent - 1);
      if silent < |answers| {
        assert answers[..silent + 1][1..] == answers[1..][..silent];
      }
    }
  }

  // ---------- the choice of a public IP ----------

  /** The IP a NAT is posted on is the first unattached one the cloud listed; there is none to
      post on exactly when every listed IP is attached. */
  lemma {:induction false} FirstAvailable(ips: seq<PublicIp>) returns (i: nat)
    ensures i <= |ips| && forall j :: 0 <= j < i ==> ips[j].kind != ASSOCIATE
    ensures i < |ips| ==> ips[i].kind == ASSOCIATE && Available(ips) != [] && Available(ips)[0] == ips[i]
    ensures i == |ips| ==> Available(ips) == []
  {
    i := 0;
    if ips != [] {
      var n := |ips| - 1;
      i := FirstAvailable(ips[..n]);
      if i == n && ips[n].kind != ASSOCIATE {
        i := |ips|;
      }
    }
  }

  // ---------- the kubeconfig fetch ----------

  function Fetched(l: Local, replies: seq<Reply>): Local
    decreases |replies|
  {
    if replies == [] || !l.pc.Fetch? then l else Fetched(After(l, replies[0]), replies[1..])
  }

  lemma {:induction false} FetchedFrom(l: Local, replies: seq<Reply>, k: nat)
    requires l.pc.Fetch? && (l.pc.got.None? || l.pc.torn)
    requires l.pc.tries < MAX_FETCHES && |replies| == MAX_FETCHES - l.pc.tries && k <= |replies|
    requires forall i :: 0 <= i < k ==> !replies[i].Body?
    requires k < |replies| ==> replies[k].Body?
    ensures Fetched(l, replies) ==
            if k < |replies| then l.(pc := CreateSecret(replies[k].data)) else l.(pc := Done(Error))
    decreases |replies|
  {
    if 0 < k && l.pc.tries + 1 < MAX_FETCHES {
      FetchedFrom(After(l, replies[0]), replies[1..], k - 1);
    }
  }

  /** At most 24 attempts; the Secret holds the body of the first attempt that was answered
      with a 2xx and read in full, whatever broke before it; if there is none, an error. */
  lemma FetchFirstFullBody(l: Local, replies: seq<Reply>, k: nat)
    requires l.pc == Fetch(0, None, false) && |replies| == MAX_FETCHES && k <= MAX_FETCHES
    requires forall i :: 0 <= i < k ==> !replies[i].Body?
    requires k < MAX_FETCHES ==> replies[k].Body?
    ensures Fetched(l, replies) ==
            if k < MAX_FETCHES then l.(pc := CreateSecret(replies[k].data)) else l.(pc := Done(Error))
  {
    FetchedFrom(l, replies, k);
  }
}

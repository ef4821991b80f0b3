/** Which NAT each firewall policy names, over every run of machine passes. */
module Policies {
  import opened KTObjects
  import opened Pass
  import opened World
  import opened Preservation

  /** A pass that attached NAT n and has not yet asked for its policy. */
  predicate Carries(l: Local, n: string) {
    (l.pc.RecordIp? || l.pc.AddFirewall?) && l.st.ips != [] && LastNat(l.st) == n
  }

  predicate PolicyAt(log: seq<Event>, i: int, n: string) {
    0 <= i < |log| && log[i].FirewallAdded? && log[i].natId == n
  }

  ghost predicate AttachedBefore(log: seq<Event>, i: int, uid: nat, pid: nat, n: string) {
    exists j :: 0 <= j < i && j < |log| && log[j] == NatAttached(uid, pid, n)
  }

  ghost predicate PoliciesOk(w: World) {
    && (forall i, n :: PolicyAt(w.log, i, n) ==>
         n in w.nats && AttachedBefore(w.log, i, w.log[i].uid, w.log[i].pid, n))
    && (forall i, j, n :: PolicyAt(w.log, i, n) && PolicyAt(w.log, j, n) ==> i == j)
  }

  ghost predicate CarrierOk(w: World, p: nat, l: Local) {
    forall n :: Carries(l, n) ==>
      n in w.nats && AttachedBefore(w.log, |w.log|, l.uid, p, n) && forall i :: !PolicyAt(w.log, i, n)
  }

  ghost predicate CarriersOk(w: World) {
    && (forall p :: p in w.passes ==> CarrierOk(w, p, w.passes[p]))
    && (forall p, q, n ::
          p in w.passes && q in w.passes && Carries(w.passes[p], n) && Carries(w.passes[q], n) ==> p == q)
    && (forall p :: p in w.passes && (w.passes[p].pc.RecordIp? || w.passes[p].pc.AddFirewall?) ==>
         w.passes[p].st.ips != [])
  }

  ghost predicate PolicyInv(w: World) {
    PoliciesOk(w) && CarriersOk(w)
  }

  /** The log grew by at most one event that is no policy. */
  predicate Quiet(log: seq<Event>, log': seq<Event>) {
    log' == log || (|log'| == |log| + 1 && log <= log' && !log'[|log|].FirewallAdded?)
  }

  lemma QuietPolicies(log: seq<Event>, log': seq<Event>)
    requires Quiet(log, log')
    ensures forall i, n :: PolicyAt(log', i, n) <==> PolicyAt(log, i, n)
    ensures forall i, uid, pid, n :: AttachedBefore(log, i, uid, pid, n) ==> AttachedBefore(log', i, uid, pid, n)
  {
    forall i, uid, pid, n | AttachedBefore(log, i, uid, pid, n) ensures AttachedBefore(log', i, uid, pid, n) {
      var j :| 0 <= j < i && j < |log| && log[j] == NatAttached(uid, pid, n);
      assert log'[j] == NatAttached(uid, pid, n);
    }
  }

  /** A step that posts no policy, and by which no pass starts carrying. */
  lemma QuietKeeps(w: World, w': World)
    requires PolicyInv(w) && Quiet(w.log, w'.log) && forall n :: n in w.nats ==> n in w'.nats
    requires forall p, n :: p in w'.passes && Carries(w'.passes[p], n) ==>
               p in w.passes && Carries(w.passes[p], n) && w'.passes[p].uid == w.passes[p].uid
    requires forall p :: p in w'.passes && (w'.passes[p].pc.RecordIp? || w'.passes[p].pc.AddFirewall?) ==>
              w'.passes[p].st.ips != []
    ensures PolicyInv(w')
  {
    QuietPolicies(w.log, w'.log);
    forall p | p in w'.passes ensures CarrierOk(w', p, w'.passes[p]) {
      forall n | Carries(w'.passes[p], n)
        ensures n in w'.nats && AttachedBefore(w'.log, |w'.log|, w'.passes[p].uid, p, n)
        ensures forall i :: !PolicyAt(w'.log, i, n)
      {
        assert CarrierOk(w, p, w.passes[p]);
      }
    }
  }

  /** The pass after a call that is neither the NAT POST nor the policy POST. */
  lemma NotCarrying(l: Local, r: Reply)
    requires !(l.pc.PostNat? && r.Nat?) && (l.pc.RecordIp? || l.pc.AddFirewall? ==> l.st.ips != [])
    ensures var l' := After(l, r);
            && l'.uid == l.uid
            && (l'.pc.RecordIp? || l'.pc.AddFirewall? ==> l'.st == l.st && l.pc.RecordIp?)
  {
  }

  lemma QuietEffect(w: World, pid: nat, l: Local, r: Reply)
    requires CanReply(w, l, r) && !(l.pc.AddFirewall? && r.Ok?)
    ensures Quiet(w.log, Effect(w, pid, l, r).log)
    ensures forall n :: n in w.nats ==> n in Effect(w, pid, l, r).nats
  {
  }

  lemma NatPosted(w: World, pid: nat, l': Local)
    requires PolicyInv(w) && pid in w.passes && w.passes[pid].pc.PostNat?
    requires l'.uid == w.passes[pid].uid && l'.pc.RecordIp? && l'.st.ips != [] && LastNat(l'.st) !in w.nats
    ensures PolicyInv(SetPass(AttachNat(w, pid, l'.uid, LastNat(l'.st), w.passes[pid].pc.pub.id), pid, l'))
  {
    var n := LastNat(l'.st);
    var w1 := AttachNat(w, pid, l'.uid, n, w.passes[pid].pc.pub.id);
    var w' := SetPass(w1, pid, l');
    QuietKeeps(w, w1);
    assert w'.log[|w.log|] == NatAttached(l'.uid, pid, n);
    assert AttachedBefore(w'.log, |w'.log|, l'.uid, pid, n);
    forall p | p in w'.passes ensures CarrierOk(w', p, w'.passes[p]) {
      if p == pid {
        assert forall i :: PolicyAt(w.log, i, n) ==> n in w.nats;
        QuietPolicies(w.log, w'.log);
      } else {
        assert CarrierOk(w1, p, w1.passes[p]);
      }
    }
    forall p, q, m | p in w'.passes && q in w'.passes && Carries(w'.passes[p], m) && Carries(w'.passes[q], m)
      ensures p == q
    {
      assert p != pid ==> CarrierOk(w, p, w.passes[p]);
      assert q != pid ==> CarrierOk(w, q, w.passes[q]);
    }
  }

  lemma PolicyPosted(w: World, pid: nat, l': Local)
    requires PolicyInv(w) && pid in w.passes && w.passes[pid].pc.AddFirewall?
    requires l'.uid == w.passes[pid].uid && !l'.pc.RecordIp? && !l'.pc.AddFirewall?
    ensures PolicyInv(SetPass(NoteFirewall(w, pid, l'.uid, LastNat(w.passes[pid].st)), pid, l'))
  {
    var l := w.passes[pid];
    var n := LastNat(l.st);
    var w' := SetPass(NoteFirewall(w, pid, l.uid, n), pid, l');
    assert CarrierOk(w, pid, l) && Carries(l, n);
    assert w.log <= w'.log && |w'.log| == |w.log| + 1;
    forall i, uid, q, m | AttachedBefore(w.log, i, uid, q, m) ensures AttachedBefore(w'.log, i, uid, q, m) {
      var j :| 0 <= j < i && j < |w.log| && w.log[j] == NatAttached(uid, q, m);
      assert w'.log[j] == NatAttached(uid, q, m);
    }
    forall i, m | PolicyAt(w'.log, i, m)
      ensures (i < |w.log| && PolicyAt(w.log, i, m)) || (i == |w.log| && m == n)
    {
    }
    forall p | p in w'.passes ensures CarrierOk(w', p, w'.passes[p]) {
      forall m | Carries(w'.passes[p], m)
        ensures m in w'.nats && AttachedBefore(w'.log, |w'.log|, w'.passes[p].uid, p, m)
        ensures forall i :: !PolicyAt(w'.log, i, m)
      {
        assert CarrierOk(w, p, w.passes[p]) && Carries(w.passes[p], m);
        assert m != n;
      }
    }
  }

  lemma ReplyKeepsPolicies(w: World, pid: nat, r: Reply, lost: bool)
    requires PolicyInv(w) && pid in w.passes && CanReply(w, w.passes[pid], r)
    ensures var l := w.passes[pid];
            PolicyInv(SetPass(Effect(w, pid, l, r), pid, if lost then After(l, Failed) else After(l, r)))
  {
    var l := w.passes[pid];
    var l' := if lost then After(l, Failed) else After(l, r);
    var w' := SetPass(Effect(w, pid, l, r), pid, l');
    if l.pc.AddFirewall? && r.Ok? {
      PolicyPosted(w, pid, l');
    } else if l.pc.PostNat? && r.Nat? && !lost {
      NatPosted(w, pid, l');
    } else {
      QuietEffect(w, pid, l, r);
      NotCarrying(l, if lost then Failed else r);
      QuietKeeps(w, w');
    }
  }

  lemma StepKeepsPolicies(w: World, s: Step)
    requires PolicyInv(w) && Enabled(w, s)
    ensures PolicyInv(Apply(w, s))
  {
    match s
    case Deliver(pid, r) => ReplyKeepsPolicies(w, pid, r, false);
    case LoseReply(pid, r) => ReplyKeepsPolicies(w, pid, r, true);
    case _ => QuietKeeps(w, Apply(w, s));
  }

  lemma {:induction false} RunKeepsPolicies(w: World, run: seq<Step>)
    requires PolicyInv(w) && Legal(w, run)
    ensures PolicyInv(Exec(w, run))
    decreases |run|
  {
    if run != [] {
      StepKeepsPolicies(w, run[0]);
      RunKeepsPolicies(Apply(w, run[0]), run[1..]);
    }
  }

  /** Each policy names the NAT that the same pass attached for the same machine, and no NAT is
      ever given a second policy, however passes overlap or repeat. */
  lemma OnePolicyPerNat(w: World, i: nat) returns (j: nat)
    requires Reachable(w) && i < |w.log| && w.log[i].FirewallAdded?
    ensures j < i && w.log[j] == NatAttached(w.log[i].uid, w.log[i].pid, w.log[i].natId)
    ensures forall k :: PolicyAt(w.log, k, w.log[i].natId) ==> k == i
  {
    var w0: World, run: seq<Step> :| Init(w0) && Legal(w0, run) && Exec(w0, run) == w;
    RunKeepsPolicies(w0, run);
    assert PolicyAt(w.log, i, w.log[i].natId);
    var j' :| 0 <= j' < i && j' < |w.log| && w.log[j'] == NatAttached(w.log[i].uid, w.log[i].pid, w.log[i].natId);
    j := j';
  }
}

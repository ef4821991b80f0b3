/** What each pass said and heard over a run, and what its calls did. */
module Transcript {
  import opened KTObjects
  import opened Pass
  import opened World
  import opened Invariant
  import opened Preservation
  import S = Script

  // ---------- the replies a pass heard ----------

  /** From step n on, the pass did not crash. */
  predicate NoCrash(run: seq<Step>, n: nat, pid: nat) {
    forall i :: n <= i < |run| && run[i].Crash? ==> run[i].pid != pid
  }

  /** What the calls of a pass were answered with along a run; a lost reply is a failure. */
  function Replies(run: seq<Step>, pid: nat): seq<Reply> {
    if run == [] then []
    else
      (if run[0].Deliver? && run[0].pid == pid then [run[0].reply]
       else if run[0].LoseReply? && run[0].pid == pid then [Failed]
       else []) + Replies(run[1..], pid)
  }

  /** A pass that did not crash stands where its replies took it. */
  lemma {:induction false} PassIsItsReplies(w: World, run: seq<Step>, pid: nat)
    requires Legal(w, run) && pid in w.passes && NoCrash(run, 0, pid)
    ensures pid in Exec(w, run).passes && Exec(w, run).passes[pid] == Ran(w.passes[pid], Replies(run, pid))
    decreases |run|
  {
    if run != [] {
      var w1 := Apply(w, run[0]);
      assert run[0].Crash? ==> run[0].pid != pid;
      assert NoCrash(run[1..], 0, pid) by {
        assert forall i :: 0 <= i < |run| - 1 ==> run[1..][i] == run[i + 1];
      }
      PassIsItsReplies(w1, run[1..], pid);
      RanCons(w, run[0], pid, Replies(run[1..], pid));
    }
  }

  lemma RanCons(w: World, s: Step, pid: nat, rest: seq<Reply>)
    requires Enabled(w, s) && pid in w.passes && (s.Crash? ==> s.pid != pid)
    ensures var own := if s.Deliver? && s.pid == pid then [s.reply]
                       else if s.LoseReply? && s.pid == pid then [Failed]
                       else [];
            pid in Apply(w, s).passes && Ran(w.passes[pid], own + rest) == Ran(Apply(w, s).passes[pid], rest)
  {
    var l := w.passes[pid];
    if s.Deliver? && s.pid == pid {
      assert ([s.reply] + rest)[1..] == rest;
    } else if s.LoseReply? && s.pid == pid {
      assert ([Failed] + rest)[1..] == rest;
    } else {
      assert [] + rest == rest;
    }
  }

  /** A run in two parts. */
  lemma {:induction false} SplitRun(first: World, a: seq<Step>, b: seq<Step>)
    requires Legal(first, a + b)
    ensures Legal(first, a) && Legal(Exec(first, a), b) && Exec(first, a + b) == Exec(Exec(first, a), b)
    decreases |a|
  {
    if a == [] {
      assert a + b == b;
    } else {
      assert (a + b)[1..] == a[1..] + b;
      SplitRun(Apply(first, a[0]), a[1..], b);
    }
  }

  lemma {:induction false} RepliesAppend(a: seq<Step>, b: seq<Step>, pid: nat)
    ensures Replies(a + b, pid) == Replies(a, pid) + Replies(b, pid)
  {
    if a == [] {
      assert a + b == b;
    } else {
      assert (a + b)[1..] == a[1..] + b;
      RepliesAppend(a[1..], b, pid);
    }
  }

  /** What was heard from step n on, in two parts. */
  lemma RepliesSince(run: seq<Step>, n: nat, m: nat, pid: nat)
    requires n <= m <= |run|
    ensures Replies(run[n..], pid) == Replies(run[n..m], pid) + Replies(run[m..], pid)
  {
    assert run[n..] == run[n..m] + run[m..];
    RepliesAppend(run[n..m], run[m..], pid);
  }

  lemma NoCrashLater(run: seq<Step>, n: nat, m: nat, pid: nat)
    requires NoCrash(run, n, pid) && n <= m <= |run|
    ensures NoCrash(run[m..], 0, pid)
  {
    assert forall i :: 0 <= i < |run| - m ==> run[m..][i] == run[m + i];
  }

  /** A pass that began with step n of a run: its replies took it where it is. */
  lemma BegunPass(first: World, run: seq<Step>, n: nat, w: World, pid: nat)
    requires n < |run| && Legal(first, run) && NoCrash(run, n, pid)
    requires Legal(first, run[..n + 1]) && Exec(first, run[..n + 1]) == w && pid in w.passes
    ensures pid in Exec(first, run).passes
    ensures Exec(first, run).passes[pid] == Ran(w.passes[pid], Replies(run[n + 1..], pid))
  {
    assert run == run[..n + 1] + run[n + 1..];
    SplitRun(first, run[..n + 1], run[n + 1..]);
    NoCrashLater(run, n, n + 1, pid);
    PassIsItsReplies(w, run[n + 1..], pid);
  }

  lemma LegalPrefix(w0: World, run: seq<Step>, n: nat)
    requires Legal(w0, run) && n < |run|
    ensures Legal(w0, run[..n]) && Enabled(Exec(w0, run[..n]), run[n])
    ensures Legal(w0, run[..n + 1]) && Exec(w0, run[..n + 1]) == Apply(Exec(w0, run[..n]), run[n])
  {
    assert run == run[..n] + run[n..] && run[n..][0] == run[n];
    SplitRun(w0, run[..n], run[n..]);
    ExecAppend(w0, run[..n], run[n]);
    assert run[..n] + [run[n]] == run[..n + 1];
  }

  /** In every run, what a pass that began with step n is about to say, or how it ended, is what
      the text says for the version it read and the replies it heard. */
  lemma EveryPassFollowsScript(w0: World, run: seq<Step>, n: nat)
    requires Legal(w0, run) && n < |run| && run[n].Begin? && NoCrash(run, n, run[n].pid)
    ensures Legal(w0, run[..n]) && Enabled(Exec(w0, run[..n]), run[n])
    ensures var s := run[n];
            var m := Exec(w0, run[..n]).machines[s.uid];
            && s.pid in Exec(w0, run).passes
            && S.Now(Exec(w0, run).passes[s.pid]) ==
               S.Expected(m.ns, m.name, s.cluster, s.rv, m.versions[s.rv], Replies(run[n + 1..], s.pid))
  {
    var s := run[n];
    LegalPrefix(w0, run, n);
    var w := Exec(w0, run[..n]);
    var m := w.machines[s.uid];
    BegunPass(w0, run, n, Apply(w, s), s.pid);
    S.PassFollowsScript(s.uid, m.ns, m.name, s.cluster, s.rv, m.versions[s.rv], Replies(run[n + 1..], s.pid));
  }

  // ---------- what an answered call does ----------

  /** The newest version of a machine with one more status after it. */
  function WithVersion(w: World, uid: nat, st: Status): map<nat, Machine>
    requires uid in w.machines
  {
    w.machines[uid := w.machines[uid].(versions := w.machines[uid].versions + [st])]
  }

  /** Each answered call does to the store and the cloud what its arguments say, and nothing
      else: a status is written over the version it was read at, a server and a NAT are the
      machine's and on the IP that was asked for, and a Secret holds the data it was given. */
  predicate Does(w: World, pid: nat, uid: nat, call: S.Call, r: Reply, w': World) {
    match call
    case UpdateStatus(rv, st) =>
      if r.Written? then
        && uid in w.machines && w.machines[uid].live && rv + 1 == |w.machines[uid].versions|
        && w' == w.(machines := WithVersion(w, uid, st),
                    log := w.log + [StatusWritten(uid, pid, w.machines[uid].versions[rv], st)])
      else w' == w
    case PostServer(join) =>
      if r.Vm? then
        && r.vm.id != "" && r.vm.id !in w.vms
        && w' == w.(vms := w.vms[r.vm.id := uid], log := w.log + [VmAccepted(uid, r.vm.id, join)])
      else w' == w
    case PostStaticNat(ipId, _) =>
      if r.Nat? then
        && r.natId !in w.nats && IpFree(w, ipId)
        && w' == w.(nats := w.nats[r.natId := NatRecord(uid, ipId)], log := w.log + [NatAttached(uid, pid, r.natId)])
      else w' == w
    case AddFirewallPolicy(natId) =>
      if r.Ok? then w' == w.(log := w.log + [FirewallAdded(uid, pid, natId)]) else w' == w
    case CreateKubeconfig(cluster, data) =>
      if r.Ok? then
        && cluster !in w.secrets
        && w' == w.(secrets := w.secrets[cluster := Secret(Some(pid), data)],
                    log := w.log + [SecretCreated(cluster, pid)])
      else w' == w
    case _ => w' == w
  }

  lemma Unanswered(w: World, pid: nat, l: Local, r: Reply)
    requires CanReply(w, l, r) && !(IsWrite(l.pc) && r.Written?) && !r.Vm? && !r.Nat? && !r.Ok?
    ensures Effect(w, pid, l, r) == w
  {
  }

  lemma WriteDoes(w: World, pid: nat, l: Local)
    requires IsWrite(l.pc) && CanReply(w, l, Written) && l.uid in w.machines && |w.machines[l.uid].versions| > 0
    ensures Does(w, pid, l.uid, S.UpdateStatus(l.rv, WriteOf(l)), Written, Effect(w, pid, l, Written))
  {
    WrittenIsCurrent(w, l);
    MachinesAfter(w, pid, l, Written);
  }

  lemma OtherDoes(w: World, pid: nat, l: Local, r: Reply)
    requires CanReply(w, l, r) && !IsWrite(l.pc) && !IsPost(l.pc) && !l.pc.PostNat? && !l.pc.CreateSecret?
    ensures Effect(w, pid, l, r) ==
            if l.pc.AddFirewall? && r.Ok? then NoteFirewall(w, pid, l.uid, LastNat(l.st)) else w
  {
  }

  lemma CallDoes(w: World, pid: nat, l: Local, r: Reply)
    requires CanReply(w, l, r) && (l.uid in w.machines ==> |w.machines[l.uid].versions| > 0)
    ensures S.Now(l).Asks? && Does(w, pid, l.uid, S.Now(l).call, r, Effect(w, pid, l, r))
  {
    EffectEvents(w, pid, l, r);
    if IsWrite(l.pc) {
      if r.Written? {
        WriteDoes(w, pid, l);
      } else {
        Unanswered(w, pid, l, r);
      }
    } else if IsPost(l.pc) {
      if r.Vm? {
        PostDoes(w, pid, l, r);
      } else {
        Unanswered(w, pid, l, r);
      }
    } else if l.pc.PostNat? {
      if r.Nat? {
        NatDoes(w, pid, l, r);
      } else {
        Unanswered(w, pid, l, r);
      }
    } else if l.pc.CreateSecret? {
      if r.Ok? {
        SecretDoes(w, pid, l);
      } else {
        Unanswered(w, pid, l, r);
      }
    } else {
      OtherDoes(w, pid, l, r);
    }
  }

  // ---------- the probe and the Secret ----------

  /** A call a pass made, with the reply it saw. */
  datatype Exchange = Exchange(call: S.Call, reply: Reply)

  function Own(w: World, s: Step, pid: nat): seq<Exchange>
    requires Enabled(w, s)
  {
    if (s.Deliver? || s.LoseReply?) && s.pid == pid && S.Now(w.passes[pid]).Asks? then
      [Exchange(S.Now(w.passes[pid]).call, if s.Deliver? then s.reply else Failed)]
    else []
  }

  /** Everything a pass said and heard along a run. */
  function Talk(w: World, run: seq<Step>, pid: nat): seq<Exchange>
    requires Legal(w, run)
    decreases |run|
  {
    if run == [] then [] else Own(w, run[0], pid) + Talk(Apply(w, run[0]), run[1..], pid)
  }

  /** The first kubeconfig that was answered with a 2xx and read in full. */
  function FirstBody(t: seq<Exchange>): Option<string> {
    if t == [] then None
    else if t[0].call.GetAdminConf? && t[0].reply.Body? then Some(t[0].reply.data)
    else FirstBody(t[1..])
  }

  /** The probe of this address was answered yes. */
  predicate SaidYes(t: seq<Exchange>, ip: string) {
    exists i :: 0 <= i < |t| && t[i] == Exchange(S.GetReadiness(ip), Ok)
  }

  predicate AnyYes(t: seq<Exchange>) {
    exists i :: 0 <= i < |t| && t[i].call.GetReadiness? && t[i].reply.Ok?
  }

  lemma {:induction false} FirstBodyAppend(t: seq<Exchange>, e: Exchange)
    ensures FirstBody(t + [e]) ==
            if FirstBody(t).Some? then FirstBody(t)
            else if e.call.GetAdminConf? && e.reply.Body? then Some(e.reply.data)
            else None
  {
    if t == [] {
      assert t + [e] == [e] && [e][1..] == [];
    } else {
      assert (t + [e])[1..] == t[1..] + [e];
      FirstBodyAppend(t[1..], e);
    }
  }

  lemma YesAppend(t: seq<Exchange>, e: Exchange)
    ensures forall ip :: SaidYes(t, ip) ==> SaidYes(t + [e], ip)
    ensures AnyYes(t) ==> AnyYes(t + [e])
    ensures e.call.GetReadiness? && e.reply.Ok? ==> SaidYes(t + [e], e.call.ip) && AnyYes(t + [e])
    ensures forall ip :: SaidYes(t, ip) ==> AnyYes(t)
  {
    assert (t + [e])[|t|] == e;
    assert forall i :: 0 <= i < |t| ==> (t + [e])[i] == t[i];
  }

  /** Past the probe, and past the kubeconfig. */
  predicate IsPast(pc: Pc) { pc.Fetch? || pc.CreateSecret? || pc.MarkReady? }

  ghost predicate PassTold(t: seq<Exchange>, l: Local) {
    && (!l.pc.CreateSecret? && !l.pc.MarkReady? && !l.pc.Done? ==> FirstBody(t).None?)
    && (IsPast(l.pc) ==> SaidYes(t, S.FirstIp(l.st)))
    && (l.pc.Fetch? ==> l.pc.got.None? || l.pc.torn)
    && (l.pc.CreateSecret? ==> FirstBody(t) == Some(l.pc.data))
  }

  /** The Secrets and ready writes of a pass, against what it heard. */
  ghost predicate DoneTold(t: seq<Exchange>, w: World, pid: nat) {
    && (forall c :: c in w.secrets && w.secrets[c].creator == Some(pid) ==>
          FirstBody(t) == Some(w.secrets[c].data) && AnyYes(t))
    && (forall i :: 0 <= i < |w.log| && IsFlip(w.log[i]) && w.log[i].pid == pid ==> AnyYes(t))
  }

  ghost predicate Told(t: seq<Exchange>, w: World, pid: nat) {
    && DoneTold(t, w, pid)
    && if pid in w.passes then PassTold(t, w.passes[pid]) else t == []
  }

  /** One exchange moves what a pass was told as it moves the pass. */
  lemma ToldNext(t: seq<Exchange>, l: Local, r: Reply)
    requires PassTold(t, l) && S.Now(l).Asks?
    ensures PassTold(t + [Exchange(S.Now(l).call, r)], After(l, r))
  {
    var e := Exchange(S.Now(l).call, r);
    FirstBodyAppend(t, e);
    YesAppend(t, e);
    ToldShape(l, r);
  }

  /** How a pass comes past its probe and past its kubeconfig. */
  lemma ToldShape(l: Local, r: Reply)
    requires !l.pc.Done? && (l.pc.Fetch? ==> l.pc.got.None? || l.pc.torn)
    ensures var l' := After(l, r);
            && (IsPast(l'.pc) ==> (l.pc.Probe? && r.Ok?) || IsPast(l.pc))
            && (IsPast(l'.pc) ==> S.FirstIp(l'.st) == S.FirstIp(l.st))
            && (l'.pc.Fetch? ==> l.pc.Probe? || l.pc.Fetch?)
            && (l'.pc.Fetch? ==> l'.pc.got.None? || l'.pc.torn)
            && (l.pc.Fetch? && r.Body? ==> l'.pc == CreateSecret(r.data))
            && (l'.pc.CreateSecret? ==> l.pc.Fetch? && r.Body?)
            && (l'.pc.MarkReady? ==> l.pc.CreateSecret?)
            && (l.pc.CreateSecret? || l.pc.MarkReady? ==> l'.pc.MarkReady? || l'.pc.Done?)
  {
  }

  lemma ToldReply(t: seq<Exchange>, w: World, pid: nat, r: Reply, seen: Reply)
    requires Told(t, w, pid) && pid in w.passes && MachinesOk(w) && PassOk(w, pid, w.passes[pid])
    requires CanReply(w, w.passes[pid], r) && (seen == r || seen == Failed) && S.Now(w.passes[pid]).Asks?
    ensures var l := w.passes[pid];
            Told(t + [Exchange(S.Now(l).call, seen)], SetPass(Effect(w, pid, l, r), pid, After(l, seen)), pid)
  {
    var l := w.passes[pid];
    var e := Exchange(S.Now(l).call, seen);
    ToldNext(t, l, seen);
    YesAppend(t, e);
    FirstBodyAppend(t, e);
    DoneReply(t, w, pid, l, r);
  }

  lemma DoneReply(t: seq<Exchange>, w: World, pid: nat, l: Local, r: Reply)
    requires DoneTold(t, w, pid) && PassTold(t, l) && CanReply(w, l, r) && MachinesOk(w) && PassOk(w, pid, l)
    ensures DoneTold(t, Effect(w, pid, l, r), pid)
  {
    YesHere(t, l);
    EffectEvents(w, pid, l, r);
    SecretsAfter(w, pid, l, r);
    if IsWrite(l.pc) && r.Written? {
      WrittenIsCurrent(w, l);
      FlipNeedsSecret(w, pid, l);
    }
  }

  lemma YesHere(t: seq<Exchange>, l: Local)
    requires PassTold(t, l)
    ensures IsPast(l.pc) ==> AnyYes(t)
  {
  }

  lemma SecretsAfter(w: World, pid: nat, l: Local, r: Reply)
    requires CanReply(w, l, r)
    ensures Effect(w, pid, l, r).secrets ==
            if l.pc.CreateSecret? && r.Ok? then w.secrets[l.cluster.name := Secret(Some(pid), l.pc.data)]
            else w.secrets
  {
  }

  /** A step of anyone else. */
  lemma ToldStays(t: seq<Exchange>, w: World, w': World, pid: nat)
    requires Told(t, w, pid)
    requires pid in w.passes <==> pid in w'.passes
    requires pid in w.passes ==> w'.passes[pid] == w.passes[pid] || w'.passes[pid].pc.Done?
    requires forall c :: c in w'.secrets && w'.secrets[c].creator == Some(pid) ==>
               c in w.secrets && w'.secrets[c] == w.secrets[c]
    requires w.log <= w'.log && forall i :: |w.log| <= i < |w'.log| ==> !(IsFlip(w'.log[i]) && w'.log[i].pid == pid)
    ensures Told(t, w', pid)
  {
    forall i | 0 <= i < |w'.log| && IsFlip(w'.log[i]) && w'.log[i].pid == pid ensures AnyYes(t) {
      assert i < |w.log| && w.log[i] == w'.log[i];
    }
  }

  lemma OthersReply(t: seq<Exchange>, w: World, pid: nat, q: nat, r: Reply, l': Local)
    requires Told(t, w, pid) && q != pid && q in w.passes && CanReply(w, w.passes[q], r)
    ensures Told(t, SetPass(Effect(w, q, w.passes[q], r), q, l'), pid)
  {
    var w' := SetPass(Effect(w, q, w.passes[q], r), q, l');
    SecretsAfter(w, q, w.passes[q], r);
    EffectEvents(w, q, w.passes[q], r);
    ToldStays(t, w, w', pid);
  }

  lemma BeginTold(t: seq<Exchange>, w: World, s: Step)
    requires s.Begin? && Enabled(w, s) && Told(t, w, s.pid)
    ensures Told(t, Apply(w, s), s.pid)
  {
  }

  lemma AskingNow(l: Local)
    requires !l.pc.Done?
    ensures S.Now(l).Asks?
  {
  }

  lemma ToldStep(t: seq<Exchange>, w: World, s: Step, pid: nat)
    requires Told(t, w, pid) && MachinesOk(w) && PassesOk(w) && Enabled(w, s)
    ensures Told(t + Own(w, s, pid), Apply(w, s), pid)
  {
    assert t + [] == t;
    if s.Deliver? && s.pid == pid {
      AskingNow(w.passes[pid]);
      ToldReply(t, w, pid, s.reply, s.reply);
    } else if s.LoseReply? && s.pid == pid {
      AskingNow(w.passes[pid]);
      ToldReply(t, w, pid, s.reply, Failed);
    } else if s.Deliver? {
      OthersReply(t, w, pid, s.pid, s.reply, After(w.passes[s.pid], s.reply));
    } else if s.LoseReply? {
      OthersReply(t, w, pid, s.pid, s.reply, After(w.passes[s.pid], Failed));
    } else if s.Begin? && s.pid == pid {
      BeginTold(t, w, s);
    } else {
      OutsideTold(t, w, s, pid);
    }
  }

  lemma OutsideTold(t: seq<Exchange>, w: World, s: Step, pid: nat)
    requires Told(t, w, pid) && Enabled(w, s) && !s.Deliver? && !s.LoseReply? && !(s.Begin? && s.pid == pid)
    ensures Told(t, Apply(w, s), pid)
  {
    ToldStays(t, w, Apply(w, s), pid);
  }

  lemma {:induction false} ToldRun(t: seq<Exchange>, w: World, run: seq<Step>, pid: nat)
    requires Told(t, w, pid) && Inv(w) && Legal(w, run)
    ensures Told(t + Talk(w, run, pid), Exec(w, run), pid)
    decreases |run|
  {
    if run == [] {
      assert t + [] == t;
    } else {
      var own, w1 := Own(w, run[0], pid), Apply(w, run[0]);
      ToldStepInv(t, w, run[0], pid);
      ToldRun(t + own, w1, run[1..], pid);
      Associative(t, own, Talk(w1, run[1..], pid));
    }
  }

  lemma Associative<T>(a: seq<T>, b: seq<T>, c: seq<T>)
    ensures a + b + c == a + (b + c)
  {
  }

  lemma ToldStepInv(t: seq<Exchange>, w: World, s: Step, pid: nat)
    requires Told(t, w, pid) && Inv(w) && Enabled(w, s)
    ensures Told(t + Own(w, s, pid), Apply(w, s), pid) && Inv(Apply(w, s))
  {
    ToldStep(t, w, s, pid);
    StepKeeps(w, s);
  }

  lemma ToldAll(w0: World, run: seq<Step>, pid: nat)
    requires Init(w0) && Legal(w0, run)
    ensures Told(Talk(w0, run, pid), Exec(w0, run), pid)
  {
    InitInv(w0);
    ToldRun([], w0, run, pid);
    assert [] + Talk(w0, run, pid) == Talk(w0, run, pid);
  }

  /** In every run, a Secret a pass created holds the first kubeconfig that pass was answered
      with a 2xx and read in full, and the pass's probe had been answered yes. */
  lemma SecretIsFirstBody(w0: World, run: seq<Step>, c: string, pid: nat)
    requires Init(w0) && Legal(w0, run)
    requires c in Exec(w0, run).secrets && Exec(w0, run).secrets[c].creator == Some(pid)
    ensures FirstBody(Talk(w0, run, pid)) == Some(Exec(w0, run).secrets[c].data)
    ensures AnyYes(Talk(w0, run, pid))
  {
    ToldAll(w0, run, pid);
  }

  /** In every run, a pass whose probes were never answered yes creates no Secret and makes no
      ready write. */
  lemma NoYesNoReady(w0: World, run: seq<Step>, pid: nat)
    requires Init(w0) && Legal(w0, run) && !AnyYes(Talk(w0, run, pid))
    ensures var w := Exec(w0, run);
            && (forall c :: c in w.secrets ==> w.secrets[c].creator != Some(pid))
            && (forall i :: 0 <= i < |w.log| && IsFlip(w.log[i]) ==> w.log[i].pid != pid)
            && (forall i :: 0 <= i < |w.log| && w.log[i].SecretCreated? ==> w.log[i].pid != pid)
  {
    var w := Exec(w0, run);
    ToldAll(w0, run, pid);
    InitInv(w0);
    RunKeeps(w0, run);
    forall i | 0 <= i < |w.log| && w.log[i].SecretCreated? ensures w.log[i].pid != pid {
      assert EventOk(w, i);
    }
  }

  /** In every run, a pass at its kubeconfig was told yes by the very address it fetches from. */
  lemma FetchesWhereProbed(w0: World, run: seq<Step>, pid: nat)
    requires Init(w0) && Legal(w0, run) && pid in Exec(w0, run).passes && IsPast(Exec(w0, run).passes[pid].pc)
    ensures SaidYes(Talk(w0, run, pid), S.FirstIp(Exec(w0, run).passes[pid].st))
  {
    ToldAll(w0, run, pid);
  }
}

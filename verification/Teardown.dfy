/** Deleting a machine's cloud resources: firewall policies, the firewall object, NATs, and the
    server last. Nothing calls this today, so it is modelled as a procedure of its own: what
    one call does, and what repeated calls can and cannot finish. */
module Teardown {
  import opened KTObjects

  // ---------- what is there, and attempts to delete it ----------

  /** Policies, NATs and servers on the cloud, and the stored firewall objects with the policy
      ids of their jobs. */
  datatype Estate = Estate(policies: set<string>, nats: set<string>, servers: set<string>,
      firewalls: map<Key, seq<string>>)

  datatype Target = PolicyOf(id: string) | NatOf(id: string) | FirewallOf(key: Key) | ServerOf(id: string)

  /** `took`: the thing was deleted; `seen`: the caller learned so. */
  datatype Attempt = Attempt(target: Target, took: bool, seen: bool)

  /** What DeleteVM reads of a machine: its server id, its key and its recorded NATs. */
  datatype Doomed = Doomed(id: string, key: Key, nats: seq<string>)

  predicate Exists(e: Estate, t: Target) {
    match t
    case PolicyOf(id) => id in e.policies
    case NatOf(id) => id in e.nats
    case FirewallOf(key) => key in e.firewalls
    case ServerOf(id) => id in e.servers
  }

  function Remove(e: Estate, t: Target): Estate {
    match t
    case PolicyOf(id) => e.(policies := e.policies - {id})
    case NatOf(id) => e.(nats := e.nats - {id})
    case FirewallOf(key) => e.(firewalls := e.firewalls - {key})
    case ServerOf(id) => e.(servers := e.servers - {id})
  }

  function Replay(e: Estate, log: seq<Attempt>): Estate {
    if log == [] then e
    else
      var before := Replay(e, log[..|log| - 1]);
      if log[|log| - 1].took then Remove(before, log[|log| - 1].target) else before
  }

  function Targets(log: seq<Attempt>): seq<Target> {
    seq(|log|, i requires 0 <= i < |log| => log[i].target)
  }

  function PolicyTargets(jobs: seq<string>): seq<Target> {
    seq(|jobs|, i requires 0 <= i < |jobs| => PolicyOf(jobs[i]))
  }

  function NatTargets(nats: seq<string>): seq<Target> {
    seq(|nats|, i requires 0 <= i < |nats| => NatOf(nats[i]))
  }

  /** Everything a full teardown tries, in order. */
  function Plan(m: Doomed, jobs: seq<string>): seq<Target> {
    PolicyTargets(jobs) + [FirewallOf(m.key)] + NatTargets(m.nats) + [ServerOf(m.id)]
  }

  /** Only what exists can be deleted, and only what was deleted can be seen to be. */
  predicate Honest(e: Estate, log: seq<Attempt>) {
    forall i :: 0 <= i < |log| ==>
      (log[i].took ==> Exists(Replay(e, log[..i]), log[i].target)) && (log[i].seen ==> log[i].took)
  }

  predicate SeenLast(log: seq<Attempt>) {
    log != [] && log[|log| - 1].seen
  }

  /** A call that deleted nothing: the server was gone (nil), or something failed first. */
  predicate StoppedEarly(e: Estate, m: Doomed, err: bool) {
    !err ==> m.id !in e.servers
  }

  /** A call that went to the end: every attempt of the plan, in order. */
  predicate RanAll(e: Estate, m: Doomed, log: seq<Attempt>, err: bool) {
    && err == !SeenLast(log)
    && if m.nats == [] then Targets(log) == [ServerOf(m.id)]
       else m.key in e.firewalls && Targets(log) == Plan(m, e.firewalls[m.key]) && log[|e.firewalls[m.key]|].seen
  }

  /** A call whose delete of the firewall object failed: policies tried, nothing else. */
  predicate StoppedAtObject(e: Estate, m: Doomed, log: seq<Attempt>, err: bool) {
    && err && m.nats != [] && m.key in e.firewalls && !SeenLast(log)
    && Targets(log) == PolicyTargets(e.firewalls[m.key]) + [FirewallOf(m.key)]
  }

  /** One call of DeleteVM, from what it attempted to what it returned. */
  predicate Called(e: Estate, m: Doomed, log: seq<Attempt>, err: bool, e': Estate) {
    && Honest(e, log) && e' == Replay(e, log)
    && if log == [] then StoppedEarly(e, m, err) else RanAll(e, m, log, err) || StoppedAtObject(e, m, log, err)
  }

  // ---------- what one call leaves behind ----------

  lemma {:induction false} ReplayKeeps(e: Estate, log: seq<Attempt>, t: Target)
    ensures Exists(Replay(e, log), t) <==>
              Exists(e, t) && forall i :: 0 <= i < |log| && log[i].target == t ==> !log[i].took
    ensures forall k :: k in Replay(e, log).firewalls ==>
              k in e.firewalls && Replay(e, log).firewalls[k] == e.firewalls[k]
  {
    if log != [] {
      ReplayKeeps(e, log[..|log| - 1], t);
      assert forall i :: 0 <= i < |log| - 1 ==> log[..|log| - 1][i] == log[i];
    }
  }

  predicate Took(log: seq<Attempt>, t: Target) {
    exists i :: 0 <= i < |log| && log[i].target == t && log[i].took
  }

  /** Where each attempt of a full teardown stands in its log. */
  lemma PlanLayout(m: Doomed, jobs: seq<string>, log: seq<Attempt>)
    requires Targets(log) == Plan(m, jobs)
    ensures |log| == |jobs| + |m.nats| + 2
    ensures forall i :: 0 <= i < |jobs| ==> log[i].target == PolicyOf(jobs[i])
    ensures log[|jobs|].target == FirewallOf(m.key)
    ensures forall i :: 0 <= i < |m.nats| ==> log[|jobs| + 1 + i].target == NatOf(m.nats[i])
    ensures log[|log| - 1].target == ServerOf(m.id)
  {
    var plan := Plan(m, jobs);
    assert |Targets(log)| == |plan|;
    forall i | 0 <= i < |log| ensures log[i].target == plan[i] {
      assert Targets(log)[i] == log[i].target;
    }
  }

  /** Nil on a live server with an IP: each recorded policy, then each recorded NAT, got its
      attempt in list order, the firewall object went in between, and the server last; what is
      left of the recorded policies and NATs is exactly what no attempt deleted; and nothing
      that was not recorded was touched. */
  lemma TeardownAccounting(e: Estate, m: Doomed, log: seq<Attempt>, e': Estate)
    requires Called(e, m, log, false, e') && m.id in e.servers && m.nats != []
    ensures m.key in e.firewalls && Targets(log) == Plan(m, e.firewalls[m.key])
    ensures m.key !in e'.firewalls && m.id !in e'.servers
    ensures forall p :: p in e.firewalls[m.key] && p in e.policies ==>
              (p in e'.policies <==> !Took(log, PolicyOf(p)))
    ensures forall n :: n in m.nats && n in e.nats ==> (n in e'.nats <==> !Took(log, NatOf(n)))
    ensures forall p :: p in e.policies && p !in e.firewalls[m.key] ==> p in e'.policies
    ensures forall n :: n in e.nats && n !in m.nats ==> n in e'.nats
    ensures forall s :: s in e.servers && s != m.id ==> s in e'.servers
  {
    var jobs := e.firewalls[m.key];
    PlanLayout(m, jobs, log);
    ReplayKeeps(e, log, FirewallOf(m.key));
    ReplayKeeps(e, log, ServerOf(m.id));
    forall p | p in jobs && p in e.policies ensures p in e'.policies <==> !Took(log, PolicyOf(p)) {
      ReplayKeeps(e, log, PolicyOf(p));
    }
    forall n | n in m.nats && n in e.nats ensures n in e'.nats <==> !Took(log, NatOf(n)) {
      ReplayKeeps(e, log, NatOf(n));
    }
    OthersKept(e, m, jobs, log);
  }

  /** Whatever is not in the plan is not touched. */
  lemma OthersKept(e: Estate, m: Doomed, jobs: seq<string>, log: seq<Attempt>)
    requires Targets(log) == Plan(m, jobs)
    ensures forall p :: p in e.policies && p !in jobs ==> p in Replay(e, log).policies
    ensures forall n :: n in e.nats && n !in m.nats ==> n in Replay(e, log).nats
    ensures forall s :: s in e.servers && s != m.id ==> s in Replay(e, log).servers
  {
    PlanLayout(m, jobs, log);
    forall p | p in e.policies && p !in jobs ensures p in Replay(e, log).policies {
      OffPlan(m, jobs, log, PolicyOf(p));
      ReplayKeeps(e, log, PolicyOf(p));
    }
    forall n | n in e.nats && n !in m.nats ensures n in Replay(e, log).nats {
      OffPlan(m, jobs, log, NatOf(n));
      ReplayKeeps(e, log, NatOf(n));
    }
    forall s | s in e.servers && s != m.id ensures s in Replay(e, log).servers {
      OffPlan(m, jobs, log, ServerOf(s));
      ReplayKeeps(e, log, ServerOf(s));
    }
  }

  lemma OffPlan(m: Doomed, jobs: seq<string>, log: seq<Attempt>, t: Target)
    requires Targets(log) == Plan(m, jobs) && t !in Plan(m, jobs)
    ensures forall i :: 0 <= i < |log| ==> log[i].target != t
  {
    forall i | 0 <= i < |log| ensures log[i].target != t {
      assert Targets(log)[i] == log[i].target && log[i].target in Plan(m, jobs);
    }
  }

  // ---------- what repeated calls can finish ----------

  /** Some call could still return nil: the server answers 404, or it can be deleted. */
  predicate CanFinish(e: Estate, m: Doomed) {
    m.id in e.servers ==> m.nats == [] || m.key in e.firewalls
  }

  /** The attempts of a call in which every delete of something there works. */
  function Clean(e: Estate, plan: seq<Target>): seq<Attempt> {
    if plan == [] then []
    else
      var log := Clean(e, plan[..|plan| - 1]);
      var t := plan[|plan| - 1];
      log + [Attempt(t, Exists(Replay(e, log), t), Exists(Replay(e, log), t))]
  }

  lemma {:induction false} CleanHonest(e: Estate, plan: seq<Target>)
    ensures Honest(e, Clean(e, plan)) && Targets(Clean(e, plan)) == plan
  {
    if plan != [] {
      var init := plan[..|plan| - 1];
      CleanHonest(e, init);
      var log := Clean(e, plan);
      assert log[..|log| - 1] == Clean(e, init);
      forall i | 0 <= i < |log|
        ensures (log[i].took ==> Exists(Replay(e, log[..i]), log[i].target)) && (log[i].seen ==> log[i].took)
        ensures log[i].target == plan[i]
      {
        if i < |log| - 1 {
          assert log[..i] == Clean(e, init)[..i];
          assert Targets(Clean(e, init))[i] == Clean(e, init)[i].target;
        }
      }
    }
  }

  /** An attempt at something that is there, and not tried before, works. */
  lemma {:induction false} CleanSees(e: Estate, plan: seq<Target>, i: nat)
    requires i < |plan| && Exists(e, plan[i]) && forall j :: 0 <= j < i ==> plan[j] != plan[i]
    ensures |Clean(e, plan)| == |plan| && Clean(e, plan)[i].seen
  {
    CleanHonest(e, plan);
    assert |Targets(Clean(e, plan))| == |plan|;
    var init := plan[..|plan| - 1];
    CleanHonest(e, init);
    assert |Targets(Clean(e, init))| == |init|;
    if i < |plan| - 1 {
      CleanSees(e, init, i);
    } else {
      var log := Clean(e, init);
      forall j | 0 <= j < |log| ensures log[j].target != plan[i] {
        assert Targets(log)[j] == init[j] == plan[j];
      }
      ReplayKeeps(e, log, plan[i]);
    }
  }

  /** Nil means that the server's delete was seen, so it was there. */
  lemma NilSawServer(e: Estate, m: Doomed, log: seq<Attempt>, e': Estate)
    requires Called(e, m, log, false, e') && log != []
    ensures m.id in e.servers && (m.nats == [] || m.key in e.firewalls)
  {
    var last := |log| - 1;
    assert Targets(log)[last] == log[last].target;
    if m.nats != [] {
      PlanLayout(m, e.firewalls[m.key], log);
    }
    ReplayKeeps(e, log[..last], ServerOf(m.id));
  }

  /** A call can return nil if and only if the server is gone, or it is there and either no IP
      was recorded or the firewall object is still there. */
  lemma FinishableExactly(e: Estate, m: Doomed)
    ensures CanFinish(e, m) <==> exists log, e' :: Called(e, m, log, false, e')
  {
    if m.id !in e.servers {
      assert Called(e, m, [], false, e);
    } else if m.nats == [] {
      var plan := [ServerOf(m.id)];
      CleanHonest(e, plan);
      CleanSees(e, plan, 0);
      assert Called(e, m, Clean(e, plan), false, Replay(e, Clean(e, plan)));
    } else if m.key in e.firewalls {
      var jobs := e.firewalls[m.key];
      var plan := Plan(m, jobs);
      CleanHonest(e, plan);
      CleanSees(e, plan, |jobs|);
      CleanSees(e, plan, |plan| - 1);
      assert Called(e, m, Clean(e, plan), false, Replay(e, Clean(e, plan)));
    }
    forall log, e' | Called(e, m, log, false, e') ensures CanFinish(e, m) {
      if log != [] {
        NilSawServer(e, m, log, e');
      }
    }
  }

  /** The object is gone and the server is not. */
  predicate IsStuck(e: Estate, m: Doomed) {
    m.nats != [] && m.key !in e.firewalls && m.id in e.servers
  }

  /** A call on a live server leaves it stuck if and only if it deleted the firewall object and
      not the server. */
  lemma BlocksExactly(e: Estate, m: Doomed, log: seq<Attempt>, err: bool, e': Estate)
    requires Called(e, m, log, err, e') && m.id in e.servers && m.nats != [] && m.key in e.firewalls
    ensures IsStuck(e', m) <==> Took(log, FirewallOf(m.key)) && !Took(log, ServerOf(m.id))
  {
    ReplayKeeps(e, log, FirewallOf(m.key));
    ReplayKeeps(e, log, ServerOf(m.id));
  }

  /** A machine with an IP whose cluster has no rules never got a firewall object: its calls
      are stuck from the start. */
  lemma NoRulesNoTeardown(e: Estate, m: Doomed)
    requires m.id in e.servers && m.nats != [] && m.key !in e.firewalls
    ensures IsStuck(e, m) && forall log, err, e' :: Called(e, m, log, err, e') ==> err && log == [] && e' == e
  {
    assert Replay(e, []) == e;
  }

  /** Such a call exists: everything goes but the server, whose delete fails. */
  lemma ServerDeleteFails() returns (e: Estate, m: Doomed, log: seq<Attempt>)
    ensures Called(e, m, log, true, Replay(e, log)) && CanFinish(e, m)
    ensures IsStuck(Replay(e, log), m) && !CanFinish(Replay(e, log), m)
  {
    m := Doomed("vm", Key("ns", "control-plane"), ["nat"]);
    e := Estate({"policy"}, {"nat"}, {"vm"}, map[m.key := ["policy"]]);
    var plan := Plan(m, ["policy"]);
    assert plan == [PolicyOf("policy"), FirewallOf(m.key), NatOf("nat"), ServerOf("vm")];
    var init := plan[..3];
    var tried := Clean(e, init);
    CleanHonest(e, init);
    CleanSees(e, init, 1);
    assert |Targets(tried)| == 3;
    log := tried + [Attempt(ServerOf("vm"), false, false)];
    assert Targets(log) == plan by {
      forall i | 0 <= i < 3 ensures Targets(log)[i] == plan[i] {
        assert Targets(tried)[i] == init[i];
      }
    }
    assert forall i :: 0 <= i < 3 ==> log[..i] == tried[..i];
    assert log[..3] == tried;
    assert Honest(e, log);
    assert log[1].target == FirewallOf(m.key) && log[1].took;
    BlocksExactly(e, m, log, true, Replay(e, log));
    PlanLayout(m, ["policy"], log);
  }

  /** One call after another for the same machine, nobody else acting. */
  predicate Calls(e: Estate, m: Doomed, logs: seq<seq<Attempt>>, errs: seq<bool>, e': Estate)
    requires |logs| == |errs|
    decreases |logs|
  {
    if logs == [] then e' == e
    else
      && Called(e, m, logs[0], errs[0], Replay(e, logs[0]))
      && Calls(Replay(e, logs[0]), m, logs[1..], errs[1..], e')
  }

  /** Once the object is gone and the server is not, no retry ever gets anywhere: every call
      fails before it attempts anything, and the server and whatever else is left stay. */
  lemma {:induction false} StuckForever(e: Estate, m: Doomed, logs: seq<seq<Attempt>>, errs: seq<bool>, e': Estate)
    requires |logs| == |errs| && Calls(e, m, logs, errs, e') && IsStuck(e, m)
    ensures e' == e && forall i :: 0 <= i < |logs| ==> logs[i] == [] && errs[i]
  {
    if logs != [] {
      assert Replay(e, []) == e;
      StuckForever(e, m, logs[1..], errs[1..], e');
    }
  }

  predicate TriesNats(log: seq<Attempt>) {
    exists i :: 0 <= i < |log| && log[i].target.NatOf?
  }

  lemma TriedNats(e: Estate, m: Doomed, log: seq<Attempt>, err: bool, e': Estate)
    requires Called(e, m, log, err, e') && TriesNats(log)
    ensures m.nats != [] && m.key !in e'.firewalls
  {
    var i :| 0 <= i < |log| && log[i].target.NatOf?;
    assert Targets(log)[i] == log[i].target;
    assert !StoppedAtObject(e, m, log, err);
    PlanLayout(m, e.firewalls[m.key], log);
    ReplayKeeps(e, log, FirewallOf(m.key));
  }

  /** The NATs get their attempts in one call at most: a NAT whose delete failed then is never
      tried again, and neither is a server whose delete failed after it. */
  lemma {:induction false} NatsTriedOnce(e: Estate, m: Doomed, logs: seq<seq<Attempt>>, errs: seq<bool>,
      e': Estate, i: nat, j: nat)
    requires |logs| == |errs| && Calls(e, m, logs, errs, e') && i < j < |logs| && TriesNats(logs[i])
    ensures logs[j] == []
    decreases i
  {
    var e1 := Replay(e, logs[0]);
    if i > 0 {
      NatsTriedOnce(e1, m, logs[1..], errs[1..], e', i - 1, j - 1);
    } else {
      TriedNats(e, m, logs[0], errs[0], e1);
      NoObjectNoAttempt(e1, m, logs[1..], errs[1..], e', j - 1);
    }
  }

  lemma {:induction false} NoObjectNoAttempt(e: Estate, m: Doomed, logs: seq<seq<Attempt>>, errs: seq<bool>,
      e': Estate, j: nat)
    requires |logs| == |errs| && Calls(e, m, logs, errs, e') && j < |logs|
    requires m.nats != [] && m.key !in e.firewalls
    ensures logs[j] == []
    decreases j
  {
    assert Replay(e, []) == e;
    if j > 0 {
      NoObjectNoAttempt(e, m, logs[1..], errs[1..], e', j - 1);
    }
  }
}

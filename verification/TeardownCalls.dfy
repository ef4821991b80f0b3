/** DeleteVM as it runs: deletes in index loops whose errors are only logged, over the estate
    of `Teardown`. */
module TeardownCalls {
  import opened KTObjects
  import opened Teardown

  datatype ServerReply = Present | NotFound404 | NoAnswer

  /** What a call hears from its two reads. */
  datatype Answer = Server(reply: ServerReply) | Object(found: bool)

  class Plant {
    var e: Estate
    ghost const before: Estate
    ghost var log: seq<Attempt>
    ghost var heard: seq<Answer>

    ghost predicate Valid()
      reads this
    {
      e == Replay(before, log) && Honest(before, log)
    }

    /** Anything may be there, and nothing was tried yet. */
    constructor (e: Estate)
      ensures Valid() && this.e == e && before == e && log == [] && heard == []
    {
      this.e, before, log, heard := e, e, [], [];
    }

    /** A delete: of something that is not there it fails; of something that is, it may fail,
        work, or work unseen. */
    method Delete(t: Target) returns (err: bool)
      requires Valid()
      modifies this`e, this`log
      ensures Valid() && log != [] && log == old(log) + [Attempt(t, log[|log| - 1].took, !err)]
    {
      var took: bool := *;
      took := took && Exists(e, t);
      var seen: bool := *;
      err := !(took && seen);
      Extend(before, log, Attempt(t, took, !err));
      if took {
        e := Remove(e, t);
      }
      log := log + [Attempt(t, took, !err)];
    }

    /** A server that is there is never answered with 404. */
    method GetServer(id: string) returns (r: ServerReply)
      requires Valid()
      modifies this`heard
      ensures Valid() && heard == old(heard) + [Server(r)]
      ensures r.NotFound404? ==> id !in e.servers
    {
      r := *;
      if r.NotFound404? && id in e.servers {
        r := NoAnswer;
      }
      heard := heard + [Server(r)];
    }

    /** The object's jobs, read from the store itself; none when it is missing or cannot be read. */
    method GetFirewall(key: Key) returns (jobs: Option<seq<string>>)
      requires Valid()
      modifies this`heard
      ensures Valid() && heard == old(heard) + [Object(jobs.Some?)]
      ensures jobs.Some? ==> key in e.firewalls && jobs.value == e.firewalls[key]
    {
      var fails: bool := *;
      jobs := if key in e.firewalls && !fails then Some(e.firewalls[key]) else None;
      heard := heard + [Object(jobs.Some?)];
    }
  }

  lemma Extend(e: Estate, log: seq<Attempt>, a: Attempt)
    requires Honest(e, log) && (a.took ==> Exists(Replay(e, log), a.target)) && (a.seen ==> a.took)
    ensures Honest(e, log + [a])
    ensures Replay(e, log + [a]) == if a.took then Remove(Replay(e, log), a.target) else Replay(e, log)
  {
    var log' := log + [a];
    assert log'[..|log|] == log;
    forall i | 0 <= i < |log'|
      ensures (log'[i].took ==> Exists(Replay(e, log'[..i]), log'[i].target)) && (log'[i].seen ==> log'[i].took)
    {
      assert i < |log| ==> log'[..i] == log[..i];
    }
  }

  lemma TargetsAppend(log: seq<Attempt>, a: Attempt)
    ensures Targets(log + [a]) == Targets(log) + [a.target]
  {
  }

  /** Every recorded policy in list order, whatever happens to each; then the object. Nothing is
      tried if and only if the object could not be read. */
  method DeleteFirewallSettings(plant: Plant, key: Key) returns (err: bool)
    requires plant.Valid() && plant.log == []
    modifies plant
    ensures plant.Valid() && plant.heard == old(plant.heard) + [Object(plant.log != [])]
    ensures plant.log == [] ==> err
    ensures plant.log != [] ==>
              && key in plant.before.firewalls
              && Targets(plant.log) == PolicyTargets(plant.before.firewalls[key]) + [FirewallOf(key)]
              && err == !SeenLast(plant.log)
  {
    var found := plant.GetFirewall(key);
    if found.None? {
      return true;
    }
    var jobs := found.value;
    ghost var got := plant.heard;
    for i := 0 to |jobs|
      invariant plant.heard == got
      invariant plant.Valid() && Targets(plant.log) == PolicyTargets(jobs[..i]) && |plant.log| == i
    {
      var failed := plant.Delete(PolicyOf(jobs[i]));
      TargetsAppend(plant.log[..i], plant.log[i]);
      assert plant.log == plant.log[..i] + [plant.log[i]];
      assert PolicyTargets(jobs[..i + 1]) == PolicyTargets(jobs[..i]) + [PolicyOf(jobs[i])];
    }
    assert jobs[..|jobs|] == jobs;
    ghost var tried := plant.log;
    err := plant.Delete(FirewallOf(key));
    TargetsAppend(tried, plant.log[|jobs|]);
  }

  /** What was tried once the NATs are done: nothing without IPs. */
  ghost predicate Dependents(e: Estate, m: Doomed, log: seq<Attempt>) {
    if m.nats == [] then log == []
    else
      && m.key in e.firewalls && |log| == |e.firewalls[m.key]| + 1 + |m.nats|
      && Targets(log) == PolicyTargets(e.firewalls[m.key]) + [FirewallOf(m.key)] + NatTargets(m.nats)
      && log[|e.firewalls[m.key]|].seen
  }

  method DeleteVMDependentResources(plant: Plant, m: Doomed) returns (err: bool)
    requires plant.Valid() && plant.log == []
    modifies plant
    ensures plant.Valid()
    ensures plant.heard == old(plant.heard) + if m.nats == [] then [] else [Object(plant.log != [])]
    ensures !err ==> Dependents(plant.before, m, plant.log)
    ensures err ==> m.nats != [] && (plant.log == [] || StoppedAtObject(plant.before, m, plant.log, true))
  {
    if |m.nats| == 0 {
      return false;
    }
    err := DeleteFirewallSettings(plant, m.key);
    if err {
      return;
    }
    ghost var tried, got := plant.log, plant.heard;
    ghost var done := |plant.before.firewalls[m.key]| + 1;
    assert |tried| == |Targets(tried)| == done;
    for i := 0 to |m.nats|
      invariant plant.heard == got
      invariant plant.Valid() && |plant.log| == done + i && tried <= plant.log
      invariant Targets(plant.log) == Targets(tried) + NatTargets(m.nats[..i])
    {
      ghost var so := plant.log;
      var failed := plant.Delete(NatOf(m.nats[i]));
      TargetsAppend(so, plant.log[done + i]);
      assert NatTargets(m.nats[..i + 1]) == NatTargets(m.nats[..i]) + [NatOf(m.nats[i])];
    }
    assert m.nats[..|m.nats|] == m.nats;
  }

  /** A call, from what it heard to what it tried and returned. On a 404 nothing is tried and it
      returns nil; without an answer nothing is tried and it errs; a machine with IPs whose
      object cannot be read is not touched either, with an error; otherwise it ran its plan. */
  predicate IsCall(e: Estate, m: Doomed, heard: seq<Answer>, log: seq<Attempt>, err: bool) {
    && heard != [] && heard[0].Server?
    && match heard[0].reply
       case NotFound404 => |heard| == 1 && log == [] && !err
       case NoAnswer => |heard| == 1 && log == [] && err
       case Present =>
         if m.nats == [] then |heard| == 1 && RanAll(e, m, log, err)
         else
           && |heard| == 2 && heard[1].Object?
           && if heard[1].found then log != [] && (RanAll(e, m, log, err) || StoppedAtObject(e, m, log, err))
              else log == [] && err
  }

  /** The whole call is what its answers call for, and is what `Teardown` says a call is. */
  method DeleteVM(plant: Plant, m: Doomed) returns (err: bool)
    requires plant.Valid() && plant.log == [] && plant.heard == []
    modifies plant
    ensures plant.Valid()
    ensures IsCall(plant.before, m, plant.heard, plant.log, err)
    ensures Called(plant.before, m, plant.log, err, plant.e)
  {
    var r := plant.GetServer(m.id);
    if r.NotFound404? {
      return false;
    }
    if r.NoAnswer? {
      return true;
    }
    err := DeleteVMDependentResources(plant, m);
    if err {
      return;
    }
    ghost var tried := plant.log;
    err := plant.Delete(ServerOf(m.id));
    TargetsAppend(tried, plant.log[|tried|]);
  }
}

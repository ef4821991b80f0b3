/** MachineDeployments and the machines their passes create. Passes over different
    deployments interleave call by call; passes over one deployment follow one another.
    No machine is deleted. */
module Replicas {
  import opened KTObjects

  // ---------- the fleet and its steps ----------

  /** `requested` holds every Replicas value a deployment ever asked for; `todo` holds the
      running passes that got past their list, with the creates they still owe. */
  datatype Fleet = Fleet(machines: map<Key, seq<OwnerRef>>, requested: map<Key, set<int>>, todo: map<Key, nat>)

  datatype Step =
    | Request(d: Key, replicas: int)
    | Begin(d: Key, replicas: int, seen: nat)   // listed `seen` owned machines
    | Create(d: Key, name: string)
    | LoseCreate(d: Key, name: string)          // created, but the pass saw an error
    | Abort(d: Key)
    | Finish(d: Key)                            // the pass returned nil after its list
    | Other(key: Key, owners: seq<OwnerRef>)    // a machine of nobody's deployment

  predicate RefersTo(r: OwnerRef, name: string) {
    r.kind == MACHINE_DEPLOYMENT && r.name == name
  }

  predicate IsOwned(owners: seq<OwnerRef>, name: string) {
    exists i :: 0 <= i < |owners| && RefersTo(owners[i], name)
  }

  /** The machines a deployment owns: by kind and name, in its namespace. */
  function Owned(f: Fleet, d: Key): set<Key> {
    set k | k in f.machines && k.ns == d.ns && IsOwned(f.machines[k], d.name)
  }

  function Count(f: Fleet, d: Key): nat { |Owned(f, d)| }

  function Todo(f: Fleet, d: Key): nat { if d in f.todo then f.todo[d] else 0 }

  /** What a pass that saw `count` machines goes on to create. */
  function MachinesToCreate(count: int, replicas: int): int {
    if count < replicas then replicas - count
    else if count > replicas then 0
    else replicas
  }

  function Missing(count: int, replicas: int): nat {
    if count != replicas && MachinesToCreate(count, replicas) > 0 then MachinesToCreate(count, replicas) else 0
  }

  predicate NameFits(d: Key, name: string) {
    d.name + "-" <= name
  }

  predicate Enabled(f: Fleet, s: Step) {
    match s
    case Request(_, _) => true
    case Begin(d, r, seen) => d !in f.todo && d in f.requested && r in f.requested[d] && seen <= Count(f, d)
    case Create(d, n) => CanCreate(f, d, n)
    case LoseCreate(d, n) => CanCreate(f, d, n)
    case Abort(d) => d in f.todo
    case Finish(d) => d in f.todo && f.todo[d] == 0
    case Other(k, owners) => k !in f.machines && forall r :: r in owners ==> r.kind != MACHINE_DEPLOYMENT
  }

  predicate CanCreate(f: Fleet, d: Key, name: string) {
    d in f.todo && f.todo[d] > 0 && Key(d.ns, name) !in f.machines && NameFits(d, name)
  }

  function Controlled(d: Key): seq<OwnerRef> {
    [OwnerRef(GROUP, MACHINE_DEPLOYMENT, d.name, 0, true)]
  }

  function AddMachine(f: Fleet, d: Key, name: string): Fleet {
    f.(machines := f.machines[Key(d.ns, name) := Controlled(d)])
  }

  function Apply(f: Fleet, s: Step): Fleet
    requires Enabled(f, s)
  {
    match s
    case Request(d, r) =>
      f.(requested := f.requested[d := (if d in f.requested then f.requested[d] else {}) + {r}])
    case Begin(d, r, seen) => f.(todo := f.todo[d := Missing(seen, r)])
    case Create(d, n) => AddMachine(f, d, n).(todo := f.todo[d := f.todo[d] - 1])
    case LoseCreate(d, n) => AddMachine(f, d, n).(todo := f.todo - {d})
    case Abort(d) => f.(todo := f.todo - {d})
    case Finish(d) => f.(todo := f.todo - {d})
    case Other(k, owners) => f.(machines := f.machines[k := owners])
  }

  predicate Legal(f: Fleet, run: seq<Step>)
    decreases |run|
  {
    run == [] || (Enabled(f, run[0]) && Legal(Apply(f, run[0]), run[1..]))
  }

  function Exec(f: Fleet, run: seq<Step>): Fleet
    requires Legal(f, run)
    decreases |run|
  {
    if run == [] then f else Exec(Apply(f, run[0]), run[1..])
  }

  /** The machines a run created for a deployment. */
  function Creates(run: seq<Step>, d: Key): nat {
    if run == [] then 0
    else Creates(run[1..], d) + if (run[0].Create? || run[0].LoseCreate?) && run[0].d == d then 1 else 0
  }

  /** How many machines too few a pass saw: of those it had, up to the number it wanted. */
  function Unseen(f: Fleet, s: Step, d: Key): nat {
    if s.Begin? && s.d == d then Max(0, Min(Count(f, d), s.replicas) - s.seen) else 0
  }

  /** What the passes of a run over a deployment did not see, added up. */
  function Lag(f: Fleet, run: seq<Step>, d: Key): nat
    requires Legal(f, run)
    decreases |run|
  {
    if run == [] then 0 else Unseen(f, run[0], d) + Lag(Apply(f, run[0]), run[1..], d)
  }

  /** Some pass over the deployment listed fewer of its machines than there were, and fewer
      than it wanted. */
  predicate SawTooFew(f: Fleet, run: seq<Step>, d: Key)
    requires Legal(f, run)
    decreases |run|
  {
    run != [] &&
    ((run[0].Begin? && run[0].d == d && run[0].seen < Min(Count(f, d), run[0].replicas)) ||
     SawTooFew(Apply(f, run[0]), run[1..], d))
  }

  predicate Finished(run: seq<Step>, d: Key) {
    Finish(d) in run
  }

  function Max(a: int, b: int): int { if a < b then b else a }

  function Min(a: int, b: int): int { if a < b then a else b }

  /** Every Replicas value asked for stays within a bound. */
  predicate Within(f: Fleet, d: Key, most: int) {
    d in f.requested ==> forall r :: r in f.requested[d] ==> r <= most
  }

  predicate RequestsWithin(run: seq<Step>, d: Key, most: int) {
    forall i :: 0 <= i < |run| && run[i].Request? && run[i].d == d ==> run[i].replicas <= most
  }

  // ---------- one step ----------

  lemma AddMachineOwned(f: Fleet, d: Key, name: string, e: Key)
    requires Key(d.ns, name) !in f.machines
    ensures Owned(AddMachine(f, d, name), e) == Owned(f, e) + if d == e then {Key(d.ns, name)} else {}
  {
    var k := Key(d.ns, name);
    assert RefersTo(Controlled(d)[0], d.name);
    forall x | x in Owned(f, e) ensures x in Owned(AddMachine(f, d, name), e) {
    }
  }

  lemma StepOwned(f: Fleet, s: Step, e: Key)
    requires Enabled(f, s)
    ensures Owned(Apply(f, s), e) ==
            Owned(f, e) + if (s.Create? || s.LoseCreate?) && s.d == e then {Key(e.ns, s.name)} else {}
  {
    if s.Create? || s.LoseCreate? {
      AddMachineOwned(f, s.d, s.name, e);
      assert Apply(f, s).machines == AddMachine(f, s.d, s.name).machines;
    } else if s.Other? {
      assert !IsOwned(s.owners, e.name);
    } else {
      assert Apply(f, s).machines == f.machines;
    }
  }

  /** What one step does to a deployment: a step of another leaves its count and its pass alone. */
  lemma StepCount(f: Fleet, s: Step, e: Key)
    requires Enabled(f, s)
    ensures Count(Apply(f, s), e) == Count(f, e) + Creates([s], e)
    ensures !s.Request? && !s.Other? && s.d != e ==> Todo(Apply(f, s), e) == Todo(f, e)
    ensures s.Request? || s.Other? ==> Apply(f, s).todo == f.todo
  {
    assert [s][1..] == [];
    StepOwned(f, s, e);
  }

  /** Counting the steps of a run is counting the machines it added. */
  lemma {:induction false} CreatesAreMachines(f: Fleet, run: seq<Step>, d: Key)
    requires Legal(f, run)
    ensures Count(Exec(f, run), d) == Count(f, d) + Creates(run, d)
    decreases |run|
  {
    if run != [] {
      StepCount(f, run[0], d);
      CreatesAreMachines(Apply(f, run[0]), run[1..], d);
    }
  }

  // ---------- convergence under failure ----------

  /** A pass sets out to bring the count to where it should be, plus what it did not see. */
  lemma PassWants(count: nat, seen: nat, replicas: int)
    requires seen <= count
    ensures count + Missing(seen, replicas) == Max(count, replicas) + Max(0, Min(count, replicas) - seen)
  {
  }

  lemma StepWithin(f: Fleet, s: Step, d: Key, most: int)
    requires Enabled(f, s) && Within(f, d, most) && RequestsWithin([s], d, most)
    ensures Within(Apply(f, s), d, most)
  {
    assert [s][0] == s;
  }

  lemma StepBound(f: Fleet, s: Step, d: Key, most: int)
    requires Enabled(f, s) && Within(f, d, most)
    ensures Count(Apply(f, s), d) + Todo(Apply(f, s), d) <= Max(Count(f, d) + Todo(f, d), most) + Unseen(f, s, d)
  {
    StepCount(f, s, d);
    if s.Begin? && s.d == d {
      PassWants(Count(f, d), s.seen, s.replicas);
    } else if s.Create? || s.LoseCreate? {
      assert [s][1..] == [];
    }
  }

  /** Whatever fails and whatever the interleaving, a deployment never owns more than it
      started with, or the largest Replicas it ever asked for, plus what its lists failed to show. */
  lemma {:induction false} NeverTooMany(f: Fleet, run: seq<Step>, d: Key, most: int)
    requires Legal(f, run) && Within(f, d, most) && RequestsWithin(run, d, most)
    ensures Count(Exec(f, run), d) + Todo(Exec(f, run), d) <= Max(Count(f, d) + Todo(f, d), most) + Lag(f, run, d)
    decreases |run|
  {
    if run != [] {
      var f1 := Apply(f, run[0]);
      StepWithin(f, run[0], d, most);
      StepBound(f, run[0], d, most);
      NeverTooMany(f1, run[1..], d, most);
    }
  }

  lemma {:induction false} LagIsSeeingTooFew(f: Fleet, run: seq<Step>, d: Key)
    requires Legal(f, run)
    ensures Lag(f, run, d) > 0 <==> SawTooFew(f, run, d)
    decreases |run|
  {
    if run != [] {
      LagIsSeeingTooFew(Apply(f, run[0]), run[1..], d);
    }
  }

  /** When no pass sees too few, creates over any number of partly failing passes never
      exceed the shortfall. */
  lemma CreatesWithinShortfall(f: Fleet, run: seq<Step>, d: Key, replicas: int)
    requires Legal(f, run) && d !in f.todo && !SawTooFew(f, run, d)
    requires Within(f, d, replicas) && RequestsWithin(run, d, replicas)
    ensures Creates(run, d) <= Max(0, replicas - Count(f, d))
  {
    LagIsSeeingTooFew(f, run, d);
    NeverTooMany(f, run, d, replicas);
    CreatesAreMachines(f, run, d);
  }

  /** Every pass reads this Replicas value: it is the only one there is. */
  predicate Fixed(f: Fleet, d: Key, replicas: int) {
    d in f.requested && f.requested[d] == {replicas}
  }

  predicate StaysFixed(run: seq<Step>, d: Key, replicas: int) {
    forall i :: 0 <= i < |run| && run[i].Request? && run[i].d == d ==> run[i].replicas == replicas
  }

  predicate Covered(f: Fleet, d: Key, replicas: int) {
    d in f.todo ==> Count(f, d) + f.todo[d] >= replicas
  }

  lemma StepCovered(f: Fleet, s: Step, d: Key, replicas: int)
    requires Enabled(f, s) && Fixed(f, d, replicas) && StaysFixed([s], d, replicas) && Covered(f, d, replicas)
    ensures Fixed(Apply(f, s), d, replicas) && Covered(Apply(f, s), d, replicas)
    ensures s == Finish(d) ==> Count(f, d) >= replicas
  {
    StepCount(f, s, d);
    StepFixed(f, s, d, replicas);
    if s.Begin? && s.d == d {
      PassWants(Count(f, d), s.seen, s.replicas);
    } else if s.Create? || s.LoseCreate? {
      assert [s][1..] == [];
    }
  }

  lemma StepFixed(f: Fleet, s: Step, d: Key, replicas: int)
    requires Enabled(f, s) && Fixed(f, d, replicas) && StaysFixed([s], d, replicas)
    ensures Fixed(Apply(f, s), d, replicas)
  {
    assert [s][0] == s;
  }

  /** Once one pass returned nil after its list the replicas are there, even with stale lists. */
  lemma {:induction false} NilMeansEnough(f: Fleet, run: seq<Step>, d: Key, replicas: int)
    requires Legal(f, run) && Fixed(f, d, replicas) && StaysFixed(run, d, replicas)
    requires Covered(f, d, replicas) && Finished(run, d)
    ensures Count(Exec(f, run), d) >= replicas
    decreases |run|
  {
    var f1 := Apply(f, run[0]);
    assert StaysFixed([run[0]], d, replicas);
    StepCovered(f, run[0], d, replicas);
    if run[0] == Finish(d) {
      StepCount(f, run[0], d);
      CreatesAreMachines(f1, run[1..], d);
    } else {
      NilMeansEnough(f1, run[1..], d, replicas);
    }
  }

  /** Convergence: after a pass that returned nil after its list, none having seen too few, the
      deployment owns exactly what it asked for, or what it had when that was more, and the
      creates add up to the shortfall. */
  lemma Converges(f: Fleet, run: seq<Step>, d: Key, replicas: int)
    requires Legal(f, run) && d !in f.todo && !SawTooFew(f, run, d)
    requires Fixed(f, d, replicas) && StaysFixed(run, d, replicas) && Finished(run, d)
    ensures Count(Exec(f, run), d) == Max(Count(f, d), replicas)
    ensures Creates(run, d) == Max(0, replicas - Count(f, d))
  {
    LagIsSeeingTooFew(f, run, d);
    NilMeansEnough(f, run, d, replicas);
    NeverTooMany(f, run, d, replicas);
    CreatesAreMachines(f, run, d);
  }

  // ---------- exactly when there are too many ----------

  /** Every pass over d that got past its list created all it set out to. */
  predicate Unbroken(run: seq<Step>, d: Key) {
    forall i :: 0 <= i < |run| ==> run[i] != Abort(d) && !(run[i].LoseCreate? && run[i].d == d)
  }

  predicate HasPass(run: seq<Step>, d: Key) {
    exists i :: 0 <= i < |run| && run[i].Begin? && run[i].d == d
  }

  lemma StepExact(f: Fleet, s: Step, d: Key, replicas: int)
    requires Enabled(f, s) && Fixed(f, d, replicas) && StaysFixed([s], d, replicas) && Unbroken([s], d)
    ensures Fixed(Apply(f, s), d, replicas)
    ensures var had, has := Count(f, d) + Todo(f, d), Count(Apply(f, s), d) + Todo(Apply(f, s), d);
            has == if s.Begin? && s.d == d then Max(had, replicas) + Unseen(f, s, d) else had
    ensures d in Apply(f, s).todo ==> d in f.todo || (s.Begin? && s.d == d)
  {
    StepCount(f, s, d);
    assert [s][0] == s && [s][1..] == [];
  }

  /** From the first pass on, nothing but what the lists failed to show is added. */
  lemma {:induction false} ExactFrom(f: Fleet, run: seq<Step>, d: Key, replicas: int)
    requires Legal(f, run) && Fixed(f, d, replicas) && StaysFixed(run, d, replicas) && Unbroken(run, d)
    requires Count(f, d) + Todo(f, d) >= replicas
    ensures Count(Exec(f, run), d) + Todo(Exec(f, run), d) == Count(f, d) + Todo(f, d) + Lag(f, run, d)
    decreases |run|
  {
    if run != [] {
      assert StaysFixed([run[0]], d, replicas) && Unbroken([run[0]], d);
      StepExact(f, run[0], d, replicas);
      ExactFrom(Apply(f, run[0]), run[1..], d, replicas);
    }
  }

  /** The count after unbroken passes, whatever their lists showed: what it should be, plus
      what they failed to show. */
  lemma {:induction false} ExactCount(f: Fleet, run: seq<Step>, d: Key, replicas: int)
    requires Legal(f, run) && Fixed(f, d, replicas) && StaysFixed(run, d, replicas) && Unbroken(run, d)
    requires d !in f.todo
    ensures Count(Exec(f, run), d) + Todo(Exec(f, run), d) ==
            (if HasPass(run, d) then Max(Count(f, d), replicas) else Count(f, d)) + Lag(f, run, d)
    decreases |run|
  {
    if run != [] {
      var s, rest := run[0], run[1..];
      assert StaysFixed([s], d, replicas) && Unbroken([s], d);
      StepExact(f, s, d, replicas);
      if s.Begin? && s.d == d {
        ExactFrom(Apply(f, s), rest, d, replicas);
      } else {
        ExactCount(Apply(f, s), rest, d, replicas);
        assert HasPass(run, d) <==> HasPass(rest, d) by {
          assert forall i :: 0 < i < |run| ==> run[i] == rest[i - 1];
          assert forall i :: 0 <= i < |rest| ==> rest[i] == run[i + 1];
        }
      }
    }
  }

  /** With one Replicas value and no pass under way at either end or broken off in between,
      a deployment ends with too many machines if and only if some pass listed fewer of them
      than there were and fewer than it wanted. */
  lemma TooManyExactly(f: Fleet, run: seq<Step>, d: Key, replicas: int)
    requires Legal(f, run) && Fixed(f, d, replicas) && StaysFixed(run, d, replicas) && Unbroken(run, d)
    requires d !in f.todo && d !in Exec(f, run).todo
    ensures Count(Exec(f, run), d) > Max(Count(f, d), replicas) <==> SawTooFew(f, run, d)
  {
    ExactCount(f, run, d, replicas);
    LagIsSeeingTooFew(f, run, d);
    if SawTooFew(f, run, d) {
      SeeingIsAPass(f, run, d);
    }
  }

  lemma {:induction false} SeeingIsAPass(f: Fleet, run: seq<Step>, d: Key)
    requires Legal(f, run) && SawTooFew(f, run, d)
    ensures HasPass(run, d)
    decreases |run|
  {
    if !(run[0].Begin? && run[0].d == d) {
      SeeingIsAPass(Apply(f, run[0]), run[1..], d);
      var i :| 0 <= i < |run| - 1 && run[1..][i].Begin? && run[1..][i].d == d;
      assert run[i + 1] == run[1..][i];
    }
  }

  // ---------- at rest, and in any order ----------

  /** At its replica count a deployment is at rest: no later pass creates anything. */
  lemma AtRest(f: Fleet, run: seq<Step>, d: Key)
    requires Legal(f, run) && Todo(f, d) == 0 && !SawTooFew(f, run, d)
    requires Within(f, d, Count(f, d)) && RequestsWithin(run, d, Count(f, d))
    ensures Creates(run, d) == 0 && Owned(Exec(f, run), d) == Owned(f, d)
  {
    LagIsSeeingTooFew(f, run, d);
    NeverTooMany(f, run, d, Count(f, d));
    CreatesAreMachines(f, run, d);
    OwnedGrows(f, run, d);
    SubsetOfSameSize(Owned(f, d), Owned(Exec(f, run), d));
  }

  lemma {:induction false} OwnedGrows(f: Fleet, run: seq<Step>, d: Key)
    requires Legal(f, run)
    ensures Owned(f, d) <= Owned(Exec(f, run), d)
    decreases |run|
  {
    if run != [] {
      var f1 := Apply(f, run[0]);
      assert forall k :: k in f.machines ==> k in f1.machines && f1.machines[k] == f.machines[k];
      OwnedGrows(f1, run[1..], d);
    }
  }

  lemma SubsetOfSameSize<T>(a: set<T>, b: set<T>)
    requires a <= b && |a| == |b|
    ensures a == b
  {
    assert b == a + (b - a);
  }

  /** The outcome of a run in which every deployment's pass returned nil does not depend on
      how the passes interleaved or what failed in between. */
  lemma SameOutcome(f: Fleet, run: seq<Step>, run': seq<Step>, replicas: map<Key, int>)
    requires Legal(f, run) && Legal(f, run')
    requires forall d :: d in replicas ==>
               && d !in f.todo && Fixed(f, d, replicas[d])
               && StaysFixed(run, d, replicas[d]) && StaysFixed(run', d, replicas[d])
               && !SawTooFew(f, run, d) && !SawTooFew(f, run', d)
               && Finished(run, d) && Finished(run', d)
    ensures forall d :: d in replicas ==>
               Count(Exec(f, run), d) == Count(Exec(f, run'), d) == Max(Count(f, d), replicas[d])
  {
    forall d | d in replicas
      ensures Count(Exec(f, run), d) == Count(Exec(f, run'), d) == Max(Count(f, d), replicas[d])
    {
      Converges(f, run, d, replicas[d]);
      Converges(f, run', d, replicas[d]);
    }
  }

  lemma {:induction false} Concat(f: Fleet, a: seq<Step>, b: seq<Step>, d: Key)
    requires Legal(f, a) && Legal(Exec(f, a), b)
    ensures Legal(f, a + b) && Exec(f, a + b) == Exec(Exec(f, a), b)
    ensures Lag(f, a + b, d) == Lag(f, a, d) + Lag(Exec(f, a), b, d)
    decreases |a|
  {
    if a == [] {
      assert a + b == b;
    } else {
      assert (a + b)[1..] == a[1..] + b;
      Concat(Apply(f, a[0]), a[1..], b, d);
    }
  }

  function BlindPass(d: Key, name: string): seq<Step> {
    [Begin(d, 1, 0), Create(d, name), Finish(d)]
  }

  lemma OneBlindPass(f: Fleet, d: Key, name: string)
    requires d !in f.todo && Fixed(f, d, 1) && Key(d.ns, name) !in f.machines && NameFits(d, name)
    ensures Legal(f, BlindPass(d, name)) && Exec(f, BlindPass(d, name)) == AddMachine(f, d, name)
    ensures Lag(f, BlindPass(d, name), d) == Min(Count(f, d), 1)
  {
    var run := BlindPass(d, name);
    var f1 := Apply(f, run[0]);
    var f2 := Apply(f1, run[1]);
    assert run[1..][1..] == [run[2]] && run[2..] == [run[2]] && [run[2]][1..] == [];
    var f3 := Apply(f2, run[2]);
    assert f3 == AddMachine(f, d, name);
    assert Legal(f3, []) && Exec(f3, []) == f3 && Lag(f3, [], d) == 0;
    assert run[2..][0] == run[2] && run[2..][1..] == [];
    assert Legal(f2, run[2..]) && Exec(f2, run[2..]) == Exec(f3, []) && Lag(f2, run[2..], d) == 0;
    assert Legal(f1, run[1..]) && Exec(f1, run[1..]) == f3 && Lag(f1, run[1..], d) == 0;
  }

  /** Two passes, the second of which still sees no machine: two machines for Replicas 1. */
  lemma StaleListDoubles(d: Key) returns (f: Fleet, run: seq<Step>)
    ensures Legal(f, run) && Fixed(f, d, 1) && StaysFixed(run, d, 1)
    ensures f.machines == map[] && f.todo == map[] && Lag(f, run, d) == 1
    ensures Count(Exec(f, run), d) == 2 && Max(Count(f, d), 1) == 1
  {
    f := Fleet(map[], map[d := {1}], map[]);
    var a, b := d.name + "-a", d.name + "-b";
    assert a[|d.name| + 1] != b[|d.name| + 1];
    run := BlindPass(d, a) + BlindPass(d, b);
    var f1 := AddMachine(f, d, a);
    OneBlindPass(f, d, a);
    OneBlindPass(f1, d, b);
    Concat(f, BlindPass(d, a), BlindPass(d, b), d);
    AddMachineOwned(f, d, a, d);
    AddMachineOwned(f1, d, b, d);
    assert Owned(f, d) == {};
  }
}

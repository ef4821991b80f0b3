/** The MachineDeployment reconciler as it runs: it lists, counts in a nested loop, and
    creates machines one by one while other passes act between its calls. Every run of it is
    a run of the fleet in `Replicas`. */
module Deployments {
  import opened KTObjects
  import opened Replicas

  lemma {:induction false} ExecAppend(first: Fleet, run: seq<Step>, s: Step)
    requires Legal(first, run) && Enabled(Exec(first, run), s)
    ensures Legal(first, run + [s]) && Exec(first, run + [s]) == Apply(Exec(first, run), s)
    decreases |run|
  {
    if run == [] {
      assert [s][1..] == [];
    } else {
      ExecAppend(Apply(first, run[0]), run[1..], s);
      assert (run + [s])[1..] == run[1..] + [s];
    }
  }

  /** The pass over deployment d moves only by these. */
  predicate Moves(s: Step, d: Key) {
    !s.Request? && !s.Other? && s.d == d
  }

  datatype Item = Item(key: Key, owners: seq<OwnerRef>)

  /** What a list of a namespace may show: machines that are there, each once; a list served
      from a cache may not show them all. */
  predicate Lists(f: Fleet, ns: string, items: seq<Item>) {
    && (forall i :: 0 <= i < |items| ==>
          items[i].key in f.machines && items[i].key.ns == ns && f.machines[items[i].key] == items[i].owners)
    && (forall i, j :: 0 <= i < j < |items| ==> items[i].key != items[j].key)
  }

  predicate ListsAll(f: Fleet, ns: string, items: seq<Item>) {
    forall k :: k in f.machines && k.ns == ns ==> Item(k, f.machines[k]) in items
  }

  datatype Answer = Found(replicas: int) | NotFound | Unavailable

  /** What a pass hears back from the store, call by call. */
  datatype Heard =
    | Read(answer: Answer)
    | Shown(items: Option<seq<Item>>)
    | Template(found: bool)
    | Created(ok: bool)

  class Store {
    var f: Fleet
    ghost const first: Fleet
    ghost var run: seq<Step>
    ghost var heard: seq<Heard>

    ghost predicate Valid()
      reads this
    {
      Legal(first, run) && Exec(first, run) == f
    }

    /** Where the pass over d stands, that the run only went on, and what the pass heard. */
    twostate predicate Went(d: Key, todo: Option<nat>, got: seq<Heard>)
      reads this
    {
      && Valid() && old(run) <= run && heard == old(heard) + got
      && (if todo.Some? then d in f.todo && f.todo[d] == todo.value else d !in f.todo)
    }

    /** No value d ever asked for is forgotten. */
    twostate predicate Remembers(d: Key)
      reads this
    {
      d in old(f.requested) ==> d in f.requested && old(f.requested[d]) <= f.requested[d]
    }

    method Take(s: Step)
      requires Valid() && Enabled(f, s)
      modifies this`f, this`run
      ensures Valid() && run == old(run) + [s] && f == Apply(old(f), s)
    {
      ExecAppend(first, run, s);
      f := Apply(f, s);
      run := run + [s];
    }

    /** Passes over other deployments and users act. */
    method Interfere(d: Key)
      requires Valid()
      modifies this`f, this`run
      ensures Went(d, if d in old(f.todo) then Some(old(f.todo[d])) else None, []) && Remembers(d)
    {
      var n: nat := *;
      while n > 0
        invariant Went(d, if d in old(f.todo) then Some(old(f.todo[d])) else None, []) && Remembers(d)
      {
        var s: Step := *;
        if Enabled(f, s) && !Moves(s, d) {
          Take(s);
        }
        n := n - 1;
      }
    }

    /** The deployment with some Replicas it ever asked for, none, or an error. */
    method Get(d: Key) returns (a: Answer)
      requires Valid() && d !in f.todo
      modifies this
      ensures Went(d, None, [Read(a)])
      ensures a.Found? ==> d in f.requested && a.replicas in f.requested[d]
    {
      Interfere(d);
      a := *;
      if a.Found? && !(d in f.requested && a.replicas in f.requested[d]) {
        a := Unavailable;
      }
      heard := heard + [Read(a)];
    }

    method List(d: Key) returns (items: Option<seq<Item>>)
      requires Valid() && d !in f.todo
      modifies this
      ensures Went(d, None, [Shown(items)]) && Remembers(d)
      ensures items.Some? ==> Lists(f, d.ns, items.value)
    {
      Interfere(d);
      items := *;
      if items.Some? && !Lists(f, d.ns, items.value) {
        items := None;
      }
      heard := heard + [Shown(items)];
    }

    /** The template that got machines are filled in from; without it the pass ends. */
    method GetTemplate(d: Key) returns (found: bool)
      requires Valid() && d in f.todo
      modifies this
      ensures Went(d, if found then Some(old(f.todo[d])) else None, [Template(found)])
    {
      Interfere(d);
      found := *;
      if !found {
        Take(Abort(d));
      }
      heard := heard + [Template(found)];
    }

    /** Create fails when the name is taken, and may fail for any other reason; a failed
        create may have taken effect. */
    method CreateMachine(d: Key, name: string) returns (err: bool)
      requires Valid() && d in f.todo && f.todo[d] > 0 && NameFits(d, name)
      modifies this
      ensures Went(d, if err then None else Some(old(f.todo[d]) - 1), [Created(!err)])
      ensures !err ==> run[|run| - 1] == Create(d, name)
    {
      Interfere(d);
      err := *;
      var effect: bool := *;
      if Key(d.ns, name) in f.machines {
        err, effect := true, false;
      }
      if !err {
        Take(Create(d, name));
      } else if effect {
        Take(LoseCreate(d, name));
      } else {
        Take(Abort(d));
      }
      heard := heard + [Created(!err)];
    }
  }

  /** The listed machines a deployment owns. */
  function OwnedListed(items: seq<Item>, name: string): set<Key> {
    set i | 0 <= i < |items| && IsOwned(items[i].owners, name) :: items[i].key
  }

  lemma OneMoreItem(f: Fleet, ns: string, items: seq<Item>, i: nat, name: string)
    requires Lists(f, ns, items) && i < |items|
    ensures var before, after := OwnedListed(items[..i], name), OwnedListed(items[..i + 1], name);
            |after| == |before| + if IsOwned(items[i].owners, name) then 1 else 0
  {
    var before, after := OwnedListed(items[..i], name), OwnedListed(items[..i + 1], name);
    assert items[..i + 1] == items[..i] + [items[i]];
    if IsOwned(items[i].owners, name) {
      assert items[..i + 1][i] == items[i];
      assert forall j :: 0 <= j < i ==> items[..i + 1][j] == items[..i][j];
      assert after == before + {items[i].key};
      assert items[i].key !in before;
    } else {
      assert after == before;
    }
  }

  /** The nested loop counts each machine once, however many of its references match. */
  method CountOwned(items: seq<Item>, name: string, ghost f: Fleet, ghost ns: string) returns (count: nat)
    requires Lists(f, ns, items)
    ensures count == |OwnedListed(items, name)|
  {
    count := 0;
    for i := 0 to |items|
      invariant count == |OwnedListed(items[..i], name)|
    {
      var owners := items[i].owners;
      ghost var before := count;
      var j := 0;
      while j < |owners|
        invariant 0 <= j <= |owners| && count == before
        invariant forall k :: 0 <= k < j ==> !RefersTo(owners[k], name)
      {
        if RefersTo(owners[j], name) {
          count := count + 1;
          break;
        }
        j := j + 1;
      }
      OneMoreItem(f, ns, items, i, name);
    }
    assert items[..|items|] == items;
  }

  lemma ListedCount(f: Fleet, d: Key, items: seq<Item>)
    requires Lists(f, d.ns, items)
    ensures |OwnedListed(items, d.name)| <= Count(f, d)
    ensures ListsAll(f, d.ns, items) ==> |OwnedListed(items, d.name)| == Count(f, d)
  {
    var listed := OwnedListed(items, d.name);
    assert listed <= Owned(f, d);
    assert Owned(f, d) == listed + (Owned(f, d) - listed);
    if ListsAll(f, d.ns, items) {
      forall k | k in Owned(f, d) ensures k in listed {
        assert Item(k, f.machines[k]) in items;
        var i :| 0 <= i < |items| && items[i] == Item(k, f.machines[k]);
      }
    }
  }

  method CountChildMachinesByOwner(store: Store, d: Key)
      returns (err: bool, count: nat, ghost items: Option<seq<Item>>)
    requires store.Valid() && d !in store.f.todo
    modifies store
    ensures store.Went(d, None, [Shown(items)]) && store.Remembers(d) && err == items.None?
    ensures items.Some? ==>
              && Lists(store.f, d.ns, items.value)
              && count == |OwnedListed(items.value, d.name)| <= Count(store.f, d)
  {
    var listed := store.List(d);
    items := listed;
    if listed.None? {
      return true, 0, items;
    }
    err := false;
    count := CountOwned(listed.value, d.name, store.f, d.ns);
    ListedCount(store.f, d, listed.value);
  }

  datatype Outcome =
    | Gone          // the deployment was not found: nil
    | Requeued      // the list failed: nil, to be tried again
    | Failed        // an error
    | Synced        // nil, with nothing left to create

  /** The creates of a pass that has to make n machines: up to the first that failed. */
  predicate AreCreates(heard: seq<Heard>, n: int, err: bool) {
    && (forall i :: 0 <= i < |heard| ==> heard[i].Created?)
    && (forall i :: 0 <= i < |heard| - 1 ==> heard[i].ok)
    && if err then 0 < |heard| <= n && !heard[|heard| - 1].ok
       else |heard| == Max(0, n) && (heard != [] ==> heard[|heard| - 1].ok)
  }

  /** What follows the list when the count was wrong. */
  predicate IsFill(heard: seq<Heard>, n: int, err: bool) {
    && heard != [] && heard[0].Template?
    && if heard[0].found then AreCreates(heard[1..], n, err) else |heard| == 1 && err
  }

  /** What follows the read of a deployment that wants `replicas` machines. */
  predicate IsSync(name: string, replicas: int, heard: seq<Heard>, outcome: Outcome) {
    && heard != [] && heard[0].Shown?
    && match heard[0].items
       case None => |heard| == 1 && outcome.Requeued?
       case Some(items) =>
         var count := |OwnedListed(items, name)|;
         if count == replicas then |heard| == 1 && outcome.Synced?
         else
           && (outcome.Synced? || outcome.Failed?)
           && IsFill(heard[1..], MachinesToCreate(count, replicas), outcome.Failed?)
  }

  /** A pass, from what it heard to what it returned. */
  predicate IsPass(name: string, heard: seq<Heard>, outcome: Outcome) {
    && heard != [] && heard[0].Read?
    && match heard[0].answer
       case NotFound => |heard| == 1 && outcome.Gone?
       case Unavailable => |heard| == 1 && outcome.Failed?
       case Found(replicas) => IsSync(name, replicas, heard[1..], outcome)
  }

  lemma ReadThen(name: string, replicas: int, rest: seq<Heard>, outcome: Outcome)
    requires IsSync(name, replicas, rest, outcome)
    ensures IsPass(name, [Read(Found(replicas))] + rest, outcome)
  {
    assert ([Read(Found(replicas))] + rest)[1..] == rest;
  }

  /** Creates what is missing, one machine after another, stopping at the first failure. */
  method KtMachineForMachineDeployment(store: Store, d: Key, count: nat, replicas: int)
    returns (err: bool, ghost got: seq<Heard>)
    requires store.Valid() && d in store.f.todo && store.f.todo[d] == Missing(count, replicas)
    requires count != replicas
    modifies store
    ensures store.Went(d, if err then None else Some(0), got)
    ensures IsFill(got, MachinesToCreate(count, replicas), err)
  {
    var found := store.GetTemplate(d);
    got := [Template(found)];
    if !found {
      return true, got;
    }
    var machinesToCreate := 0;
    if count < replicas {
      machinesToCreate := replicas - count;
    } else if count > replicas {
    } else {
      assert false;
    }
    ghost var creates: seq<Heard> := [];
    var i := 0;
    while i < machinesToCreate
      invariant 0 <= i <= machinesToCreate && |creates| == i
      invariant forall k :: 0 <= k < i ==> creates[k] == Created(true)
      invariant store.Went(d, Some(machinesToCreate - i), [Template(true)] + creates)
    {
      var suffix: string := *;
      err := store.CreateMachine(d, d.name + "-" + suffix);
      creates := creates + [Created(!err)];
      got := [Template(true)] + creates;
      assert got[1..] == creates;
      if err {
        return;
      }
      i := i + 1;
    }
    got := [Template(true)] + creates;
    assert got[1..] == creates;
    return false, got;
  }

  /** The pass once it has counted: nothing to do, or machines to create. */
  method FillUp(store: Store, d: Key, count: nat, replicas: int) returns (err: bool, ghost got: seq<Heard>)
    requires store.Valid() && d !in store.f.todo && d in store.f.requested && replicas in store.f.requested[d]
    requires count <= Count(store.f, d)
    modifies store
    ensures store.Went(d, None, got)
    ensures if count == replicas then got == [] && !err else IsFill(got, MachinesToCreate(count, replicas), err)
    ensures !err ==> store.run != old(store.run) && store.run[|store.run| - 1] == Finish(d)
  {
    got := [];
    store.Take(Begin(d, replicas, count));
    if count != replicas {
      err, got := KtMachineForMachineDeployment(store, d, count, replicas);
      if err {
        return;
      }
    }
    store.Take(Finish(d));
    err := false;
  }

  method SyncReplicas(store: Store, d: Key, replicas: int) returns (outcome: Outcome, ghost got: seq<Heard>)
    requires store.Valid() && d !in store.f.todo && d in store.f.requested && replicas in store.f.requested[d]
    modifies store
    ensures store.Went(d, None, got) && IsSync(d.name, replicas, got, outcome)
    ensures outcome.Synced? ==> store.run != old(store.run) && store.run[|store.run| - 1] == Finish(d)
  {
    var err, count;
    ghost var items, fill;
    err, count, items := CountChildMachinesByOwner(store, d);
    got := [Shown(items)];
    if err {
      return Requeued, got;
    }
    err, fill := FillUp(store, d, count, replicas);
    got := [Shown(items)] + fill;
    assert got[1..] == fill;
    outcome := if err then Failed else Synced;
  }

  /** One pass over one deployment: its outcome is the one its answers call for. One that
      returned nil after its list has its Finish in the run, which is what convergence asks
      for. */
  method ReconcileDeployment(store: Store, d: Key) returns (outcome: Outcome, ghost got: seq<Heard>)
    requires store.Valid() && d !in store.f.todo
    modifies store
    ensures store.Went(d, None, got) && IsPass(d.name, got, outcome)
    ensures outcome.Synced? ==> store.run != old(store.run) && store.run[|store.run| - 1] == Finish(d)
  {
    var a := store.Get(d);
    got := [Read(a)];
    if !a.Found? {
      return if a.NotFound? then Gone else Failed, got;
    }
    ghost var rest;
    outcome, rest := SyncReplicas(store, d, a.replicas);
    got := [Read(a)] + rest;
    ReadThen(d.name, a.replicas, rest, outcome);
  }
}

/** The reconcilers that claim children, as they run: they read a parent and a child, set
    the controller reference on their copy, and update the store, which checks the version.
    Every run of them is a run of the graph in `Ownership`. */
module Owners {
  import opened KTObjects
  import opened Ownership

  lemma {:induction false} ExecAppend(first: Graph, run: seq<Step>, s: Step)
    requires Legal(first, run) && Enabled(Exec(first, run), s)
    ensures Legal(first, run + [s]) && Exec(first, run + [s]) == Apply(Exec(first, run), s)
    decreases |run|
  {
    if run == [] {
      assert [s][1..] == [];
    } else {
      ExecAppend(Apply(first, run[0]), run[1..], s);
      assert (run + [s])[1..] == run[1..] + [s];
    }
  }

  datatype Answer = Found(obj: Obj) | NotFound | Unavailable

  /** What a pass hears back from the store, call by call. `at` says where in the run the
      update landed, if it did; the pass only sees `err`. */
  datatype Heard =
    | Got(id: Id, answer: Answer)
    | Updated(p: Id, c: Id, err: bool, at: Option<nat>)

  class Store {
    var g: Graph
    ghost const first: Graph
    ghost var run: seq<Step>
    ghost var heard: seq<Heard>

    ghost predicate Valid()
      reads this
    {
      && Init(first) && Legal(first, run) && Exec(first, run) == g
      && forall k :: 0 <= k < |heard| ==> HeardOk(run, heard[k])
    }

    lemma ValidInv()
      requires Valid()
      ensures Reachable(g) && Inv(g)
    {
      ReachableInv(g);
    }

    twostate predicate Went(got: seq<Heard>)
      reads this
    {
      Valid() && old(run) <= run && old(g.history) <= g.history && heard == old(heard) + got
    }

    method Take(s: Step)
      requires Valid() && Enabled(g, s)
      modifies this`g, this`run
      ensures Valid() && run == old(run) + [s] && g == Apply(old(g), s) && old(g.history) <= g.history
    {
      ExecAppend(first, run, s);
      g := Apply(g, s);
      run := run + [s];
    }

    /** Other reconcilers and users act. */
    method Interfere()
      requires Valid()
      modifies this`g, this`run
      ensures Went([])
    {
      var n: nat := *;
      while n > 0
        invariant Went([])
      {
        var s: Step := *;
        if Enabled(g, s) {
          Take(s);
        }
        n := n - 1;
      }
    }

    /** A read from a cache: any version the object ever had, or none. */
    method Get(id: Id) returns (a: Answer)
      requires Valid()
      modifies this
      ensures Went([Got(id, a)])
      ensures a.Found? ==> (id, a.obj) in g.history
    {
      Interfere();
      var obj: Obj := *;
      var missing: bool := *;
      a := if (id, obj) in g.history then Found(obj) else if missing then NotFound else Unavailable;
      heard := heard + [Got(id, a)];
    }

    /** An update lands only on the version that was read; an error may hide one that landed.
        What lands is the copy's owners. */
    method Update(copy: Copy, ghost p: Id, ghost puid: nat, ghost read: Obj)
        returns (err: bool, ghost at: Option<nat>)
      requires Valid() && Link(p, copy.id) && !IsCreated(copy.id.kind) && WasUid(g, p, puid)
      requires (copy.id, read) in g.history && copy.version == read.version
      requires SetControllerReference(read.owners, Ref(p, puid)) == Some(copy.owners)
      modifies this
      ensures Went([Updated(p, copy.id, err, at)])
      ensures at.Some? ==>
                && |old(run)| <= at.value == |run| - 1 && run[at.value] == Claim(p, puid, copy.id, copy.version)
                && copy.id in g.objects && g.objects[copy.id].owners == copy.owners
    {
      Interfere();
      ValidInv();
      err := *;
      at := None;
      var lost: bool := *;
      if copy.id in g.objects && g.objects[copy.id].version == copy.version && (!err || lost) {
        assert g.objects[copy.id] == read;
        at := Some(|run|);
        Land(copy, p, puid);
      } else {
        err := true;
      }
      heard := heard + [Updated(p, copy.id, err, at)];
    }

    method Land(copy: Copy, ghost p: Id, ghost puid: nat)
      requires Valid() && Link(p, copy.id) && !IsCreated(copy.id.kind) && WasUid(g, p, puid)
      requires copy.id in g.objects && g.objects[copy.id].version == copy.version
      requires SetControllerReference(g.objects[copy.id].owners, Ref(p, puid)) == Some(copy.owners)
      modifies this`g, this`run
      ensures Valid() && run == old(run) + [Claim(p, puid, copy.id, copy.version)]
      ensures g == Apply(old(g), Claim(p, puid, copy.id, copy.version)) && old(g.history) <= g.history
      ensures copy.id in g.objects && g.objects[copy.id].owners == copy.owners
    {
      ghost var s := Claim(p, puid, copy.id, copy.version);
      ExecAppend(first, run, s);
      var obj := Obj(g.objects[copy.id].uid, g.clock + 1, copy.owners);
      g := Graph(g.objects[copy.id := obj], g.history + {(copy.id, obj)}, g.clock + 1);
      run := run + [s];
    }
  }

  /** An update that reported no error landed, and one that landed is a claim of the run. */
  predicate HeardOk(run: seq<Step>, h: Heard) {
    h.Updated? ==>
      && (!h.err ==> h.at.Some?)
      && (h.at.Some? ==> h.at.value < |run| && Sets(run[h.at.value], h.p, h.c))
  }

  /** The object whose owners a pass edits: its own copy, with the version it was read at. */
  class Copy {
    const id: Id
    const version: nat
    var owners: seq<OwnerRef>

    constructor (id: Id, obj: Obj)
      ensures this.id == id && version == obj.version && owners == obj.owners
    {
      this.id, this.version, this.owners := id, obj.version, obj.owners;
    }
  }

  /** Set the reference on the copy, then update: the body ktClusterForCluster,
      ktClusterForMachineTemplate and ktMachineTemplateForMachineDeployment share. */
  method ClaimChild(store: Store, p: Id, puid: nat, copy: Copy, ghost read: Obj)
      returns (err: bool, ghost at: Option<nat>)
    requires store.Valid() && Link(p, copy.id) && !IsCreated(copy.id.kind) && WasUid(store.g, p, puid)
    requires (copy.id, read) in store.g.history && copy.version == read.version && copy.owners == read.owners
    modifies store, copy
    ensures store.Went([Updated(p, copy.id, err, at)])
    ensures SetControllerReference(read.owners, Ref(p, puid)) == Some(copy.owners)
    ensures at.Some? ==> |old(store.run)| <= at.value
    ensures at.Some? ==> copy.id in store.g.objects && store.g.objects[copy.id].owners == copy.owners
  {
    store.ValidInv();
    NeverAlreadyOwned(store.g, p, puid, copy.id, read);
    var owners := SetControllerReference(copy.owners, Ref(p, puid));
    copy.owners := owners.value;
    err, at := store.Update(copy, p, puid, read);
  }

  datatype Outcome = Nil | Requeue | Error

  /** What a pass heard that claims one child by name, and what it returned: the parent is
      read, then the child, then the child is updated. */
  predicate IsClaimPass(req: Id, child: Id, heard: seq<Heard>, outcome: Outcome) {
    && 0 < |heard| <= 3 && heard[0].Got? && heard[0].id == req
    && match heard[0].answer
       case NotFound => |heard| == 1 && outcome.Nil?
       case Unavailable => |heard| == 1 && outcome.Error?
       case Found(_) =>
         && |heard| > 1 && heard[1].Got? && heard[1].id == child
         && match heard[1].answer
            case NotFound => |heard| == 2 && outcome.Requeue?
            case Unavailable => |heard| == 2 && outcome.Error?
            case Found(_) =>
              && |heard| == 3 && heard[2].Updated? && heard[2].p == req && heard[2].c == child
              && outcome == if heard[2].err then Requeue else Nil
  }

  /** Cluster: claims the KTCluster of its own name. A failed claim asks to be run again. */
  method ReconcileCluster(store: Store, req: Id) returns (outcome: Outcome, ghost got: seq<Heard>)
    requires store.Valid() && req.kind.Cluster?
    modifies store
    ensures store.Went(got)
    ensures IsClaimPass(req, Id(Kind.KTCluster, req.ns, req.name), got, outcome)
  {
    var a := store.Get(req);
    got := [Got(req, a)];
    if !a.Found? {
      return if a.NotFound? then Nil else Error, got;
    }
    var cluster := a.obj;
    var child := Id(Kind.KTCluster, req.ns, req.name);
    a := store.Get(child);
    got := got + [Got(child, a)];
    if !a.Found? {
      return if a.NotFound? then Requeue else Error, got;
    }
    var copy := new Copy(child, a.obj);
    var err;
    ghost var at;
    err, at := ClaimChild(store, req, cluster.uid, copy, a.obj);
    got := got + [Updated(req, child, err, at)];
    outcome := if err then Requeue else Nil;
  }

  /** KTMachineTemplate: claims the MachineDeployment of its own name. */
  method ReconcileKTMachineTemplate(store: Store, req: Id) returns (outcome: Outcome, ghost got: seq<Heard>)
    requires store.Valid() && req.kind.Template?
    modifies store
    ensures store.Went(got)
    ensures IsClaimPass(req, Id(Deployment, req.ns, req.name), got, outcome)
  {
    var a := store.Get(req);
    got := [Got(req, a)];
    if !a.Found? {
      return if a.NotFound? then Nil else Error, got;
    }
    var template := a.obj;
    var child := Id(Deployment, req.ns, req.name);
    a := store.Get(child);
    got := got + [Got(child, a)];
    if !a.Found? {
      return if a.NotFound? then Requeue else Error, got;
    }
    var copy := new Copy(child, a.obj);
    var err;
    ghost var at;
    err, at := ClaimChild(store, req, template.uid, copy, a.obj);
    got := got + [Updated(req, child, err, at)];
    outcome := if err then Requeue else Nil;
  }

  /** What fetching and claiming one template hears: an error only when the read failed. */
  predicate IsFetch(ktCluster: Id, template: Id, heard: seq<Heard>, err: bool) {
    && heard != [] && heard[0].Got? && heard[0].id == template
    && if heard[0].answer.Found? then
         !err && |heard| == 2 && heard[1].Updated? && heard[1].p == ktCluster && heard[1].c == template
       else err && |heard| == 1
  }

  /** The claim's error is only logged: the caller learns whether the template was read. */
  method FetchMachineTemplate(store: Store, ktCluster: Id, uid: nat, suffix: string)
    returns (err: bool, ghost got: seq<Heard>)
    requires store.Valid() && ktCluster.kind.KTCluster? && WasUid(store.g, ktCluster, uid)
    requires suffix == CP_SUFFIX || suffix == MD_SUFFIX
    modifies store
    ensures store.Went(got)
    ensures IsFetch(ktCluster, Id(Template, ktCluster.ns, ktCluster.name + suffix), got, err)
  {
    var template := Id(Template, ktCluster.ns, ktCluster.name + suffix);
    var a := store.Get(template);
    got := [Got(template, a)];
    if !a.Found? {
      return true, got;
    }
    var copy := new Copy(template, a.obj);
    var failed;
    ghost var at;
    failed, at := ClaimChild(store, ktCluster, uid, copy, a.obj);
    got := got + [Updated(ktCluster, template, failed, at)];
    err := false;
  }

  /** A pass over a KTCluster: its two templates, control plane first and md-0 only if that
      one was read. An error only when the KTCluster could not be read. */
  predicate IsKTClusterPass(req: Id, heard: seq<Heard>, outcome: Outcome) {
    var cp := Id(Template, req.ns, req.name + CP_SUFFIX);
    var md := Id(Template, req.ns, req.name + MD_SUFFIX);
    && heard != [] && heard[0].Got? && heard[0].id == req
    && outcome == (if heard[0].answer.Unavailable? then Error else Nil)
    && if !heard[0].answer.Found? then |heard| == 1
       else if |heard| <= 2 then IsFetch(req, cp, heard[1..], true)
       else IsFetch(req, cp, heard[1..3], false) && IsFetch(req, md, heard[3..], |heard| == 4)
  }

  /** KTCluster: claims its two templates. Anything that goes wrong after the KTCluster was
      read still ends the pass with nil, so nil says nothing about claims. */
  method ReconcileKTCluster(store: Store, req: Id) returns (outcome: Outcome, ghost got: seq<Heard>)
    requires store.Valid() && req.kind.KTCluster?
    modifies store
    ensures store.Went(got)
    ensures IsKTClusterPass(req, got, outcome)
  {
    var a := store.Get(req);
    got := [Got(req, a)];
    if !a.Found? {
      return if a.NotFound? then Nil else Error, got;
    }
    var ktCluster := a.obj;
    var err;
    ghost var cp, md;
    err, cp := FetchMachineTemplate(store, req, ktCluster.uid, CP_SUFFIX);
    got := [Got(req, a)] + cp;
    assert got[1..] == cp;
    if err {
      return Nil, got;
    }
    err, md := FetchMachineTemplate(store, req, ktCluster.uid, MD_SUFFIX);
    got := [Got(req, a)] + cp + md;
    assert got[1..3] == cp && got[3..] == md;
    outcome := Nil;
  }

  lemma ReachNext(g: Graph, s: Step)
    requires Reachable(g) && Enabled(g, s)
    ensures Reachable(Apply(g, s))
  {
    var g0: Graph, run: seq<Step> :| Init(g0) && Legal(g0, run) && Exec(g0, run) == g;
    ExecAppend(g0, run, s);
    assert Legal(g0, run + [s]);
  }

  /** Everything this pass read, some read of the store could show; and every claim it made
      carries a version that is not the stored one, so no update of it can land. */
  predicate StaleClaims(g: Graph, heard: seq<Heard>) {
    && (forall k :: 0 <= k < |heard| && heard[k].Got? && heard[k].answer.Found? ==>
          (heard[k].id, heard[k].answer.obj) in g.history)
    && (forall k :: 0 < k < |heard| && heard[k].Updated? ==>
          && heard[k - 1].Got? && heard[k - 1].id == heard[k].c && heard[k - 1].answer.Found?
          && heard[k].c in g.objects && g.objects[heard[k].c].version != heard[k - 1].answer.obj.version)
  }

  /** A store whose templates were both written to since some read of them. */
  lemma WrittenSince(req: Id, cp: Id, md: Id, o: Obj) returns (g: Graph)
    requires req != cp && req != md && cp != md && o == Obj(0, 0, [])
    ensures Reachable(g) && {(req, o), (cp, o), (md, o)} <= g.history
    ensures cp in g.objects && md in g.objects && g.objects[cp] == Obj(0, 1, []) && g.objects[md] == Obj(0, 2, [])
  {
    var objects := map[req := o, cp := o, md := o];
    var g0 := Graph(objects, set id | id in objects :: (id, objects[id]), 0);
    assert req in objects && cp in objects && md in objects;
    assert (req, objects[req]) in g0.history && (cp, objects[cp]) in g0.history && (md, objects[md]) in g0.history;
    assert Legal(g0, []) && Exec(g0, []) == g0;
    ReachNext(g0, Touch(cp));
    var g1 := Apply(g0, Touch(cp));
    ReachNext(g1, Touch(md));
    g := Apply(g1, Touch(md));
  }

  /** A pass that returns nil, finds both templates, claims neither, and leaves neither owned:
      both were written to after the versions it read. */
  lemma NilWithoutClaim() returns (g: Graph, req: Id, heard: seq<Heard>)
    ensures Reachable(g) && IsKTClusterPass(req, heard, Nil) && |heard| == 5 && StaleClaims(g, heard)
    ensures forall k :: 0 <= k < |heard| && heard[k].Updated? ==>
              heard[k].err && heard[k].at.None? && !Owns(g, req, heard[k].c)
  {
    req := Id(Kind.KTCluster, "ns", "c");
    var cp := Id(Template, "ns", "c" + CP_SUFFIX);
    var md := Id(Template, "ns", "c" + MD_SUFFIX);
    assert cp.name[|cp.name| - 1] == 'e' && md.name[|md.name| - 1] == '0';
    var o := Obj(0, 0, []);
    g := WrittenSince(req, cp, md, o);
    heard := [Got(req, Found(o)), Got(cp, Found(o)), Updated(req, cp, true, None),
              Got(md, Found(o)), Updated(req, md, true, None)];
    assert heard[1..3] == [Got(cp, Found(o)), Updated(req, cp, true, None)];
    assert heard[3..] == [Got(md, Found(o)), Updated(req, md, true, None)];
  }
}

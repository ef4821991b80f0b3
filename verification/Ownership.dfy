/** Who controls whom: Cluster, KTCluster, KTMachineTemplate, MachineDeployment, KTMachine and
    KTNetworkFirewall objects, and the reconcilers that set controller references on them. */
module Ownership {
  import opened KTObjects

  // ---------- controller references ----------

  datatype Kind = Cluster | KTCluster | Template | Deployment | Machine | Firewall

  function KindName(k: Kind): string {
    match k
    case Cluster => "Cluster"
    case KTCluster => "KTCluster"
    case Template => "KTMachineTemplate"
    case Deployment => MACHINE_DEPLOYMENT
    case Machine => "KTMachine"
    case Firewall => "KTNetworkFirewall"
  }

  function Rank(k: Kind): nat {
    match k
    case Cluster => 0
    case KTCluster => 1
    case Template => 2
    case Deployment => 3
    case Machine => 4
    case Firewall => 5
  }

  datatype Id = Id(kind: Kind, ns: string, name: string)

  function Ref(p: Id, uid: nat): OwnerRef {
    OwnerRef(GROUP, KindName(p.kind), p.name, uid, true)
  }

  /** References are compared by group, kind and name, not by uid. */
  predicate SameObject(a: OwnerRef, b: OwnerRef) {
    a.group == b.group && a.kind == b.kind && a.name == b.name
  }

  function ControllerOf(owners: seq<OwnerRef>): Option<OwnerRef> {
    if owners == [] then None
    else if owners[0].controller then Some(owners[0])
    else ControllerOf(owners[1..])
  }

  function Upsert(owners: seq<OwnerRef>, ref: OwnerRef): seq<OwnerRef> {
    if owners == [] then [ref]
    else if SameObject(owners[0], ref) then [ref] + owners[1..]
    else [owners[0]] + Upsert(owners[1..], ref)
  }

  /** None when another object controls this one already. */
  function SetControllerReference(owners: seq<OwnerRef>, ref: OwnerRef): Option<seq<OwnerRef>> {
    var existing := ControllerOf(owners);
    if existing.Some? && !SameObject(existing.value, ref) then None else Some(Upsert(owners, ref))
  }

  /** At most one reference is a controller, and none to the same object stands before it:
      that is what keeps an upsert from adding a second controller. */
  predicate OneController(owners: seq<OwnerRef>) {
    forall i, j :: 0 <= i < |owners| && 0 <= j < |owners| && i != j && owners[j].controller ==>
      !owners[i].controller && (i < j ==> !SameObject(owners[i], owners[j]))
  }

  lemma {:induction false} ControllerAt(owners: seq<OwnerRef>, i: nat)
    requires OneController(owners) && i < |owners| && owners[i].controller
    ensures ControllerOf(owners) == Some(owners[i])
  {
    if i > 0 {
      assert !owners[0].controller;
      forall a, b | 0 <= a < |owners| - 1 && 0 <= b < |owners| - 1 && a != b && owners[1..][b].controller
        ensures !owners[1..][a].controller && (a < b ==> !SameObject(owners[1..][a], owners[1..][b]))
      {
        assert owners[1..][a] == owners[a + 1] && owners[1..][b] == owners[b + 1];
      }
      ControllerAt(owners[1..], i - 1);
    }
  }

  lemma {:induction false} ControllerSomewhere(owners: seq<OwnerRef>)
    ensures ControllerOf(owners).None? ==> forall i :: 0 <= i < |owners| ==> !owners[i].controller
    ensures ControllerOf(owners).Some? ==>
              ControllerOf(owners).value in owners && ControllerOf(owners).value.controller
  {
    if owners != [] && !owners[0].controller {
      ControllerSomewhere(owners[1..]);
      assert forall i :: 0 < i < |owners| ==> owners[i] == owners[1..][i - 1];
    }
  }

  /** Where the upsert put the reference, everything else staying as it was. */
  lemma {:induction false} UpsertAt(owners: seq<OwnerRef>, ref: OwnerRef) returns (i: nat)
    ensures i <= |owners| && i < |Upsert(owners, ref)| &&
              |Upsert(owners, ref)| == if i < |owners| then |owners| else i + 1
    ensures Upsert(owners, ref)[i] == ref
    ensures forall j :: 0 <= j < |owners| && j != i ==> Upsert(owners, ref)[j] == owners[j]
    ensures forall j :: 0 <= j < i ==> !SameObject(owners[j], ref)
    ensures i < |owners| ==> SameObject(owners[i], ref)
  {
    if owners == [] || SameObject(owners[0], ref) {
      i := 0;
    } else {
      var i' := UpsertAt(owners[1..], ref);
      i := i' + 1;
    }
  }

  /** A reference that is set is the object's one controller afterwards. */
  lemma SetController(owners: seq<OwnerRef>, ref: OwnerRef)
    requires OneController(owners) && ref.controller && SetControllerReference(owners, ref).Some?
    ensures var owners' := SetControllerReference(owners, ref).value;
            OneController(owners') && ControllerOf(owners') == Some(ref)
  {
    var owners' := Upsert(owners, ref);
    var i := UpsertAt(owners, ref);
    ControllerSomewhere(owners);
    forall j | 0 <= j < |owners| && owners[j].controller ensures j == i {
      ControllerAt(owners, j);
      assert SameObject(owners[j], ref);
    }
    ControllerAt(owners', i);
  }

  /** A claim is refused if and only if the controller there is differs in group, kind or name;
      a newer uid of the same object is not refused. */
  lemma RefusedExactly(owners: seq<OwnerRef>, ref: OwnerRef, i: nat)
    requires OneController(owners) && i < |owners| && owners[i].controller
    ensures SetControllerReference(owners, ref).None? <==>
              (owners[i].group, owners[i].kind, owners[i].name) != (ref.group, ref.kind, ref.name)
  {
    ControllerAt(owners, i);
  }

  // ---------- the chain ----------

  const CP_SUFFIX := "-control-plane"
  const MD_SUFFIX := "-md-0"

  /** Which objects a reconciler of `p` sets itself up to control: found by name, one kind
      down, in the same namespace. */
  predicate Link(p: Id, c: Id) {
    && p.ns == c.ns
    && match p.kind
       case Cluster => c.kind.KTCluster? && c.name == p.name
       case KTCluster => c.kind.Template? && (c.name == p.name + CP_SUFFIX || c.name == p.name + MD_SUFFIX)
       case Template => c.kind.Deployment? && c.name == p.name
       case Deployment => c.kind.Machine? && p.name + "-" <= c.name
       case Machine => c.kind.Firewall? && c.name == p.name
       case Firewall => false
  }

  predicate IsCreated(k: Kind) { k.Machine? || k.Firewall? }

  /** No two KTClusters ask for the same template: the suffixes cannot be confused. */
  lemma OneKTClusterPerTemplate(a: Id, b: Id, t: Id)
    requires a.kind.KTCluster? && b.kind.KTCluster? && Link(a, t) && Link(b, t)
    ensures a == b
  {
    var n := |t.name|;
    assert t.name[n - 1] == '0' <==> t.name == a.name + MD_SUFFIX;
    assert t.name[n - 1] == '0' <==> t.name == b.name + MD_SUFFIX;
    var k := if t.name[n - 1] == '0' then |MD_SUFFIX| else |CP_SUFFIX|;
    assert a.name == t.name[..n - k] == b.name;
  }

  // ---------- the store and its steps ----------

  datatype Obj = Obj(uid: nat, version: nat, owners: seq<OwnerRef>)

  /** `history` holds everything ever stored, for reads may be stale; versions and uids come
      from one counter and are never used twice. */
  datatype Graph = Graph(objects: map<Id, Obj>, history: set<(Id, Obj)>, clock: nat)

  datatype Step =
    | Create(id: Id, owners: seq<OwnerRef>)     // a user's object, controlled by no one
    | Touch(id: Id)                             // any write that leaves the owners alone
    | Delete(id: Id)
    | Claim(p: Id, puid: nat, c: Id, rv: nat)   // an Update after SetControllerReference landed
    | CreateChild(p: Id, puid: nat, c: Id)      // created with its controller set

  ghost predicate Init(g: Graph) {
    && (forall id :: id in g.objects ==>
          && g.objects[id].version <= g.clock && g.objects[id].uid <= g.clock
          && forall r :: r in g.objects[id].owners ==> !r.controller)
    && g.history == set id | id in g.objects :: (id, g.objects[id])
  }

  /** Some read of the object could show this uid. */
  predicate WasUid(g: Graph, id: Id, uid: nat) {
    exists h :: h in g.history && h.0 == id && h.1.uid == uid
  }

  predicate Enabled(g: Graph, s: Step) {
    match s
    case Create(id, owners) => id !in g.objects && forall r :: r in owners ==> !r.controller
    case Touch(id) => id in g.objects
    case Delete(id) => id in g.objects
    case Claim(p, puid, c, rv) =>
      && Link(p, c) && !IsCreated(c.kind) && WasUid(g, p, puid)
      && c in g.objects && g.objects[c].version == rv
      && SetControllerReference(g.objects[c].owners, Ref(p, puid)).Some?
    case CreateChild(p, puid, c) =>
      Link(p, c) && IsCreated(c.kind) && WasUid(g, p, puid) && c !in g.objects
  }

  function Put(g: Graph, id: Id, o: Obj): Graph {
    Graph(g.objects[id := o], g.history + {(id, o)}, g.clock + 1)
  }

  function Claimed(g: Graph, p: Id, puid: nat, c: Id): Obj
    requires c in g.objects && SetControllerReference(g.objects[c].owners, Ref(p, puid)).Some?
  {
    Obj(g.objects[c].uid, g.clock + 1, SetControllerReference(g.objects[c].owners, Ref(p, puid)).value)
  }

  function Apply(g: Graph, s: Step): Graph
    requires Enabled(g, s)
  {
    match s
    case Create(id, owners) => Put(g, id, Obj(g.clock + 1, g.clock + 1, owners))
    case Touch(id) => Put(g, id, g.objects[id].(version := g.clock + 1))
    case Delete(id) => g.(objects := g.objects - {id})
    case Claim(p, puid, c, _) => Put(g, c, Claimed(g, p, puid, c))
    case CreateChild(p, puid, c) => Put(g, c, Obj(g.clock + 1, g.clock + 1, [Ref(p, puid)]))
  }

  predicate Legal(g: Graph, run: seq<Step>)
    decreases |run|
  {
    run == [] || (Enabled(g, run[0]) && Legal(Apply(g, run[0]), run[1..]))
  }

  function Exec(g: Graph, run: seq<Step>): Graph
    requires Legal(g, run)
    decreases |run|
  {
    if run == [] then g else Exec(Apply(g, run[0]), run[1..])
  }

  // ---------- what every run keeps ----------

  /** Every controller of an object is its parent in the chain, as some read showed it. */
  ghost predicate OwnersOk(g: Graph, c: Id, owners: seq<OwnerRef>) {
    && OneController(owners)
    && (ControllerOf(owners).Some? ==>
          exists p: Id, uid: nat {:trigger Ref(p, uid)} ::
            Link(p, c) && WasUid(g, p, uid) && ControllerOf(owners).value == Ref(p, uid))
  }

  ghost predicate Inv(g: Graph) {
    && (forall id :: id in g.objects ==> (id, g.objects[id]) in g.history)
    && (forall id, o: Obj :: (id, o) in g.history ==>
         o.version <= g.clock && o.uid <= g.clock && OwnersOk(g, id, o.owners))
    && (forall id, o: Obj, o': Obj ::
          (id, o) in g.history && (id, o') in g.history && o.version == o'.version ==> o == o')
  }

  lemma NoControllers(owners: seq<OwnerRef>)
    requires forall r :: r in owners ==> !r.controller
    ensures OneController(owners) && ControllerOf(owners).None?
  {
    ControllerSomewhere(owners);
  }

  lemma InitInv(g: Graph)
    requires Init(g)
    ensures Inv(g)
  {
    forall id | id in g.objects ensures OwnersOk(g, id, g.objects[id].owners) {
      NoControllers(g.objects[id].owners);
    }
  }

  lemma OwnersStay(g: Graph, g': Graph, c: Id, owners: seq<OwnerRef>)
    requires OwnersOk(g, c, owners) && g.history <= g'.history
    ensures OwnersOk(g', c, owners)
  {
    if ControllerOf(owners).Some? {
      var p: Id, uid: nat :| Link(p, c) && WasUid(g, p, uid) && ControllerOf(owners).value == Ref(p, uid);
      assert WasUid(g', p, uid);
    }
  }

  lemma PutKeeps(g: Graph, id: Id, o: Obj)
    requires Inv(g) && o.version == g.clock + 1 && o.uid <= g.clock + 1 && OwnersOk(g, id, o.owners)
    ensures Inv(Put(g, id, o))
  {
    var g' := Put(g, id, o);
    forall i, x: Obj | (i, x) in g'.history
      ensures x.version <= g'.clock && x.uid <= g'.clock && OwnersOk(g', i, x.owners)
    {
      OwnersStay(g, g', i, x.owners);
    }
  }

  lemma RefOk(g: Graph, p: Id, puid: nat, c: Id, owners: seq<OwnerRef>)
    requires Link(p, c) && WasUid(g, p, puid)
    requires OneController(owners) && ControllerOf(owners) == Some(Ref(p, puid))
    ensures OwnersOk(g, c, owners)
  {
  }

  lemma StepKeeps(g: Graph, s: Step)
    requires Inv(g) && Enabled(g, s)
    ensures Inv(Apply(g, s))
  {
    match s
    case Create(id, owners) =>
      NoControllers(owners);
      PutKeeps(g, id, Obj(g.clock + 1, g.clock + 1, owners));
    case Touch(id) => PutKeeps(g, id, g.objects[id].(version := g.clock + 1));
    case Delete(id) =>
      forall i, o: Obj | (i, o) in g.history ensures OwnersOk(Apply(g, s), i, o.owners) {
        OwnersStay(g, Apply(g, s), i, o.owners);
      }
    case Claim(p, puid, c, _) =>
      SetController(g.objects[c].owners, Ref(p, puid));
      RefOk(g, p, puid, c, Claimed(g, p, puid, c).owners);
      PutKeeps(g, c, Claimed(g, p, puid, c));
    case CreateChild(p, puid, c) =>
      RefOk(g, p, puid, c, [Ref(p, puid)]);
      PutKeeps(g, c, Obj(g.clock + 1, g.clock + 1, [Ref(p, puid)]));
  }

  lemma {:induction false} RunKeeps(g: Graph, run: seq<Step>)
    requires Inv(g) && Legal(g, run)
    ensures Inv(Exec(g, run)) && g.history <= Exec(g, run).history && g.clock <= Exec(g, run).clock
    decreases |run|
  {
    if run != [] {
      StepKeeps(g, run[0]);
      RunKeeps(Apply(g, run[0]), run[1..]);
    }
  }

  ghost predicate Reachable(g: Graph) {
    exists g0: Graph, run: seq<Step> {:trigger Legal(g0, run)} :: Init(g0) && Legal(g0, run) && Exec(g0, run) == g
  }

  lemma ReachableInv(g: Graph)
    requires Reachable(g)
    ensures Inv(g)
  {
    var g0: Graph, run: seq<Step> :| Init(g0) && Legal(g0, run) && Exec(g0, run) == g;
    InitInv(g0);
    RunKeeps(g0, run);
  }

  // ---------- the graph ----------

  /** c's controller reference names p. */
  predicate Names(r: OwnerRef, p: Id) {
    r.group == GROUP && r.kind == KindName(p.kind) && r.name == p.name
  }

  predicate Edge(g: Graph, p: Id, c: Id) {
    && c in g.objects && p.ns == c.ns
    && exists i :: 0 <= i < |g.objects[c].owners| && g.objects[c].owners[i].controller &&
         Names(g.objects[c].owners[i], p)
  }

  lemma EdgeIsController(g: Graph, p: Id, c: Id)
    requires Inv(g) && Edge(g, p, c)
    ensures Link(p, c) && ControllerOf(g.objects[c].owners).Some? &&
              Names(ControllerOf(g.objects[c].owners).value, p)
  {
    var owners := g.objects[c].owners;
    assert OwnersOk(g, c, owners);
    var i :| 0 <= i < |owners| && owners[i].controller && Names(owners[i], p);
    ControllerAt(owners, i);
    var q: Id, uid: nat :| Link(q, c) && WasUid(g, q, uid) && owners[i] == Ref(q, uid);
    KindNamesDiffer(p.kind, q.kind);
  }

  lemma KindNamesDiffer(a: Kind, b: Kind)
    requires KindName(a) == KindName(b)
    ensures a == b
  {
    var x, y := KindName(a), KindName(b);
    assert |x| == |y| && (|x| > 2 ==> x[2] == y[2]);
  }

  /** Controller edges go exactly one kind down the chain, inside one namespace. */
  lemma EdgesGoDown(g: Graph, p: Id, c: Id)
    requires Reachable(g) && Edge(g, p, c)
    ensures Rank(c.kind) == Rank(p.kind) + 1 && p.ns == c.ns
  {
    ReachableInv(g);
    EdgeIsController(g, p, c);
  }

  /** Every object has at most one controller: one reference, and one object it names. */
  lemma OneControllerEach(g: Graph, p: Id, q: Id, c: Id, i: nat, j: nat)
    requires Reachable(g) && c in g.objects && i < |g.objects[c].owners| && j < |g.objects[c].owners|
    requires g.objects[c].owners[i].controller && g.objects[c].owners[j].controller
    ensures i == j
    ensures Edge(g, p, c) && Edge(g, q, c) ==> p == q
  {
    ReachableInv(g);
    assert OwnersOk(g, c, g.objects[c].owners);
    if Edge(g, p, c) && Edge(g, q, c) {
      EdgeIsController(g, p, c);
      EdgeIsController(g, q, c);
      KindNamesDiffer(p.kind, q.kind);
    }
  }

  /** A template is only ever controlled by one KTCluster, at any two points of any runs. */
  lemma OneClaimantEver(g: Graph, g': Graph, a: Id, b: Id, t: Id)
    requires Reachable(g) && Reachable(g') && t.kind.Template? && Edge(g, a, t) && Edge(g', b, t)
    ensures a == b && a.kind.KTCluster?
  {
    ReachableInv(g);
    ReachableInv(g');
    EdgeIsController(g, a, t);
    EdgeIsController(g', b, t);
    OneKTClusterPerTemplate(a, b, t);
  }

  /** An object that is claimed by name has one possible parent. */
  lemma OneParent(p: Id, q: Id, c: Id)
    requires Link(p, c) && Link(q, c) && !IsCreated(c.kind)
    ensures p == q
  {
    if c.kind.Template? {
      OneKTClusterPerTemplate(p, q, c);
    }
  }

  /** In every run, the already-owned error never happens: whatever copy of the child a pass
      read, however stale, its claim is not refused, so only the version check can stop it. */
  lemma NeverAlreadyOwned(g: Graph, p: Id, puid: nat, c: Id, o: Obj)
    requires Reachable(g) && Link(p, c) && !IsCreated(c.kind) && (c, o) in g.history
    ensures SetControllerReference(o.owners, Ref(p, puid)).Some?
  {
    ReachableInv(g);
    assert OwnersOk(g, c, o.owners);
    if ControllerOf(o.owners).Some? {
      var q: Id, uid: nat :| Link(q, c) && WasUid(g, q, uid) && ControllerOf(o.owners).value == Ref(q, uid);
      OneParent(p, q, c);
    }
  }

  predicate IsPath(g: Graph, path: seq<Id>) {
    forall i, j :: 0 <= i < |path| && j == i + 1 && j < |path| ==> Edge(g, path[i], path[j])
  }

  lemma {:induction false} RanksAlong(g: Graph, path: seq<Id>, i: nat, j: nat)
    requires Reachable(g) && IsPath(g, path) && i <= j < |path|
    ensures Rank(path[j].kind) == Rank(path[i].kind) + j - i
    decreases j
  {
    if i < j {
      RanksAlong(g, path, i, j - 1);
      EdgesGoDown(g, path[j - 1], path[j]);
    }
  }

  /** The graph is acyclic, and no chain of controllers is longer than the six kinds. */
  lemma Acyclic(g: Graph, path: seq<Id>)
    requires Reachable(g) && IsPath(g, path)
    ensures |path| <= 6
    ensures forall i, j :: 0 <= i < j < |path| ==> path[i] != path[j]
  {
    if path != [] {
      RanksAlong(g, path, 0, |path| - 1);
    }
    forall i, j | 0 <= i < j < |path| ensures path[i] != path[j] {
      RanksAlong(g, path, i, j);
    }
  }

  // ---------- what successful passes add up to ----------

  predicate NoDelete(run: seq<Step>) {
    forall i :: 0 <= i < |run| ==> !run[i].Delete?
  }

  /** Nothing was ever deleted: every object is the one it always was. */
  ghost predicate Steady(g: Graph) {
    forall id, o: Obj :: (id, o) in g.history ==> id in g.objects && g.objects[id].uid == o.uid
  }

  /** p controls c, by name and by uid. */
  predicate Owns(g: Graph, p: Id, c: Id) {
    && p in g.objects && c in g.objects && Link(p, c)
    && ControllerOf(g.objects[c].owners) == Some(Ref(p, g.objects[p].uid))
  }

  lemma StepSteady(g: Graph, s: Step)
    requires Inv(g) && Steady(g) && Enabled(g, s) && !s.Delete?
    ensures Steady(Apply(g, s))
    ensures forall id :: id in g.objects ==>
              id in Apply(g, s).objects && Apply(g, s).objects[id].uid == g.objects[id].uid
  {
  }

  lemma SameParent(p: Id, q: Id, c: Id, u: nat, v: nat)
    requires Link(p, c) && Link(q, c) && SameObject(Ref(p, u), Ref(q, v))
    ensures p == q
  {
    KindNamesDiffer(p.kind, q.kind);
  }

  lemma StepKeepsOwner(g: Graph, s: Step, p: Id, c: Id)
    requires Inv(g) && Steady(g) && Enabled(g, s) && !s.Delete? && Owns(g, p, c)
    ensures Owns(Apply(g, s), p, c)
  {
    StepSteady(g, s);
    if s.Claim? && s.c == c {
      SameParent(p, s.p, c, g.objects[p].uid, s.puid);
      SetController(g.objects[c].owners, Ref(s.p, s.puid));
    }
  }

  /** Ownership, once there, survives every later pass. */
  lemma {:induction false} OwnerStays(g: Graph, run: seq<Step>, p: Id, c: Id)
    requires Inv(g) && Steady(g) && Legal(g, run) && NoDelete(run) && Owns(g, p, c)
    ensures Owns(Exec(g, run), p, c)
    decreases |run|
  {
    if run != [] {
      var g1 := Apply(g, run[0]);
      assert Inv(g1) by { StepKeeps(g, run[0]); }
      assert Steady(g1) by { StepSteady(g, run[0]); }
      assert Owns(g1, p, c) by { StepKeepsOwner(g, run[0], p, c); }
      OwnerStays(g1, run[1..], p, c);
    }
  }

  /** A pass over p set itself as c's controller, or created c. */
  predicate Sets(s: Step, p: Id, c: Id) {
    (s.Claim? || s.CreateChild?) && s.p == p && s.c == c
  }

  predicate Passed(run: seq<Step>, p: Id, c: Id) {
    exists i :: 0 <= i < |run| && Sets(run[i], p, c)
  }

  lemma SetsOwns(g: Graph, s: Step, p: Id, c: Id)
    requires Inv(g) && Steady(g) && Enabled(g, s) && Sets(s, p, c)
    ensures Owns(Apply(g, s), p, c)
  {
    if s.Claim? {
      SetController(g.objects[c].owners, Ref(p, s.puid));
    }
  }

  lemma NewOwner(g: Graph, s: Step, p: Id, c: Id)
    requires Inv(g) && Steady(g) && Enabled(g, s) && !s.Delete?
    requires Owns(Apply(g, s), p, c) && !Owns(g, p, c)
    ensures Sets(s, p, c)
  {
    StepSteady(g, s);
    if s.Create? {
      NoControllers(s.owners);
    } else if s.Claim? && s.c == c {
      SetController(g.objects[c].owners, Ref(s.p, s.puid));
      SameParent(p, s.p, c, Apply(g, s).objects[p].uid, s.puid);
    } else if s.CreateChild? && s.c == c {
      SameParent(p, s.p, c, Apply(g, s).objects[p].uid, s.puid);
    }
  }

  /** Without deletions, p controls c at the end of a run if and only if it did at the start
      or some pass of the run set it so; when the passes ran does not matter. */
  lemma {:induction false} OwnedIffPassed(g: Graph, run: seq<Step>, p: Id, c: Id)
    requires Inv(g) && Steady(g) && Legal(g, run) && NoDelete(run)
    ensures Owns(Exec(g, run), p, c) <==> Owns(g, p, c) || Passed(run, p, c)
    decreases |run|
  {
    if run == [] {
    } else {
      var s, rest := run[0], run[1..];
      var g1 := Apply(g, s);
      StepKeeps(g, s);
      StepSteady(g, s);
      OwnedIffPassed(g1, rest, p, c);
      assert Passed(run, p, c) <==> Sets(s, p, c) || Passed(rest, p, c) by {
        assert forall i :: 0 < i < |run| ==> run[i] == rest[i - 1];
        assert forall i :: 0 <= i < |rest| ==> rest[i] == run[i + 1];
      }
      if Owns(g, p, c) {
        StepKeepsOwner(g, s, p, c);
      } else if Owns(g1, p, c) {
        NewOwner(g, s, p, c);
      }
      if Sets(s, p, c) {
        SetsOwns(g, s, p, c);
      }
    }
  }

  /** From an initial store, p controls c exactly when a pass over p landed. */
  lemma OwnedExactly(g: Graph, run: seq<Step>, p: Id, c: Id)
    requires Init(g) && Legal(g, run) && NoDelete(run)
    ensures Owns(Exec(g, run), p, c) <==> Passed(run, p, c)
  {
    InitInv(g);
    if Owns(g, p, c) {
      NoControllers(g.objects[c].owners);
    }
    OwnedIffPassed(g, run, p, c);
  }

  /** The parents of a cluster's chain down to its two deployments, all of which had a
      fully successful pass. */
  predicate ChainPassed(run: seq<Step>, ns: string, name: string, suffix: string) {
    && Passed(run, Id(Cluster, ns, name), Id(Kind.KTCluster, ns, name))
    && Passed(run, Id(Kind.KTCluster, ns, name), Id(Template, ns, name + suffix))
    && Passed(run, Id(Template, ns, name + suffix), Id(Deployment, ns, name + suffix))
  }

  lemma OwnsIsEdge(g: Graph, p: Id, c: Id)
    requires Owns(g, p, c)
    ensures Edge(g, p, c)
  {
    ControllerSomewhere(g.objects[c].owners);
  }

  /** Then every machine of the deployment, and the machine's firewall, is reachable from the
      Cluster by controller references with matching uids, in whatever order passes ran. */
  lemma ReachedFromCluster(g: Graph, run: seq<Step>, ns: string, name: string, suffix: string, machine: string)
    returns (path: seq<Id>)
    requires Init(g) && Legal(g, run) && NoDelete(run)
    requires suffix == CP_SUFFIX || suffix == MD_SUFFIX
    requires ChainPassed(run, ns, name, suffix)
    requires Owns(Exec(g, run), Id(Deployment, ns, name + suffix), Id(Machine, ns, machine))
    ensures |path| >= 5 && path[0] == Id(Cluster, ns, name) && path[4] == Id(Machine, ns, machine)
    ensures IsPath(Exec(g, run), path)
    ensures forall i, j :: 0 <= i < |path| && j == i + 1 && j < |path| ==> Owns(Exec(g, run), path[i], path[j])
    ensures Owns(Exec(g, run), Id(Machine, ns, machine), Id(Firewall, ns, machine)) ==>
              |path| == 6 && path[5] == Id(Firewall, ns, machine)
  {
    var g' := Exec(g, run);
    path := [Id(Cluster, ns, name), Id(Kind.KTCluster, ns, name), Id(Template, ns, name + suffix),
             Id(Deployment, ns, name + suffix), Id(Machine, ns, machine)];
    if Owns(g', Id(Machine, ns, machine), Id(Firewall, ns, machine)) {
      path := path + [Id(Firewall, ns, machine)];
    }
    OwnedExactly(g, run, path[0], path[1]);
    OwnedExactly(g, run, path[1], path[2]);
    OwnedExactly(g, run, path[2], path[3]);
    forall i, j | 0 <= i < |path| && j == i + 1 && j < |path|
      ensures Owns(g', path[i], path[j]) && Edge(g', path[i], path[j])
    {
      OwnsIsEdge(g', path[i], path[j]);
    }
  }
}

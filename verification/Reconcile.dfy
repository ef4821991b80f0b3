/** The machine reconciler as the operator runs it: it updates its copy of the machine in
    place, calls the cloud and writes through to the store, while other passes, users and
    the cloud act between any two calls. Each method is proved to make exactly the calls
    of the pass in `Pass`, so every run of it is a run of `World`. */
module Reconcile {
  import opened KTObjects
  import opened Pass
  import opened World
  import opened Invariant
  import opened Preservation
  import opened Workers
  import S = Script
  import opened Transcript

  // ---------- the shared world ----------

  predicate Moves(s: Step, pid: nat) {
    (s.Begin? || s.Deliver? || s.LoseReply? || s.Crash?) && s.pid == pid
  }

  lemma SamePassAfter(l: Local)
    ensures forall r :: SamePass(l, After(l, r))
  {
    forall r ensures SamePass(l, After(l, r)) {
      SameIdentity(l, r);
    }
  }

  lemma RepliesOneMore(run: seq<Step>, n: nat, s: Step, pid: nat)
    requires n <= |run|
    ensures Replies((run + [s])[n..], pid) == Replies(run[n..], pid) +
            if s.Deliver? && s.pid == pid then [s.reply] else if s.LoseReply? && s.pid == pid then [Failed] else []
  {
    assert (run + [s])[n..] == run[n..] + [s];
    RepliesAppend(run[n..], [s], pid);
    assert [s][1..] == [];
  }

  /** What was heard stays heard. */
  lemma StillHeard(before: seq<Step>, run: seq<Step>, n: nat, pid: nat)
    requires n <= |before| && before <= run
    ensures Replies(run[n..], pid) == Replies(before[n..], pid) + Replies(run[|before|..], pid)
  {
    RepliesSince(run, n, |before|, pid);
    assert run[n..|before|] == before[n..];
  }

  /** What a good answer means for the world it arrives in. */
  lemma AnsweredAt(w: World, pid: nat, r: Reply)
    requires pid in w.passes && CanAnswer(w, w.passes[pid], r) && Enabled(w, Deliver(pid, r))
    requires !w.passes[pid].pc.PickAddress?
    ensures var l := w.passes[pid];
            var w' := Apply(w, Deliver(pid, r));
            && Fits(l, r)
            && (l.pc.ListMachines? ==> forall m :: m in r.machines ==> Listable(w', l.ns, m))
            && (l.pc.CreateSecret? ==>
                  l.cluster.name in w'.secrets && w'.secrets[l.cluster.name] == Secret(Some(pid), l.pc.data))
  {
    var l := w.passes[pid];
    if l.pc.CreateSecret? {
      SecretDoes(w, pid, l);
    } else if l.pc.ListMachines? {
      AskingHasNoEffect(w, pid, l, r);
    }
  }

  class Plant {
    var w: World
    ghost var first: World
    ghost var run: seq<Step>

    ghost predicate Valid()
      reads this
    {
      Init(first) && Legal(first, run) && Exec(first, run) == w
    }

    lemma ValidReachable()
      requires Valid()
      ensures Reachable(w)
    {
    }

    method Take(s: Step)
      requires Valid() && Enabled(w, s)
      modifies this
      ensures Valid() && first == old(first) && run == old(run) + [s] && w == Apply(old(w), s)
    {
      ExecAppend(first, run, s);
      w := Apply(w, s);
      run := run + [s];
    }

    /** What the pass heard since the run was n steps long. */
    ghost function HeardSince(n: nat, pid: nat): seq<Reply>
      requires n <= |run|
      reads this
    {
      Replies(run[n..], pid)
    }

    /** Anything other passes, users and the cloud may do while this pass waits. */
    method Interfere(pid: nat)
      requires Valid() && pid in w.passes
      modifies this
      ensures Valid() && first == old(first) && old(run) <= run && NoCrash(run, |old(run)|, pid)
      ensures pid in w.passes && w.passes[pid] == old(w.passes[pid])
      ensures HeardSince(|old(run)|, pid) == []
    {
      var n: nat := *;
      while n > 0
        invariant Valid() && first == old(first) && old(run) <= run && NoCrash(run, |old(run)|, pid)
        invariant pid in w.passes && w.passes[pid] == old(w.passes[pid])
        invariant HeardSince(|old(run)|, pid) == []
      {
        var s: Step := *;
        if Enabled(w, s) && !Moves(s, pid) {
          RepliesOneMore(run, |old(run)|, s, pid);
          Take(s);
        }
        n := n - 1;
      }
    }

    /** The call is answered, fails, or takes effect and loses its reply. */
    method Answer(pid: nat) returns (r: Reply)
      requires Valid() && pid in w.passes && !w.passes[pid].pc.Done? && !w.passes[pid].pc.PickAddress?
      modifies this
      ensures Valid() && first == old(first)
      ensures |run| == |old(run)| + 1 && old(run) <= run && !run[|old(run)|].Crash?
      ensures || run[|old(run)|] == Deliver(pid, r)
              || (r.Failed? && run[|old(run)|].LoseReply? && run[|old(run)|].pid == pid)
      ensures pid in w.passes && w.passes[pid] == After(old(w.passes[pid]), r)
      ensures r.Failed? || (CanAnswer(old(w), old(w.passes[pid]), r) && w == Apply(old(w), Deliver(pid, r)))
    {
      var s: Step := *;
      if !(Enabled(w, s) && (s.Deliver? || s.LoseReply?) && s.pid == pid) {
        s := Deliver(pid, Failed);
      }
      r := if s.Deliver? then s.reply else Failed;
      Take(s);
    }

    /** One remote call: others act first, then it is answered or not. */
    method Call(pid: nat) returns (r: Reply)
      requires Valid() && pid in w.passes && !w.passes[pid].pc.Done? && !w.passes[pid].pc.PickAddress?
      modifies this
      ensures Valid() && first == old(first) && old(run) <= run && NoCrash(run, |old(run)|, pid)
      ensures pid in w.passes && w.passes[pid] == After(old(w.passes[pid]), r)
      ensures SamePass(old(w.passes[pid]), w.passes[pid])
      ensures HeardSince(|old(run)|, pid) == [r]
      ensures r.Failed? || Fits(old(w.passes[pid]), r)
      ensures r.Machines? && old(w.passes[pid].pc.ListMachines?) ==>
                forall m :: m in r.machines ==> Listable(w, old(w.passes[pid].ns), m)
      ensures r.Ok? && old(w.passes[pid].pc.CreateSecret?) ==>
                var l := old(w.passes[pid]);
                l.cluster.name in w.secrets && w.secrets[l.cluster.name] == Secret(Some(pid), l.pc.data)
    {
      SamePassAfter(w.passes[pid]);
      Interfere(pid);
      ghost var w1, run1 := w, run;
      r := Answer(pid);
      RepliesOneMore(run1, |old(run)|, run[|run1|], pid);
      assert run == run1 + [run[|run1|]];
      if !r.Failed? {
        AnsweredAt(w1, pid, r);
      }
    }

    /** A choice the pass makes by itself: no one else acts. */
    method Choose(pid: nat, r: Reply)
      requires Valid() && pid in w.passes && w.passes[pid].pc.PickAddress? && IsPick(w.passes[pid].st, r)
      modifies this
      ensures Valid() && first == old(first) && old(run) <= run && NoCrash(run, |old(run)|, pid)
      ensures pid in w.passes && w.passes[pid] == After(old(w.passes[pid]), r)
      ensures SamePass(old(w.passes[pid]), w.passes[pid])
      ensures HeardSince(|old(run)|, pid) == [r]
    {
      SameIdentity(w.passes[pid], r);
      RepliesOneMore(run, |run|, Deliver(pid, r), pid);
      assert run[|run|..] == [];
      Take(Deliver(pid, r));
    }

    ghost predicate At(pid: nat)
      reads this
    {
      Valid() && pid in w.passes
    }

    /** The run went on, the pass did not crash, and it is still over the same machine. */
    twostate predicate Went(pid: nat)
      reads this
    {
      && At(pid) && first == old(first) && old(run) <= run && NoCrash(run, |old(run)|, pid)
      && old(pid in w.passes) && SamePass(old(w.passes[pid]), w.passes[pid])
    }

    // The calls by name, with the arguments the operator sends.

    method PostServer(pid: nat, join: Option<string>) returns (r: Reply)
      requires At(pid) && S.Now(w.passes[pid]) == S.Asks(S.PostServer(join))
      modifies this
      ensures Went(pid) && w.passes[pid] == After(old(w.passes[pid]), r)
      ensures r.Failed? || r.Refused? || (r.Vm? && r.vm.id != "")
    {
      r := Call(pid);
    }

    method GetServer(pid: nat, id: string) returns (r: Reply)
      requires At(pid) && S.Now(w.passes[pid]) == S.Asks(S.GetServer(id))
      modifies this
      ensures Went(pid) && w.passes[pid] == After(old(w.passes[pid]), r)
      ensures r.Failed? || (r.Vm? && if id == "" then r.vm == NO_VM else r.vm.id == id && r.vm.state != "")
    {
      r := Call(pid);
    }

    method UpdateStatus(pid: nat, uid: nat, rv: nat, status: Status) returns (landed: bool)
      requires At(pid) && w.passes[pid].uid == uid && S.Now(w.passes[pid]) == S.Asks(S.UpdateStatus(rv, status))
      modifies this
      ensures Went(pid) && w.passes[pid] == After(old(w.passes[pid]), if landed then Written else Failed)
    {
      var r := Call(pid);
      landed := r.Written?;
    }

    method ListPublicIps(pid: nat) returns (r: Reply)
      requires At(pid) && S.Now(w.passes[pid]) == S.Asks(S.ListPublicIps)
      modifies this
      ensures Went(pid) && w.passes[pid] == After(old(w.passes[pid]), r)
      ensures HeardSince(|old(run)|, pid) == [r]
      ensures r.Failed? || r.Ips?
    {
      r := Call(pid);
    }

    method PostStaticNat(pid: nat, mappedIp: string, publicIpId: string) returns (r: Reply)
      requires At(pid) && S.Now(w.passes[pid]) == S.Asks(S.PostStaticNat(publicIpId, mappedIp))
      modifies this
      ensures Went(pid) && w.passes[pid] == After(old(w.passes[pid]), r)
      ensures r.Failed? || r.Refused? || r.Nat?
    {
      r := Call(pid);
    }

    /** AddFirewallSettings as one call; its inside is the module Firewall. */
    method AddFirewallSettings(pid: nat, natId: string) returns (ok: bool)
      requires At(pid) && S.Now(w.passes[pid]) == S.Asks(S.AddFirewallPolicy(natId))
      modifies this
      ensures Went(pid) && w.passes[pid] == After(old(w.passes[pid]), if ok then Ok else Failed)
    {
      var r := Call(pid);
      ok := r.Ok?;
    }

    method GetReadiness(pid: nat, ip: string) returns (ok: bool)
      requires At(pid) && S.Now(w.passes[pid]) == S.Asks(S.GetReadiness(ip))
      modifies this
      ensures Went(pid) && w.passes[pid] == After(old(w.passes[pid]), if ok then Ok else Failed)
      ensures HeardSince(|old(run)|, pid) == [if ok then Ok else Failed]
    {
      var r := Call(pid);
      ok := r.Ok?;
    }

    method GetAdminConf(pid: nat, ip: string) returns (r: Reply)
      requires At(pid) && S.Now(w.passes[pid]) == S.Asks(S.GetAdminConf(ip))
      modifies this
      ensures Went(pid) && w.passes[pid] == After(old(w.passes[pid]), r)
      ensures HeardSince(|old(run)|, pid) == [r]
    {
      r := Call(pid);
    }

    method CreateKubeconfigSecret(pid: nat, cluster: string, data: string) returns (ok: bool)
      requires At(pid) && S.Now(w.passes[pid]) == S.Asks(S.CreateKubeconfig(cluster, data))
      modifies this
      ensures Went(pid) && w.passes[pid] == After(old(w.passes[pid]), if ok then Ok else Failed)
      ensures HeardSince(|old(run)|, pid) == [if ok then Ok else Failed]
      ensures ok ==> cluster in w.secrets && w.secrets[cluster] == Secret(Some(pid), data)
    {
      var r := Call(pid);
      ok := r.Ok?;
    }

    method ListMachinesIn(pid: nat, ns: string) returns (r: Reply)
      requires At(pid) && S.Now(w.passes[pid]) == S.Asks(S.ListMachinesIn(ns))
      modifies this
      ensures Went(pid) && w.passes[pid] == After(old(w.passes[pid]), r)
      ensures r.Failed? || r.Machines?
      ensures r.Machines? ==> forall m :: m in r.machines ==> Listable(w, ns, m)
    {
      r := Call(pid);
    }
  }

  /** The shape of an answer to each call. */
  predicate Fits(l: Local, r: Reply) {
    if IsWrite(l.pc) then r.Written?
    else if IsPost(l.pc) then r.Refused? || (r.Vm? && r.vm.id != "")
    else if IsGet(l.pc) then
      r.Vm? && if l.st.id == "" then r.vm == NO_VM else r.vm.id == l.st.id && r.vm.state != ""
    else if l.pc.ListIps? then r.Ips?
    else if l.pc.PostNat? then r.Refused? || r.Nat?
    else if l.pc.Fetch? then r.Refused? || r.Body? || r.Torn?
    else if l.pc.ListMachines? then r.Machines?
    else r.Ok?
  }

  // ---------- the operator's copy of a machine ----------

  class KTMachine {
    const uid: nat
    const ns: string
    const name: string
    var rv: nat
    var status: Status

    constructor (uid: nat, ns: string, name: string, rv: nat, status: Status)
      ensures this.uid == uid && this.ns == ns && this.name == name && this.rv == rv && this.status == status
    {
      this.uid, this.ns, this.name, this.rv, this.status := uid, ns, name, rv, status;
    }

    predicate Mirrors(l: Local)
      reads this
    {
      l.uid == uid && l.ns == ns && l.name == name && l.rv == rv && l.st == status
    }
  }

  // ---------- status writes ----------

  /** Status().Update: the copy's resource version moves only when the write lands. */
  method StatusUpdate(plant: Plant, pid: nat, machine: KTMachine) returns (err: bool)
    requires plant.Valid() && pid in plant.w.passes && IsWrite(plant.w.passes[pid].pc)
    requires var l := plant.w.passes[pid];
             l.uid == machine.uid && l.rv == machine.rv && WriteOf(l) == machine.status
    modifies plant, machine
    ensures plant.Went(pid)
    ensures plant.w.passes[pid] == After(old(plant.w.passes[pid]), if err then Failed else Written)
    ensures machine.status == old(machine.status)
    ensures machine.rv == if err then old(machine.rv) else old(machine.rv) + 1
  {
    var landed := plant.UpdateStatus(pid, machine.uid, machine.rv, machine.status);
    if landed {
      machine.rv := machine.rv + 1;
    }
    err := !landed;
  }

  method UpdateVmStatus(plant: Plant, pid: nat, machine: KTMachine, status: Status, state: string)
      returns (err: bool)
    requires plant.Valid() && pid in plant.w.passes && IsWrite(plant.w.passes[pid].pc)
    requires var l := plant.w.passes[pid];
             l.uid == machine.uid && l.rv == machine.rv && WriteOf(l) == status.(state := state)
    modifies plant, machine
    ensures plant.Went(pid)
    ensures plant.w.passes[pid] == After(old(plant.w.passes[pid]), if err then Failed else Written)
    ensures machine.status == status.(state := state)
    ensures machine.rv == if err then old(machine.rv) else old(machine.rv) + 1
  {
    machine.status := status;
    machine.status := machine.status.(state := state);
    err := StatusUpdate(plant, pid, machine);
  }

  // ---------- creating a VM ----------

  /** A server that was accepted and recorded leaves a bare status in state Creating; a refused
      POST is no error and leaves the copy as it was. */
  method CreateVM(plant: Plant, pid: nat, machine: KTMachine) returns (err: bool)
    requires plant.Valid() && pid in plant.w.passes
    requires plant.w.passes[pid].pc.PostVm? && machine.Mirrors(plant.w.passes[pid])
    modifies plant, machine
    ensures plant.Went(pid) && machine.Mirrors(plant.w.passes[pid])
    ensures plant.w.passes[pid].pc == Done(if err then Error else Nil)
    ensures machine.rv == old(machine.rv) ==> err || machine.status == old(machine.status)
    ensures machine.rv != old(machine.rv) ==>
              && !err && machine.rv == old(machine.rv) + 1
              && machine.status.id != "" && machine.status.state == CREATING && IsBare(machine.status)
  {
    var r := plant.PostServer(pid, None);
    if r.Failed? {
      return true;
    }
    if r.Vm? {
      err := UpdateVmStatus(plant, pid, machine, FromCloud(r.vm), CREATING);
      return;
    }
    return false;
  }

  /** `machine` is the callee's own copy: the caller's keeps its status and version. */
  method CreateWorkerVM(plant: Plant, pid: nat, machine: KTMachine, address: string) returns (err: bool)
    requires plant.Valid() && pid in plant.w.passes
    requires plant.w.passes[pid].pc == PostWorker(address) && machine.Mirrors(plant.w.passes[pid])
    modifies plant, machine
    ensures plant.Went(pid)
    ensures plant.w.passes[pid] ==
            if err then End(old(plant.w.passes[pid]), Error) else Joined(old(plant.w.passes[pid]))
  {
    var r := plant.PostServer(pid, Some(address));
    if r.Failed? {
      return true;
    }
    if r.Vm? {
      err := UpdateVmStatus(plant, pid, machine, FromCloud(r.vm), CREATING);
      return;
    }
    return false;
  }

  // ---------- public IP ----------

  /** The addresses of one network, paired with its name. */
  function Row(n: string, addrs: seq<string>): seq<(string, string)> {
    seq(|addrs|, i requires 0 <= i < |addrs| => (n, addrs[i]))
  }

  /** All pairs, network by network in the order the map was iterated. */
  function Pairs(order: seq<string>, addresses: map<string, seq<string>>): seq<(string, string)>
    requires forall n :: n in order ==> n in addresses
  {
    if order == [] then []
    else
      var last := order[|order| - 1];
      Pairs(order[..|order| - 1], addresses) + Row(last, addresses[last])
  }

  lemma {:induction false} FirstPair(order: seq<string>, addresses: map<string, seq<string>>)
    requires forall n :: n in order ==> n in addresses
    ensures var ps := Pairs(order, addresses);
            if ps == [] then forall n :: n in order ==> addresses[n] == []
            else ps[0].0 in order && |addresses[ps[0].0]| > 0 && addresses[ps[0].0][0] == ps[0].1
  {
    if order == [] {
    } else {
      var init, last := order[..|order| - 1], order[|order| - 1];
      FirstPair(init, addresses);
      assert order == init + [last];
      if addresses[last] != [] {
        assert Row(last, addresses[last])[0] == (last, addresses[last][0]);
      }
    }
  }

  /** Some order of the keys, as a range over a map gives it. */
  method Keys(addresses: map<string, seq<string>>) returns (order: seq<string>)
    ensures forall n :: n in order <==> n in addresses
  {
    order := [];
    var left := addresses.Keys;
    while left != {}
      invariant forall n :: n in addresses <==> n in order || n in left
      decreases left
    {
      var n :| n in left;
      order := order + [n];
      left := left - {n};
    }
  }

  method PrivateAddresses(addresses: map<string, seq<string>>) returns (pairs: seq<(string, string)>)
    ensures if pairs == [] then IsPick(NEW_STATUS.(addresses := addresses), Failed)
            else IsPick(NEW_STATUS.(addresses := addresses), Picked(pairs[0].0, pairs[0].1))
  {
    var order := Keys(addresses);
    pairs := [];
    for i := 0 to |order|
      invariant pairs == Pairs(order[..i], addresses)
    {
      ghost var before := pairs;
      var row := addresses[order[i]];
      for j := 0 to |row|
        invariant pairs == before + Row(order[i], row)[..j]
      {
        pairs := pairs + [(order[i], row[j])];
      }
      assert order[..i + 1][..i] == order[..i];
    }
    assert order[..|order|] == order;
    FirstPair(order, addresses);
  }

  method AvailableIps(ips: seq<PublicIp>) returns (free: seq<PublicIp>)
    ensures free == Available(ips)
  {
    free := [];
    for i := 0 to |ips|
      invariant free == Available(ips[..i])
    {
      if ips[i].kind == ASSOCIATE {
        free := free + [ips[i]];
      }
      assert ips[..i + 1][..i] == ips[..i];
    }
    assert ips[..|ips|] == ips;
  }

  /** The status holds one IP more than before: a NAT on the cloud, for this machine and for
      the address it was paired with. */
  ghost predicate HoldsNew(w: World, uid: nat, before: Status, after: Status, networkName: string, mappedIp: string)
  {
    exists a: AssignedIp ::
      && a.network == networkName && a.pvtIp == mappedIp && NatOf(w, uid, a)
      && after == before.(ips := before.ips + [a])
  }

  /** The newest entry is for the first listed IP that is attached to nothing: its id and address. */
  predicate IsFirstFree(st: Status, ips: seq<PublicIp>) {
    && st.ips != [] && S.FirstFree(ips).Some?
    && st.ips[|st.ips| - 1].id == S.FirstFree(ips).value.id
    && st.ips[|st.ips| - 1].ip == S.FirstFree(ips).value.ip
  }

  /** In every run, the IPs of a pass past its NAT are NATs of its machine. */
  lemma NatAttachedFor(plant: Plant, pid: nat)
    requires plant.At(pid)
    requires plant.w.passes[pid].pc.AddFirewall? || plant.w.passes[pid].pc.MarkPending?
    ensures forall a :: a in plant.w.passes[pid].st.ips ==> NatOf(plant.w, plant.w.passes[pid].uid, a)
  {
    plant.ValidReachable();
    ReachableInv(plant.w);
    var l := plant.w.passes[pid];
    assert PassOk(plant.w, pid, l);
    BaseOk(plant.w, pid, l);
  }

  /** Post the NAT and record the public IP it is on. */
  method NatAndRecord(plant: Plant, pid: nat, machine: KTMachine, pub: PublicIp, networkName: string, mappedIp: string)
    returns (err: bool)
    requires plant.At(pid) && machine.Mirrors(plant.w.passes[pid])
    requires plant.w.passes[pid].pc == PostNat(pub, networkName, mappedIp)
    modifies plant, machine
    ensures plant.Went(pid)
    ensures err ==> plant.w.passes[pid].pc == Done(Error) && machine.Mirrors(plant.w.passes[pid])
    ensures !err ==>
              var l := old(plant.w.passes[pid]).(rv := machine.rv, st := machine.status);
              plant.w.passes[pid] == if l.cluster.hasRules then l.(pc := AddFirewall) else Pending(l)
    ensures !err ==>
              && machine.rv == old(machine.rv) + 1
              && HoldsNew(plant.w, machine.uid, old(machine.status), machine.status, networkName, mappedIp)
              && machine.status.ips[|machine.status.ips| - 1].id == pub.id
              && machine.status.ips[|machine.status.ips| - 1].ip == pub.ip
  {
    var r := plant.PostStaticNat(pid, mappedIp, pub.id);
    if !r.Nat? {
      return true;
    }
    var assignedIp := AssignedIp(pub.id, pub.ip, r.natId, networkName, mappedIp);
    var copy := machine.status.(ips := machine.status.ips + [assignedIp]);
    err := UpdateVmStatus(plant, pid, machine, copy, copy.state);
    if !err {
      NatAttachedFor(plant, pid);
      assert assignedIp in machine.status.ips;
    }
  }

  /** Pair the address with the first available public IP and record it. */
  method PairWithPublicIP(plant: Plant, pid: nat, machine: KTMachine, networkName: string, mappedIp: string)
    returns (err: bool)
    requires plant.Valid() && pid in plant.w.passes
    requires plant.w.passes[pid].pc == ListIps(networkName, mappedIp) && machine.Mirrors(plant.w.passes[pid])
    modifies plant, machine
    ensures plant.Went(pid)
    ensures err ==> plant.w.passes[pid].pc == Done(Error)
    ensures !err ==>
              var l := old(plant.w.passes[pid]).(rv := machine.rv, st := machine.status);
              plant.w.passes[pid] == if l.cluster.hasRules then l.(pc := AddFirewall) else Pending(l)
    ensures !err ==>
              && machine.rv == old(machine.rv) + 1
              && HoldsNew(plant.w, machine.uid, old(machine.status), machine.status, networkName, mappedIp)
    ensures !err ==>
              var heard := plant.HeardSince(|old(plant.run)|, pid);
              heard != [] && heard[0].Ips? && IsFirstFree(machine.status, heard[0].ips)
    ensures err ==> machine.Mirrors(plant.w.passes[pid])
  {
    var r := plant.ListPublicIps(pid);
    if r.Failed? {
      return true;
    }
    ghost var run1 := plant.run;
    var publicIps := AvailableIps(r.ips);
    S.FirstFreeIsAvailable(r.ips);
    if |publicIps| == 0 {
      return true;
    }
    err := NatAndRecord(plant, pid, machine, publicIps[0], networkName, mappedIp);
    StillHeard(run1, plant.run, |old(plant.run)|, pid);
  }

  /** Leaves the pass at its next call, with the new IP recorded, or ends it. */
  method AttachPublicIP(plant: Plant, pid: nat, machine: KTMachine) returns (err: bool)
    requires plant.Valid() && pid in plant.w.passes
    requires plant.w.passes[pid].pc.PickAddress? && machine.Mirrors(plant.w.passes[pid])
    modifies plant, machine
    ensures plant.Went(pid)
    ensures err ==> plant.w.passes[pid].pc == Done(Error)
    ensures !err ==>
              var l := old(plant.w.passes[pid]).(rv := machine.rv, st := machine.status);
              plant.w.passes[pid] == if l.cluster.hasRules then l.(pc := AddFirewall) else Pending(l)
    ensures !err ==>
              && machine.rv == old(machine.rv) + 1
              && exists n, a :: IsPick(old(machine.status), Picked(n, a)) &&
                   HoldsNew(plant.w, machine.uid, old(machine.status), machine.status, n, a)
    ensures !err ==>
              var heard := plant.HeardSince(|old(plant.run)|, pid);
              |heard| > 1 && heard[1].Ips? && IsFirstFree(machine.status, heard[1].ips)
    ensures err ==> machine.Mirrors(plant.w.passes[pid])
  {
    var pairs := PrivateAddresses(machine.status.addresses);
    if |pairs| == 0 {
      plant.Choose(pid, Failed);
      return true;
    }
    plant.Choose(pid, Picked(pairs[0].0, pairs[0].1));
    ghost var run1 := plant.run;
    err := PairWithPublicIP(plant, pid, machine, pairs[0].0, pairs[0].1);
    StillHeard(run1, plant.run, |old(plant.run)|, pid);
  }

  // ---------- control-plane readiness ----------

  /** The status a readiness probe looks at. */
  predicate Probes(l: Local, status: Status) {
    || (l.pc.Probe? && l.st == status)
    || (l.pc.ProbeCandidate? && l.pc.next < |l.pc.cands| && l.pc.cands[l.pc.next].st == status)
  }

  /** The probe indexes the first assigned IP; callers owe it an entry. */
  method CheckControlPlaneMachineReady(plant: Plant, pid: nat, status: Status) returns (err: bool)
    requires plant.At(pid) && Probes(plant.w.passes[pid], status) && |status.ips| > 0
    modifies plant
    ensures plant.Went(pid)
    ensures plant.w.passes[pid] == After(old(plant.w.passes[pid]), if err then Failed else Ok)
    ensures plant.HeardSince(|old(plant.run)|, pid) == [if err then Failed else Ok]
  {
    var ok := plant.GetReadiness(pid, status.ips[0].ip);
    err := !ok;
  }

  /** Up to 24 attempts; a torn body is kept until a full one comes. The data is the first full
      body, and nothing is asked after it. */
  method FetchAdminConf(plant: Plant, pid: nat, ip: string) returns (data: Option<string>)
    requires plant.At(pid) && plant.w.passes[pid].pc == Fetch(0, None, false)
    requires plant.w.passes[pid].st.ips != [] && plant.w.passes[pid].st.ips[0].ip == ip
    modifies plant
    ensures plant.Went(pid)
    ensures plant.w.passes[pid] == if data.None? then End(old(plant.w.passes[pid]), Error)
                                   else old(plant.w.passes[pid]).(pc := CreateSecret(data.value))
    ensures data.Some? ==> FetchedFirst(plant.HeardSince(|old(plant.run)|, pid), data.value)
  {
    ghost var l, n := plant.w.passes[pid], |plant.run|;
    ghost var heard: seq<Reply> := [];
    assert plant.run[n..] == [];
    data := None;
    var fetchErr := false;
    var i := 0;
    while i < MAX_FETCHES
      invariant 0 <= i <= MAX_FETCHES && plant.Went(pid)
      invariant plant.w.passes[pid] == Refetch(l, i, data, fetchErr)
      invariant plant.HeardSince(n, pid) == heard && NoneFull(heard, i) && (data.None? || fetchErr)
      decreases MAX_FETCHES - i
    {
      var r := Attempt(plant, pid, ip, n, heard);
      OneMoreHeard(heard, i, r);
      heard := heard + [r];
      if r.Body? {
        return Some(r.data);
      } else if r.Torn? {
        data, fetchErr := Some(r.data), true;
      }
      i := i + 1;
    }
    if fetchErr {
      data := None;
    }
  }

  /** One attempt, added to what was heard since step n. */
  method Attempt(plant: Plant, pid: nat, ip: string, ghost n: nat, ghost heard: seq<Reply>) returns (r: Reply)
    requires plant.At(pid) && S.Now(plant.w.passes[pid]) == S.Asks(S.GetAdminConf(ip))
    requires n <= |plant.run| && plant.HeardSince(n, pid) == heard
    modifies plant
    ensures plant.Went(pid) && plant.w.passes[pid] == After(old(plant.w.passes[pid]), r)
    ensures plant.HeardSince(n, pid) == heard + [r]
  {
    r := plant.GetAdminConf(pid, ip);
    StillHeard(old(plant.run), plant.run, n, pid);
  }

  predicate NoneFull(heard: seq<Reply>, n: nat) {
    |heard| == n && forall i :: 0 <= i < n ==> !heard[i].Body?
  }

  /** The last of at most 24 answers is the only one read in full, and holds the data. */
  predicate FetchedFirst(heard: seq<Reply>, data: string) {
    0 < |heard| <= 24 && NoneFull(heard[..|heard| - 1], |heard| - 1) && heard[|heard| - 1] == Body(data)
  }

  lemma OneMoreHeard(before: seq<Reply>, n: nat, r: Reply)
    requires NoneFull(before, n) && n < 24
    ensures if r.Body? then FetchedFirst(before + [r], r.data) else NoneFull(before + [r], n + 1)
  {
    assert (before + [r])[..n] == before;
  }

  /** On nil the cluster's Secret holds the first full body among this pass's answers. */
  method FetchAndCreateKubeconfigSecret(plant: Plant, pid: nat, machine: KTMachine, cluster: KTCluster)
    returns (err: bool)
    requires plant.At(pid) && |machine.status.ips| > 0 && machine.Mirrors(plant.w.passes[pid])
    requires plant.w.passes[pid].pc == Fetch(0, None, false) && plant.w.passes[pid].cluster == cluster
    modifies plant
    ensures plant.Went(pid)
    ensures err ==> plant.w.passes[pid] == End(old(plant.w.passes[pid]), Error)
    ensures !err ==> exists d :: plant.w.passes[pid] == After(old(plant.w.passes[pid]).(pc := CreateSecret(d)), Ok)
    ensures !err ==>
              var heard := plant.HeardSince(|old(plant.run)|, pid);
              && heard != [] && heard[|heard| - 1].Ok?
              && cluster.name in plant.w.secrets && plant.w.secrets[cluster.name].creator == Some(pid)
              && FetchedFirst(heard[..|heard| - 1], plant.w.secrets[cluster.name].data)
  {
    var data := FetchAdminConf(plant, pid, machine.status.ips[0].ip);
    if data.None? {
      return true;
    }
    ghost var run1 := plant.run;
    var ok := plant.CreateKubeconfigSecret(pid, cluster.name, data.value);
    err := !ok;
    StillHeard(run1, plant.run, |old(plant.run)|, pid);
    ghost var fetched := Replies(run1[|old(plant.run)|..], pid);
    assert (fetched + [Ok])[..|fetched|] == fetched;
    assert ok ==> plant.HeardSince(|old(plant.run)|, pid) == fetched + [Ok];
  }

  // ---------- workers ----------

  /** In every run, each candidate a list shows has exactly one IP. */
  lemma CandidatesHaveIp(plant: Plant, l: Local, ms: seq<Listed>)
    requires plant.Valid() && forall m :: m in ms ==> Listable(plant.w, l.ns, m)
    ensures OneIpEach(Candidates(l.name, ms))
  {
    plant.ValidReachable();
    ReachableInv(plant.w);
    CandidatesJoin(plant.w, l, ms);
  }

  method GetBootstrapReadyMachineControlPlane(plant: Plant, pid: nat, machine: KTMachine)
    returns (err: bool, candidates: seq<Listed>)
    requires plant.At(pid) && plant.w.passes[pid].pc.ListMachines? && machine.Mirrors(plant.w.passes[pid])
    modifies plant
    ensures plant.Went(pid)
    ensures err ==> plant.w.passes[pid] == End(old(plant.w.passes[pid]), Error)
    ensures !err && |candidates| == 0 ==> plant.w.passes[pid] == End(old(plant.w.passes[pid]), Nil)
    ensures !err && |candidates| > 0 ==>
              && OneIpEach(candidates)
              && plant.w.passes[pid] == old(plant.w.passes[pid]).(pc := ProbeCandidate(candidates, 0))
  {
    ghost var l := plant.w.passes[pid];
    var r := plant.ListMachinesIn(pid, machine.ns);
    if r.Failed? {
      return true, [];
    }
    err, candidates := false, [];
    for i := 0 to |r.machines|
      invariant candidates == Candidates(machine.name, r.machines[..i])
    {
      var m := r.machines[i];
      if m.name != machine.name && Contains(m.name, CONTROL_PLANE_LABEL) && m.st.state == STATUS_ACTIVE &&
         m.st.cpRef.kind == BOOTSTRAP_READY && m.st.cpRef.ready {
        candidates := candidates + [m];
      }
      assert r.machines[..i + 1][..i] == r.machines[..i];
    }
    assert r.machines[..|r.machines|] == r.machines;
    CandidatesHaveIp(plant, l, r.machines);
  }

  /** Probe the candidates in order: the first one that answers, or |candidates|. */
  method ChooseControlPlane(plant: Plant, pid: nat, candidates: seq<Listed>) returns (i: nat)
    requires plant.At(pid) && OneIpEach(candidates) && |candidates| > 0
    requires plant.w.passes[pid].pc == ProbeCandidate(candidates, 0)
    modifies plant
    ensures plant.Went(pid) && i <= |candidates|
    ensures i < |candidates| ==>
              && |candidates[i].st.ips| == 1
              && plant.w.passes[pid] == old(plant.w.passes[pid]).(pc := PostWorker(candidates[i].st.ips[0].pvtIp))
    ensures i == |candidates| ==> plant.w.passes[pid] == End(old(plant.w.passes[pid]), Panic)
  {
    ghost var l := plant.w.passes[pid];
    i := 0;
    while i < |candidates|
      invariant 0 <= i <= |candidates| && plant.Went(pid)
      invariant plant.w.passes[pid] == NextCandidate(l, candidates, i)
      decreases |candidates| - i
    {
      var err := CheckControlPlaneMachineReady(plant, pid, candidates[i].st);
      if !err {
        return;
      }
      i := i + 1;
    }
  }

  /** The machine is passed by value: whatever the callee writes, the caller's copy keeps
      its status and its resource version, and so does the pass. */
  method JoinControlPlane(plant: Plant, pid: nat, candidates: seq<Listed>, machine: KTMachine)
    returns (v: Verdict)
    requires plant.At(pid) && machine.Mirrors(plant.w.passes[pid])
    requires OneIpEach(candidates) && |candidates| > 0
    requires plant.w.passes[pid].pc == ProbeCandidate(candidates, 0)
    modifies plant
    ensures plant.Went(pid)
    ensures v == Nil ==> plant.w.passes[pid] == Joined(old(plant.w.passes[pid]))
    ensures v != Nil ==> plant.w.passes[pid] == End(old(plant.w.passes[pid]), v)
  {
    var i := ChooseControlPlane(plant, pid, candidates);
    if i == |candidates| {
      return Panic;
    }
    var address := candidates[i].st.ips[0].pvtIp;
    var copy := new KTMachine(machine.uid, machine.ns, machine.name, machine.rv, machine.status);
    var err := CreateWorkerVM(plant, pid, copy, address);
    v := if err then Error else Nil;
  }

  // ---------- the pass ----------

  /** From an ACTIVE control plane without a public IP to one marked pending: on success both
      writes landed, and the status holds the new IP and the mark. */
  method AttachAndMark(plant: Plant, pid: nat, machine: KTMachine, cluster: KTCluster) returns (err: bool)
    requires plant.At(pid) && machine.Mirrors(plant.w.passes[pid])
    requires plant.w.passes[pid].pc.PickAddress? && plant.w.passes[pid].cluster == cluster
    modifies plant, machine
    ensures plant.Went(pid)
    ensures err ==> plant.w.passes[pid].pc == Done(Error) && machine.Mirrors(plant.w.passes[pid])
    ensures !err ==> plant.w.passes[pid] ==
                     Networked(old(plant.w.passes[pid]).(rv := machine.rv, st := machine.status, pc := MarkPending))
    ensures !err ==>
              && machine.rv == old(machine.rv) + 2
              && machine.status.cpRef == ControlPlaneRef(BOOTSTRAP_READY, false)
              && |machine.status.ips| == |old(machine.status.ips)| + 1
              && machine.status.ips[..|old(machine.status.ips)|] == old(machine.status.ips)
              && machine.status == old(machine.status).(ips := machine.status.ips, cpRef := machine.status.cpRef)
  {
    ghost var l := plant.w.passes[pid];
    err := AttachPublicIP(plant, pid, machine);
    if err {
      return;
    }
    err := FireAndMark(plant, pid, machine, cluster, l.(rv := machine.rv, st := machine.status));
  }

  /** The firewall rules, if the cluster has any, and then the pending mark. */
  method FireAndMark(plant: Plant, pid: nat, machine: KTMachine, cluster: KTCluster, ghost l: Local)
    returns (err: bool)
    requires plant.At(pid) && machine.Mirrors(l) && l.cluster == cluster
    requires plant.w.passes[pid] == if cluster.hasRules then l.(pc := AddFirewall) else Pending(l)
    modifies plant, machine
    ensures plant.Went(pid)
    ensures err ==> plant.w.passes[pid].pc == Done(Error) && machine.Mirrors(plant.w.passes[pid])
    ensures !err ==> plant.w.passes[pid] ==
                     Networked(l.(rv := machine.rv, st := machine.status, pc := MarkPending))
    ensures !err ==>
              && machine.rv == old(machine.rv) + 1
              && machine.status == old(machine.status).(cpRef := ControlPlaneRef(BOOTSTRAP_READY, false))
  {
    if cluster.hasRules {
      var ok := plant.AddFirewallSettings(pid, LastNat(machine.status));
      if !ok {
        return true;
      }
    }
    machine.status := machine.status.(cpRef := ControlPlaneRef(BOOTSTRAP_READY, false));
    err := StatusUpdate(plant, pid, machine);
  }

  /** In every run, a pending control plane about to be probed has an IP to probe. */
  lemma PendingHasIp(plant: Plant, pid: nat, l: Local)
    requires plant.At(pid) && IsControlPlane(l.name) && plant.w.passes[pid] == Networked(l)
    requires l.st.cpRef == ControlPlaneRef(BOOTSTRAP_READY, false)
    ensures |l.st.ips| > 0 && Networked(l) == l.(pc := Probe)
  {
    plant.ValidReachable();
    FirstIpInRange(plant.w, pid);
  }

  /** Probe the API server, store the kubeconfig and turn the control plane ready: on success
      the ready write landed, and it changed nothing else; a probe not answered yes is an error,
      and nothing is asked after it. */
  method MakeReady(plant: Plant, pid: nat, machine: KTMachine, cluster: KTCluster) returns (err: bool)
    requires plant.At(pid) && machine.Mirrors(plant.w.passes[pid]) && plant.w.passes[pid].cluster == cluster
    requires plant.w.passes[pid].pc.Probe? && |machine.status.ips| > 0
    modifies plant, machine
    ensures plant.Went(pid) && machine.Mirrors(plant.w.passes[pid])
    ensures plant.w.passes[pid].pc == Done(if err then Error else Nil)
    ensures !err ==>
              && machine.rv == old(machine.rv) + 1
              && machine.status == old(machine.status).(cpRef := ControlPlaneRef(BOOTSTRAP_READY, true))
    ensures var heard := plant.HeardSince(|old(plant.run)|, pid);
            heard != [] && (!heard[0].Ok? ==> err && |heard| == 1)
  {
    err := CheckControlPlaneMachineReady(plant, pid, machine.status);
    if err {
      return;
    }
    ghost var run1 := plant.run;
    err := StoreAndMark(plant, pid, machine, cluster);
    StillHeard(run1, plant.run, |old(plant.run)|, pid);
  }

  /** The kubeconfig and the ready write, once the probe said yes. */
  method StoreAndMark(plant: Plant, pid: nat, machine: KTMachine, cluster: KTCluster) returns (err: bool)
    requires plant.At(pid) && machine.Mirrors(plant.w.passes[pid]) && plant.w.passes[pid].cluster == cluster
    requires plant.w.passes[pid].pc == Fetch(0, None, false) && |machine.status.ips| > 0
    modifies plant, machine
    ensures plant.Went(pid) && machine.Mirrors(plant.w.passes[pid])
    ensures plant.w.passes[pid].pc == Done(if err then Error else Nil)
    ensures !err ==>
              && machine.rv == old(machine.rv) + 1
              && machine.status == old(machine.status).(cpRef := ControlPlaneRef(BOOTSTRAP_READY, true))
  {
    err := FetchAndCreateKubeconfigSecret(plant, pid, machine, cluster);
    if err {
      return;
    }
    machine.status := machine.status.(cpRef := ControlPlaneRef(BOOTSTRAP_READY, true));
    err := StatusUpdate(plant, pid, machine);
  }

  predicate IsPending(st: Status) {
    st.cpRef.kind == BOOTSTRAP_READY && !st.cpRef.ready
  }

  /** The tail of a control-plane pass. A pending one turns ready or the pass errs; any other
      is left alone. The two places below it that index AssignedPublicIps[0] are in range in
      every run. */
  method CheckBootstrap(plant: Plant, pid: nat, machine: KTMachine, cluster: KTCluster, ghost l: Local)
    returns (err: bool)
    requires plant.At(pid) && machine.Mirrors(l) && l.cluster == cluster && IsControlPlane(l.name)
    requires plant.w.passes[pid] == Networked(l)
    modifies plant, machine
    ensures plant.Went(pid) && machine.Mirrors(plant.w.passes[pid])
    ensures plant.w.passes[pid].pc == Done(if err then Error else Nil)
    ensures !err && IsPending(l.st) ==>
              machine.rv == l.rv + 1 && machine.status == l.st.(cpRef := ControlPlaneRef(BOOTSTRAP_READY, true))
    ensures !IsPending(l.st) ==> !err && machine.Mirrors(l)
  {
    if machine.status.cpRef.kind == BOOTSTRAP_READY && !machine.status.cpRef.ready {
      PendingHasIp(plant, pid, l);
      err := MakeReady(plant, pid, machine, cluster);
      return;
    }
    return false;
  }

  /** Ask the cloud; when its state moved, the whole status becomes the cloud's record. */
  method SyncControlPlane(plant: Plant, pid: nat, machine: KTMachine) returns (err: bool)
    requires plant.At(pid) && machine.Mirrors(plant.w.passes[pid]) && plant.w.passes[pid].pc.GetVm?
    modifies plant, machine
    ensures plant.Went(pid)
    ensures err ==> plant.w.passes[pid].pc == Done(Error) && machine.Mirrors(plant.w.passes[pid])
    ensures !err ==>
              var pc := if machine.rv == old(machine.rv) then GetVm else Overwrite;
              var l := old(plant.w.passes[pid]).(rv := machine.rv, st := machine.status, pc := pc);
              plant.w.passes[pid] == Synced(l)
    ensures !err && machine.rv == old(machine.rv) ==> machine.status == old(machine.status)
    ensures !err && machine.rv != old(machine.rv) ==>
              && machine.rv == old(machine.rv) + 1
              && machine.status.id == old(machine.status.id) && machine.status.state != old(machine.status.state)
              && IsBare(machine.status)
  {
    var r := plant.GetServer(pid, machine.status.id);
    if r.Failed? {
      return true;
    }
    if machine.status.state != r.vm.state {
      machine.status := FromCloud(r.vm);
      err := StatusUpdate(plant, pid, machine);
      return;
    }
    return false;
  }

  /** The rest of a control-plane pass, its status agreeing with the cloud. */
  method SettleControlPlane(plant: Plant, pid: nat, machine: KTMachine, cluster: KTCluster, ghost l: Local)
    returns (err: bool)
    requires plant.At(pid) && machine.Mirrors(l) && l.cluster == cluster && IsControlPlane(l.name)
    requires plant.w.passes[pid] == Synced(l)
    modifies plant, machine
    ensures plant.Went(pid) && machine.Mirrors(plant.w.passes[pid])
    ensures plant.w.passes[pid].pc == Done(if err then Error else Nil)
    ensures l.st.state != STATUS_ACTIVE ==> !err && machine.Mirrors(l)
    ensures !err && l.st.state == STATUS_ACTIVE ==> !IsPending(machine.status)
  {
    if machine.status.state != STATUS_ACTIVE {
      return false;
    }
    ghost var l' := l;
    if cluster.external && |machine.status.ips| == 0 {
      err := AttachAndMark(plant, pid, machine, cluster);
      if err {
        return;
      }
      l' := l.(rv := machine.rv, st := machine.status, pc := MarkPending);
    }
    err := CheckBootstrap(plant, pid, machine, cluster, l');
  }

  /** A pass over a control plane: at its end the copy is what the protocol says the pass
      holds, and an ACTIVE one is not left pending without an error. */
  method ReconcileControlPlane(plant: Plant, pid: nat, machine: KTMachine, cluster: KTCluster) returns (err: bool)
    requires plant.At(pid) && machine.Mirrors(plant.w.passes[pid]) && plant.w.passes[pid].cluster == cluster
    requires IsControlPlane(machine.name)
    requires plant.w.passes[pid].pc == if machine.status.id == "" then PostVm else GetVm
    modifies plant, machine
    ensures plant.Went(pid) && machine.Mirrors(plant.w.passes[pid])
    ensures plant.w.passes[pid].pc == Done(if err then Error else Nil)
    ensures !err && old(machine.status.id) != "" && machine.status.state == STATUS_ACTIVE ==>
              !IsPending(machine.status)
  {
    if machine.status.id == "" {
      err := CreateVM(plant, pid, machine);
      return;
    }
    ghost var l, rv := plant.w.passes[pid], machine.rv;
    err := SyncControlPlane(plant, pid, machine);
    if err {
      return;
    }
    l := l.(rv := machine.rv, st := machine.status, pc := if machine.rv == rv then GetVm else Overwrite);
    err := SettleControlPlane(plant, pid, machine, cluster, l);
  }

  /** Wait for a ready control plane, create the VM that joins it, and set the flag. Nil here
      means that no control plane was ready and nothing was done. */
  method JoinCluster(plant: Plant, pid: nat, machine: KTMachine) returns (v: Option<Verdict>)
    requires plant.At(pid) && machine.Mirrors(plant.w.passes[pid]) && plant.w.passes[pid].pc.ListMachines?
    modifies plant, machine
    ensures plant.Went(pid) && machine.Mirrors(plant.w.passes[pid])
    ensures v.Some? ==> plant.w.passes[pid].pc == Done(v.value) && machine.rv == old(machine.rv)
    ensures v == Some(Nil) ==> machine.status == old(machine.status)
    ensures v.None? ==>
              && plant.w.passes[pid].pc.GetWorkerVm? && machine.rv == old(machine.rv) + 1
              && machine.status == old(machine.status).(joined := true)
  {
    var err, candidates := GetBootstrapReadyMachineControlPlane(plant, pid, machine);
    if err {
      return Some(Error);
    }
    if |candidates| == 0 {
      return Some(Nil);
    }
    var joined := JoinControlPlane(plant, pid, candidates, machine);
    if joined != Nil {
      return Some(joined);
    }
    machine.status := machine.status.(joined := true);
    err := StatusUpdate(plant, pid, machine);
    return if err then Some(Error) else None;
  }

  /** Follow the cloud's state. The flag set on the copy is in nothing the pass writes: the
      overwrite clears it, and without the overwrite nothing is written. */
  method SyncWorker(plant: Plant, pid: nat, machine: KTMachine) returns (v: Verdict)
    requires plant.At(pid) && machine.Mirrors(plant.w.passes[pid]) && plant.w.passes[pid].pc.GetWorkerVm?
    modifies plant, machine
    ensures plant.Went(pid)
    ensures plant.w.passes[pid].pc == Done(v)
    ensures var st := plant.w.passes[pid].st;
            || (st == old(machine.status) && machine.rv == old(machine.rv))
            || (IsBare(st) && st.state != old(machine.status.state) && st.id == old(machine.status.id))
    ensures machine.rv != old(machine.rv) ==> v == Nil && machine.Mirrors(plant.w.passes[pid])
  {
    var r := plant.GetServer(pid, machine.status.id);
    if r.Failed? {
      return Error;
    }
    var read := machine.status.state;
    if !machine.status.joined {
      machine.status := machine.status.(joined := true);
    }
    if read != r.vm.state {
      var err := AdoptRecord(plant, pid, machine, r.vm);
      v := if err then Error else Nil;
      return;
    }
    return Nil;
  }

  /** A worker's whole status becomes the cloud's record, and the pass is over. */
  method AdoptRecord(plant: Plant, pid: nat, machine: KTMachine, vm: CloudVm) returns (err: bool)
    requires plant.At(pid) && plant.w.passes[pid].pc.OverwriteWorker?
    requires var l := plant.w.passes[pid];
             machine.uid == l.uid && machine.ns == l.ns && machine.name == l.name && machine.rv == l.rv &&
             l.st == FromCloud(vm)
    modifies plant, machine
    ensures plant.Went(pid) && machine.Mirrors(plant.w.passes[pid]) && machine.status == FromCloud(vm)
    ensures plant.w.passes[pid].pc == Done(if err then Error else Nil)
    ensures machine.rv == if err then old(machine.rv) else old(machine.rv) + 1
  {
    machine.status := FromCloud(vm);
    err := StatusUpdate(plant, pid, machine);
  }

  method ReconcileWorker(plant: Plant, pid: nat, machine: KTMachine) returns (v: Verdict)
    requires plant.At(pid) && machine.Mirrors(plant.w.passes[pid]) && !IsControlPlane(machine.name)
    requires plant.w.passes[pid].pc ==
             if machine.status.state == "" && !machine.status.joined then ListMachines else GetWorkerVm
    modifies plant, machine
    ensures plant.Went(pid)
    ensures plant.w.passes[pid].pc == Done(v)
  {
    if machine.status.state == "" && !machine.status.joined {
      var ended := JoinCluster(plant, pid, machine);
      if ended.Some? {
        return ended.value;
      }
    }
    v := SyncWorker(plant, pid, machine);
  }

  lemma PassVerdict(first: World, run: seq<Step>, n: nat, w: World, pid: nat, v: Verdict)
    requires n < |run| && Legal(first, run) && NoCrash(run, n, pid)
    requires Legal(first, run[..n + 1]) && Exec(first, run[..n + 1]) == w && pid in w.passes
    requires pid in Exec(first, run).passes && Exec(first, run).passes[pid].pc == Done(v)
    ensures Exec(first, run).passes[pid] == Ran(w.passes[pid], Replies(run[n + 1..], pid))
    ensures forall uid: nat, ns, name, cl, rv: nat, st :: w.passes[pid] == Start(uid, ns, name, cl, rv, st) ==>
              S.Expected(ns, name, cl, rv, st, Replies(run[n + 1..], pid)) == S.Ends(v)
  {
    BegunPass(first, run, n, w, pid);
    forall uid: nat, ns, name, cl, rv: nat, st | w.passes[pid] == Start(uid, ns, name, cl, rv, st)
      ensures S.Expected(ns, name, cl, rv, st, Replies(run[n + 1..], pid)) == S.Ends(v)
    {
      S.PassFollowsScript(uid, ns, name, cl, rv, st, Replies(run[n + 1..], pid));
    }
  }

  /** One pass over one machine, by its own name `pid`, having read some version `rv` of it
      and some spec of its cluster. Whatever happens between its calls, everything that
      happened is a legal run, the pass did not crash in it, and it ends, with its verdict,
      where the protocol is taken by the replies its own calls got. */
  method ReconcilePass(plant: Plant, pid: nat, uid: nat, rv: nat, cluster: KTCluster) returns (v: Verdict)
    requires plant.Valid() && Enabled(plant.w, Begin(pid, uid, rv, cluster))
    modifies plant
    ensures plant.At(pid) && plant.first == old(plant.first) && old(plant.run) < plant.run
    ensures plant.run[|old(plant.run)|] == Begin(pid, uid, rv, cluster)
    ensures NoCrash(plant.run, |old(plant.run)|, pid)
    ensures plant.w.passes[pid].uid == uid && plant.w.passes[pid].pc == Done(v)
    ensures var m := old(plant.w.machines[uid]);
            plant.w.passes[pid] ==
            Ran(Start(uid, m.ns, m.name, cluster, rv, m.versions[rv]),
                Replies(plant.run[|old(plant.run)| + 1..], pid))
    ensures var m := old(plant.w.machines[uid]);
            var heard := plant.HeardSince(|old(plant.run)| + 1, pid);
            S.Expected(m.ns, m.name, cluster, rv, m.versions[rv], heard) == S.Ends(v)
  {
    var m := plant.w.machines[uid];
    ghost var n := |plant.run|;
    var machine := new KTMachine(uid, m.ns, m.name, rv, m.versions[rv]);
    plant.Take(Begin(pid, uid, rv, cluster));
    ghost var w1, run1 := plant.w, plant.run;
    v := RunPass(plant, pid, machine, cluster);
    assert plant.run[..n + 1] == run1 && run1[n] == Begin(pid, uid, rv, cluster);
    PassVerdict(plant.first, plant.run, n, w1, pid, v);
  }

  /** reconcileInfrastructure: by role. */
  method RunPass(plant: Plant, pid: nat, machine: KTMachine, cluster: KTCluster) returns (v: Verdict)
    requires plant.At(pid) && machine.Mirrors(plant.w.passes[pid]) && plant.w.passes[pid].cluster == cluster
    requires plant.w.passes[pid].pc ==
             Start(machine.uid, machine.ns, machine.name, cluster, machine.rv, machine.status).pc
    modifies plant, machine
    ensures plant.Went(pid)
    ensures plant.w.passes[pid].pc == Done(v)
  {
    if IsControlPlane(machine.name) {
      var err := ReconcileControlPlane(plant, pid, machine, cluster);
      v := if err then Error else Nil;
    } else {
      v := ReconcileWorker(plant, pid, machine);
    }
  }
}

/** AddFirewallSettings as it runs: it looks up the external network, posts one policy for the
    machine's last NAT, and records the cloud's answer in the firewall object. Every run of it
    is a run of the site in `Firewall`. */
module FirewallCalls {
  import opened KTObjects
  import opened Firewall

  lemma {:induction false} ExecAppend(first: Site, run: seq<Step>, t: Step)
    requires Legal(first, run) && Enabled(Exec(first, run), t)
    ensures Legal(first, run + [t]) && Exec(first, run + [t]) == Apply(Exec(first, run), t)
    decreases |run|
  {
    if run == [] {
      assert [t][1..] == [];
    } else {
      ExecAppend(Apply(first, run[0]), run[1..], t);
      assert (run + [t])[1..] == run[1..] + [t];
    }
  }

  predicate Moves(t: Step, pid: nat) {
    !t.Touch? && t.pid == pid
  }

  datatype NetworkData = NetworkData(id: string, name: string, kind: string)

  /** The rule of a KTCluster's security group. */
  datatype GroupRule = GroupRule(startPort: string, endPort: string, action: string, protocol: string)

  /** A public IP as the cloud lists it; `nats` counts the NATs on it. */
  datatype ListedIp = ListedIp(kind: string, nats: nat)

  const STATIC_NAT := "STATICNAT"
  const EXTERNAL := "external"
  const UNTRUST := "UNTRUST"

  /** The shape of an answer to each remote call. */
  predicate Fits(pc: Pc, r: Reply) {
    match pc
    case Post => r.Accepted?
    case Make => r.Landed?
    case Write(_) => r.Landed?
    case _ => r.Missing? || r.Version?
  }

  /** The copy of the firewall object a call edits. */
  class FirewallCopy {
    const rv: nat
    var rules: seq<Rule>
    var jobs: seq<Job>

    constructor (rv: nat, stored: Record)
      ensures this.rv == rv && rules == stored.rules && jobs == stored.jobs
    {
      this.rv, rules, jobs := rv, stored.rules, stored.jobs;
    }
  }

  /** From step n on, the call did not crash. */
  predicate NoCrash(run: seq<Step>, n: nat, pid: nat) {
    forall i :: n <= i < |run| && run[i].Crash? ==> run[i].pid != pid
  }

  class Plant {
    var s: Site
    ghost var run: seq<Step>

    ghost predicate Valid()
      reads this
    {
      Legal(NOTHING, run) && Exec(NOTHING, run) == s
    }

    /** The run went on and call `pid` stands at `c`. */
    twostate predicate Went(pid: nat, c: Call)
      reads this
    {
      Valid() && old(run) <= run && NoCrash(run, |old(run)|, pid) && pid in s.calls && s.calls[pid] == c
    }

    /** The call ended with an error, wherever it was. */
    twostate predicate Broke(pid: nat, rule: Rule)
      reads this
    {
      && Valid() && old(run) <= run && NoCrash(run, |old(run)|, pid)
      && pid in s.calls && s.calls[pid].rule == rule && s.calls[pid].pc == Done(false)
    }

    method Take(t: Step)
      requires Valid() && Enabled(s, t)
      modifies this
      ensures Valid() && run == old(run) + [t] && s == Apply(old(s), t)
    {
      ExecAppend(NOTHING, run, t);
      s := Apply(s, t);
      run := run + [t];
    }

    method Interfere(pid: nat)
      requires Valid()
      modifies this
      ensures Valid() && old(run) <= run && NoCrash(run, |old(run)|, pid)
      ensures pid in s.calls <==> old(pid in s.calls)
      ensures pid in s.calls ==> s.calls[pid] == old(s.calls[pid])
      ensures old(s.versions) <= s.versions
    {
      var n: nat := *;
      while n > 0
        invariant Valid() && old(run) <= run && NoCrash(run, |old(run)|, pid)
        invariant pid in s.calls <==> old(pid in s.calls)
        invariant pid in s.calls ==> s.calls[pid] == old(s.calls[pid])
        invariant old(s.versions) <= s.versions
      {
        var t: Step := *;
        if Enabled(s, t) && !Moves(t, pid) {
          Take(t);
        }
        n := n - 1;
      }
    }

    /** One remote call of `pid`: answered, failed, or done with its reply lost. */
    method Answer(pid: nat) returns (r: Reply)
      requires Valid() && pid in s.calls && !s.calls[pid].pc.Done?
      modifies this
      ensures r.Failed? ==> Broke(pid, old(s.calls[pid].rule))
      ensures !r.Failed? ==> Went(pid, After(old(s.calls[pid]), r))
      ensures r.Failed? || Fits(old(s.calls[pid].pc), r)
      ensures r.Version? ==> r.rv < |s.versions|
      ensures r.Accepted? ==> Policy(r.job, s.calls[pid].rule, pid) in s.policies
    {
      Interfere(pid);
      var t: Step := *;
      if !(Enabled(s, t) && (t.Deliver? || t.LoseReply?) && t.pid == pid) {
        t := Deliver(pid, Failed);
      }
      r := if t.Deliver? then t.reply else Failed;
      Take(t);
    }

    method PostPolicy(pid: nat, rule: Rule) returns (job: Option<Job>)
      requires Valid() && pid !in s.calls
      modifies this
      ensures Valid() && old(run) <= run && NoCrash(run, |old(run)|, pid)
      ensures pid in s.calls && s.calls[pid].rule == rule
      ensures job.Some? ==> s.calls[pid] == Call(rule, job, Read) && Policy(job.value, rule, pid) in s.policies
      ensures job.None? ==> s.calls[pid].pc == Done(false)
    {
      Interfere(pid);
      Take(Begin(pid, rule));
      var r := Answer(pid);
      job := if r.Accepted? then Some(r.job) else None;
    }

    /** The object at some version it had, absent, or an error. */
    method GetFirewall(pid: nat) returns (r: Reply, stored: Record)
      requires Valid() && pid in s.calls && (s.calls[pid].pc.Read? || s.calls[pid].pc.Reread?)
      modifies this
      ensures r.Failed? ==> Broke(pid, old(s.calls[pid].rule))
      ensures !r.Failed? ==> (r.Missing? || r.Version?) && Went(pid, After(old(s.calls[pid]), r))
      ensures r.Version? ==> r.rv < |s.versions| && stored == s.versions[r.rv]
    {
      r := Answer(pid);
      stored := if r.Version? then s.versions[r.rv] else Record([], []);
    }

    /** Create keeps the spec and drops the status it was given. */
    method CreateFirewall(pid: nat, rules: seq<Rule>, jobs: seq<Job>) returns (err: bool)
      requires Valid() && pid in s.calls && s.calls[pid].pc.Make? && rules == [s.calls[pid].rule]
      modifies this
      ensures err ==> Broke(pid, old(s.calls[pid].rule))
      ensures !err ==> Went(pid, old(s.calls[pid]).(pc := Reread))
    {
      var r := Answer(pid);
      err := r.Failed?;
    }

    /** Status().Update keeps the jobs and drops the rules. */
    method UpdateStatus(pid: nat, copy: FirewallCopy) returns (err: bool)
      requires Valid() && pid in s.calls && s.calls[pid].pc == Write(copy.rv) && s.calls[pid].job.Some?
      requires copy.rv < |s.versions| && copy.jobs == s.versions[copy.rv].jobs + [s.calls[pid].job.value]
      modifies this
      ensures Valid() && old(run) <= run && NoCrash(run, |old(run)|, pid)
      ensures pid in s.calls && s.calls[pid].rule == old(s.calls[pid].rule)
      ensures s.calls[pid].pc == Done(!err)
      ensures !err ==> s.calls[pid].job == old(s.calls[pid].job)
    {
      var r := Answer(pid);
      err := r.Failed?;
    }
  }

  predicate HasNat(ip: ListedIp) { ip.kind == "STATICNAT" && ip.nats > 0 }

  /** What was kept of a list, and from which places: each place with a NAT, once, in order. */
  ghost predicate Keeps(ips: seq<ListedIp>, kept: seq<ListedIp>, from: seq<nat>) {
    && |from| == |kept| && (forall k, l :: 0 <= k < l < |from| ==> from[k] < from[l])
    && (forall k :: 0 <= k < |kept| ==> from[k] < |ips| && kept[k] == ips[from[k]])
    && (forall i: nat :: i < |ips| ==> (i in from <==> HasNat(ips[i])))
  }

  lemma KeepsOneMore(ips: seq<ListedIp>, kept: seq<ListedIp>, from: seq<nat>, ip: ListedIp)
    requires Keeps(ips, kept, from)
    ensures if HasNat(ip) then Keeps(ips + [ip], kept + [ip], from + [|ips|]) else Keeps(ips + [ip], kept, from)
  {
    var n := |ips|;
    assert n !in from;
    forall i: nat | i < n ensures i in from + [n] <==> i in from {
    }
  }

  lemma KeepsAll(ips: seq<ListedIp>, kept: seq<ListedIp>, from: seq<nat>)
    requires Keeps(ips, kept, from)
    ensures forall ip :: ip in kept <==> ip in ips && HasNat(ip)
  {
    forall ip | ip in ips && HasNat(ip) ensures ip in kept {
      var i: nat :| i < |ips| && ips[i] == ip;
      var k :| 0 <= k < |from| && from[k] == i;
      assert kept[k] == ip;
    }
    forall ip | ip in kept ensures ip in ips && HasNat(ip) {
      var k :| 0 <= k < |kept| && kept[k] == ip;
      assert from[k] in from;
    }
  }

  /** The listed IPs that carry a NAT: all of them, once per place in the list, in list order. */
  method AssignedIps(ips: seq<ListedIp>) returns (kept: seq<ListedIp>, ghost from: seq<nat>)
    ensures forall ip :: ip in kept <==> ip in ips && HasNat(ip)
    ensures Keeps(ips, kept, from)
  {
    kept, from := [], [];
    for i := 0 to |ips|
      invariant Keeps(ips[..i], kept, from)
    {
      KeepsOneMore(ips[..i], kept, from, ips[i]);
      assert ips[..i + 1] == ips[..i] + [ips[i]];
      if ips[i].kind == STATIC_NAT && ips[i].nats > 0 {
        kept, from := kept + [ips[i]], from + [i];
      }
    }
    assert ips[..|ips|] == ips;
    KeepsAll(ips, kept, from);
  }

  predicate IsExternal(n: NetworkData) { n.name == "external" || n.kind == "UNTRUST" }

  predicate FirstExternal(networks: seq<NetworkData>, i: int) {
    0 <= i < |networks| && IsExternal(networks[i]) && forall j :: 0 <= j < i ==> !IsExternal(networks[j])
  }

  /** The id of the first external network; empty when there is none. */
  method ExternalNetworkId(networks: seq<NetworkData>) returns (id: string)
    ensures forall i :: FirstExternal(networks, i) ==> id == networks[i].id
    ensures id != "" ==> exists i :: FirstExternal(networks, i)
  {
    id := "";
    for i := 0 to |networks|
      invariant id == "" && forall j :: 0 <= j < i ==> !IsExternal(networks[j])
    {
      if networks[i].name == EXTERNAL || networks[i].kind == UNTRUST {
        assert FirstExternal(networks, i);
        return networks[i].id;
      }
    }
  }

  function LastNatOf(ips: seq<AssignedIp>): string {
    if ips == [] then "" else ips[|ips| - 1].natId
  }

  /** The loop leaves the last NAT of the list. */
  method LastStaticNat(ips: seq<AssignedIp>) returns (natId: string)
    ensures natId == LastNatOf(ips)
  {
    natId := "";
    for z := 0 to |ips|
      invariant natId == if z == 0 then "" else ips[z - 1].natId
    {
      natId := ips[z].natId;
    }
  }

  /** Creates the object, or adds the job to the one there is. */
  method CreateFirewallObjectInK8s(plant: Plant, pid: nat, job: Job, rule: Rule) returns (err: bool)
    requires plant.Valid() && pid in plant.s.calls && plant.s.calls[pid] == Call(rule, Some(job), Read)
    modifies plant
    ensures plant.Valid() && old(plant.run) <= plant.run && NoCrash(plant.run, |old(plant.run)|, pid)
    ensures pid in plant.s.calls
    ensures plant.s.calls[pid].rule == rule && plant.s.calls[pid].pc == Done(!err)
    ensures !err ==> plant.s.calls[pid].job == Some(job) && job in Jobs(plant.s)
  {
    var r, stored := plant.GetFirewall(pid);
    if r.Failed? {
      return true;
    }
    if r.Missing? {
      err := plant.CreateFirewall(pid, [rule], [job]);
      if err {
        return;
      }
      r, stored := plant.GetFirewall(pid);
      if !r.Version? {
        return true;
      }
      var created := new FirewallCopy(r.rv, stored);
      created.jobs := created.jobs + [job];
      err := plant.UpdateStatus(pid, created);
    } else {
      var existing := new FirewallCopy(r.rv, stored);
      existing.rules := existing.rules + [rule];
      existing.jobs := existing.jobs + [job];
      err := plant.UpdateStatus(pid, existing);
    }
    RunKeeps(NOTHING, plant.run);
  }

  /** The rule a call posts: the group's ports, action and protocol, from the external network
      to the NAT. */
  ghost predicate RuleFor(rule: Rule, group: GroupRule, networks: seq<NetworkData>, natId: string) {
    && !rule.srcNat && rule.staticNatId == natId
    && rule.startPort == group.startPort && rule.endPort == group.endPort
    && rule.action == group.action && rule.protocol == group.protocol
    && exists i :: FirstExternal(networks, i) && rule.srcNetwork == [networks[i].id] && networks[i].id != ""
  }

  /** The lookups allow a post: some IP carries a NAT, and there is an external network. */
  ghost predicate CanPost(publicIps: Option<seq<ListedIp>>, networks: Option<seq<NetworkData>>) {
    && publicIps.Some? && (exists i :: 0 <= i < |publicIps.value| && HasNat(publicIps.value[i]))
    && networks.Some? && exists i :: FirstExternal(networks.value, i) && networks.value[i].id != ""
  }

  /** The answers of the two lookups are parameters: none stands for a failed one. When the
      call returns nil its job is recorded, and it posted the one policy it should; it posts if and
      only if the lookups allow it. */
  method AddFirewallSettings(plant: Plant, pid: nat, ips: seq<AssignedIp>, group: GroupRule,
                             publicIps: Option<seq<ListedIp>>, networks: Option<seq<NetworkData>>)
    returns (err: bool)
    requires plant.Valid() && pid !in plant.s.calls
    modifies plant
    ensures plant.Valid() && old(plant.run) <= plant.run && NoCrash(plant.run, |old(plant.run)|, pid)
    ensures pid in plant.s.calls <==> CanPost(publicIps, networks)
    ensures !err ==> pid in plant.s.calls
    ensures pid in plant.s.calls ==>
              && plant.s.calls[pid].pc == Done(!err)
              && networks.Some?
              && RuleFor(plant.s.calls[pid].rule, group, networks.value, LastNatOf(ips))
    ensures !err ==> plant.s.calls[pid].job.Some? && plant.s.calls[pid].job.value in Jobs(plant.s)
    ensures !err ==> Policy(plant.s.calls[pid].job.value, plant.s.calls[pid].rule, pid) in plant.s.policies
  {
    if publicIps.None? {
      return true;
    }
    var withNat;
    ghost var from;
    withNat, from := AssignedIps(publicIps.value);
    assert withNat != [] ==> HasNat(publicIps.value[from[0]]) by { assert withNat != [] ==> from[0] in from; }
    if |withNat| == 0 {
      return true;
    }
    if networks.None? || |networks.value| == 0 {
      return true;
    }
    var externalNetworkId := ExternalNetworkId(networks.value);
    if |externalNetworkId| == 0 {
      return true;
    }
    var staticNatId := LastStaticNat(ips);
    var rule := Rule(false, group.startPort, group.endPort, group.action, group.protocol,
        [externalNetworkId], staticNatId);
    var job := plant.PostPolicy(pid, rule);
    if job.None? {
      return true;
    }
    err := CreateFirewallObjectInK8s(plant, pid, job.value, rule);
    if !err {
      RunKeeps(NOTHING, plant.run);
      assert CallOk(plant.s, plant.s.calls[pid]) && Posted(plant.s, pid);
      var i :| 0 <= i < |plant.s.policies| && plant.s.policies[i].call == pid &&
               plant.s.policies[i].answer == plant.s.calls[pid].job.value;
      assert PolicyOk(plant.s, i);
    }
  }
}

/** The firewall policies one machine has on the cloud, and the KTNetworkFirewall object that
    records them. Calls to AddFirewallSettings may overlap, read stale versions, fail anywhere
    or lose a reply; the object is not deleted. */
module Firewall {
  import opened KTObjects

  datatype Rule = Rule(srcNat: bool, startPort: string, endPort: string, action: string, protocol: string,
                       srcNetwork: seq<string>, staticNatId: string)

  datatype Job = Job(jobId: string, vpcId: string, policyId: string, detail: string)

  /** A policy on the cloud: what the cloud answered when it took it, and the call that posted it. */
  datatype Policy = Policy(answer: Job, rule: Rule, call: nat)

  /** Spec and status of the stored object. */
  datatype Record = Record(rules: seq<Rule>, jobs: seq<Job>)

  datatype Pc = Post | Read | Make | Reread | Write(rv: nat) | Done(ok: bool)

  /** One call: the rule it posts, the job the cloud answered with, its next remote call. */
  datatype Call = Call(rule: Rule, job: Option<Job>, pc: Pc)

  /** `versions` holds every version of the object, none while it does not exist. */
  datatype Site = Site(policies: seq<Policy>, versions: seq<Record>, calls: map<nat, Call>)

  datatype Reply = Failed | Accepted(job: Job) | Missing | Version(rv: nat) | Landed

  datatype Step =
    | Begin(pid: nat, rule: Rule)
    | Deliver(pid: nat, reply: Reply)
    | LoseReply(pid: nat, reply: Reply)
    | Crash(pid: nat)
    | Touch                               // another write that leaves rules and jobs alone

  predicate Fresh(s: Site, id: string) {
    forall i :: 0 <= i < |s.policies| ==> s.policies[i].answer.policyId != id
  }

  predicate CanReply(s: Site, c: Call, r: Reply) {
    if r.Failed? then !c.pc.Done?
    else match c.pc
         case Post => r.Accepted? && Fresh(s, r.job.policyId)
         case Read => r.Missing? || (r.Version? && r.rv < |s.versions|)
         case Make => r.Landed? && s.versions == []
         case Reread => r.Missing? || (r.Version? && r.rv < |s.versions|)
         case Write(rv) => r.Landed? && rv + 1 == |s.versions| && c.job.Some?
         case Done(_) => false
  }

  function After(c: Call, r: Reply): Call {
    match c.pc
    case Post => if r.Accepted? then c.(job := Some(r.job), pc := Read) else c.(pc := Done(false))
    case Read =>
      if r.Missing? then c.(pc := Make)
      else if r.Version? then c.(pc := Write(r.rv))
      else c.(pc := Done(false))
    case Make => if r.Landed? then c.(pc := Reread) else c.(pc := Done(false))
    case Reread => if r.Version? then c.(pc := Write(r.rv)) else c.(pc := Done(false))
    case Write(_) => c.(pc := Done(r.Landed?))
    case Done(_) => c
  }

  /** Create stores the spec and drops the status; a status update stores the status and drops
      the spec, so the rule the copy gained never reaches the store. */
  function Effect(s: Site, pid: nat, c: Call, r: Reply): Site
    requires CanReply(s, c, r)
  {
    if c.pc.Post? && r.Accepted? then s.(policies := s.policies + [Policy(r.job, c.rule, pid)])
    else if c.pc.Make? && r.Landed? then s.(versions := [Record([c.rule], [])])
    else if c.pc.Write? && r.Landed? then
      var last := s.versions[c.pc.rv];
      s.(versions := s.versions + [last.(jobs := last.jobs + [c.job.value])])
    else s
  }

  function SetCall(s: Site, pid: nat, c: Call): Site {
    s.(calls := s.calls[pid := c])
  }

  predicate Enabled(s: Site, t: Step) {
    match t
    case Begin(pid, _) => pid !in s.calls
    case Deliver(pid, r) => pid in s.calls && CanReply(s, s.calls[pid], r)
    case LoseReply(pid, r) => pid in s.calls && CanReply(s, s.calls[pid], r)
    case Crash(pid) => pid in s.calls && !s.calls[pid].pc.Done?
    case Touch => s.versions != []
  }

  function Apply(s: Site, t: Step): Site
    requires Enabled(s, t)
  {
    match t
    case Begin(pid, rule) => SetCall(s, pid, Call(rule, None, Post))
    case Deliver(pid, r) => SetCall(Effect(s, pid, s.calls[pid], r), pid, After(s.calls[pid], r))
    case LoseReply(pid, r) => SetCall(Effect(s, pid, s.calls[pid], r), pid, Lost(s.calls[pid], r))
    case Crash(pid) => SetCall(s, pid, s.calls[pid].(pc := Done(false)))
    case Touch => s.(versions := s.versions + [s.versions[|s.versions| - 1]])
  }

  /** The call took effect, the caller saw an error. */
  function Lost(c: Call, r: Reply): Call {
    After(c, r).(pc := Done(false))
  }

  predicate Legal(s: Site, run: seq<Step>)
    decreases |run|
  {
    run == [] || (Enabled(s, run[0]) && Legal(Apply(s, run[0]), run[1..]))
  }

  function Exec(s: Site, run: seq<Step>): Site
    requires Legal(s, run)
    decreases |run|
  {
    if run == [] then s else Exec(Apply(s, run[0]), run[1..])
  }

  const NOTHING := Site([], [], map[])

  /** The jobs the store holds now. */
  function Jobs(s: Site): seq<Job> {
    if s.versions == [] then [] else s.versions[|s.versions| - 1].jobs
  }

  // ---------- what every run keeps ----------

  predicate IsOpen(c: Call) { c.pc.Read? || c.pc.Make? || c.pc.Reread? || c.pc.Write? }

  ghost predicate PolicyOk(s: Site, i: nat)
    requires i < |s.policies|
  {
    var p := s.policies[i];
    p.call in s.calls && s.calls[p.call].job == Some(p.answer) && s.calls[p.call].rule == p.rule
  }

  ghost predicate PoliciesOk(s: Site) {
    && (forall i: nat :: i < |s.policies| ==> PolicyOk(s, i))
    && (forall i, j :: 0 <= i < j < |s.policies| ==> s.policies[i].answer.policyId != s.policies[j].answer.policyId)
    && (forall p :: p in s.calls && s.calls[p].job.Some? ==> Posted(s, p))
  }

  /** The policy a call posted is on the cloud. */
  ghost predicate Posted(s: Site, pid: nat)
    requires pid in s.calls && s.calls[pid].job.Some?
  {
    exists i :: 0 <= i < |s.policies| && s.policies[i].call == pid && s.policies[i].answer == s.calls[pid].job.value
  }

  ghost predicate IsJobOf(s: Site, pid: nat, j: Job) {
    pid in s.calls && s.calls[pid].job == Some(j)
  }

  ghost predicate WasAnswered(s: Site, j: Job) {
    exists pid :: IsJobOf(s, pid, j)
  }

  ghost predicate JobsOk(s: Site, js: seq<Job>) {
    && (forall k :: 0 <= k < |js| ==> WasAnswered(s, js[k]))
    && (forall k, l :: 0 <= k < l < |js| ==> js[k] != js[l])
  }

  ghost predicate VersionsOk(s: Site) {
    && (forall i :: 0 <= i < |s.versions| ==> JobsOk(s, s.versions[i].jobs) && |s.versions[i].rules| == 1)
    && (forall i :: 0 <= i < |s.versions| ==> s.versions[i].jobs <= Jobs(s))
    && (forall i, j :: 0 <= i < |s.versions| && 0 <= j < |s.versions| ==>
         s.versions[i].rules == s.versions[j].rules)
  }

  ghost predicate CallOk(s: Site, c: Call) {
    && (c.pc.Post? ==> c.job.None?)
    && (IsOpen(c) ==> c.job.Some? && c.job.value !in Jobs(s))
    && (c.pc == Done(true) ==> c.job.Some? && c.job.value in Jobs(s))
  }

  ghost predicate Inv(s: Site) {
    PoliciesOk(s) && VersionsOk(s) && forall p :: p in s.calls ==> CallOk(s, s.calls[p])
  }

  /** No two calls got the same policy. */
  lemma JobsDiffer(s: Site, p: nat, q: nat)
    requires PoliciesOk(s) && p in s.calls && q in s.calls && s.calls[p].job.Some? && s.calls[q].job.Some?
    requires s.calls[p].job.value.policyId == s.calls[q].job.value.policyId
    ensures p == q
  {
    assert Posted(s, p) && Posted(s, q);
    var i :| 0 <= i < |s.policies| && s.policies[i].call == p && s.policies[i].answer == s.calls[p].job.value;
    var j :| 0 <= j < |s.policies| && s.policies[j].call == q && s.policies[j].answer == s.calls[q].job.value;
    assert i == j;
  }

  /** Calls that keep their jobs keep what was said about jobs. */
  lemma JobsStay(s: Site, s': Site, js: seq<Job>)
    requires JobsOk(s, js)
    requires forall p :: p in s.calls ==>
              p in s'.calls && (s.calls[p].job.Some? ==> s'.calls[p].job == s.calls[p].job)
    ensures JobsOk(s', js)
  {
    forall k | 0 <= k < |js| ensures WasAnswered(s', js[k]) {
      assert WasAnswered(s, js[k]);
      var pid :| IsJobOf(s, pid, js[k]);
      assert IsJobOf(s', pid, js[k]);
    }
  }

  /** Steps that only move a call: nothing lands. */
  lemma MoveKeeps(s: Site, pid: nat, c: Call)
    requires Inv(s) && pid in s.calls && s.calls[pid].job == c.job && s.calls[pid].rule == c.rule
    requires CallOk(s, c)
    ensures Inv(SetCall(s, pid, c))
  {
    var s' := SetCall(s, pid, c);
    forall i: nat | i < |s.policies| ensures PolicyOk(s', i) {
      assert PolicyOk(s, i);
    }
    forall p | p in s'.calls && s'.calls[p].job.Some? ensures Posted(s', p) {
      assert Posted(s, p);
    }
    forall i | 0 <= i < |s'.versions| ensures JobsOk(s', s'.versions[i].jobs) {
      JobsStay(s, s', s.versions[i].jobs);
    }
  }

  lemma BeginKeeps(s: Site, pid: nat, rule: Rule)
    requires Inv(s) && pid !in s.calls
    ensures Inv(SetCall(s, pid, Call(rule, None, Post)))
  {
    var s' := SetCall(s, pid, Call(rule, None, Post));
    assert Jobs(s') == Jobs(s);
    forall i: nat | i < |s.policies| ensures PolicyOk(s', i) {
      assert PolicyOk(s, i);
    }
    forall p | p in s'.calls && s'.calls[p].job.Some? ensures Posted(s', p) {
      assert Posted(s, p);
    }
    forall i | 0 <= i < |s'.versions| ensures JobsOk(s', s'.versions[i].jobs) {
      JobsStay(s, s', s.versions[i].jobs);
    }
    forall p | p in s'.calls ensures CallOk(s', s'.calls[p]) {
      assert p != pid ==> CallOk(s, s.calls[p]);
    }
  }

  /** A job no recorded call was answered with is not recorded. */
  lemma FreshJob(s: Site, j: Job)
    requires Inv(s) && Fresh(s, j.policyId)
    ensures j !in Jobs(s)
    ensures forall p :: p in s.calls && s.calls[p].job.Some? ==> s.calls[p].job.value != j
  {
    forall p | p in s.calls && s.calls[p].job.Some? ensures s.calls[p].job.value != j {
      assert Posted(s, p);
    }
    assert s.versions != [] ==> JobsOk(s, s.versions[|s.versions| - 1].jobs);
    assert j in Jobs(s) ==> WasAnswered(s, j);
  }

  lemma PostKeeps(s: Site, pid: nat, job: Job, pc: Pc)
    requires Inv(s) && pid in s.calls && s.calls[pid].pc.Post? && Fresh(s, job.policyId)
    requires pc.Read? || pc == Done(false)
    ensures Inv(SetCall(s.(policies := s.policies + [Policy(job, s.calls[pid].rule, pid)]), pid,
                        s.calls[pid].(job := Some(job), pc := pc)))
  {
    var c := s.calls[pid].(job := Some(job), pc := pc);
    var s' := SetCall(s.(policies := s.policies + [Policy(job, c.rule, pid)]), pid, c);
    FreshJob(s, job);
    forall i: nat | i < |s'.policies| ensures PolicyOk(s', i) {
      assert i < |s.policies| ==> PolicyOk(s, i);
    }
    forall p | p in s'.calls && s'.calls[p].job.Some? ensures Posted(s', p) {
      if p == pid {
        assert s'.policies[|s.policies|].call == pid;
      } else {
        assert Posted(s, p);
        var i :| 0 <= i < |s.policies| && s.policies[i].call == p && s.policies[i].answer == s.calls[p].job.value;
        assert s'.policies[i].call == p;
      }
    }
    forall i | 0 <= i < |s'.versions| ensures JobsOk(s', s'.versions[i].jobs) {
      JobsStay(s, s', s.versions[i].jobs);
    }
  }

  /** Another version: the same jobs, or one more that an open call was answered with. */
  lemma VersionKeeps(s: Site, v: Record, js: seq<Job>)
    requires Inv(s) && JobsOk(s, v.jobs) && |v.rules| == 1 && v.jobs == Jobs(s) + js
    requires forall i :: 0 <= i < |s.versions| ==> s.versions[i].rules == v.rules
    requires forall p :: p in s.calls && IsOpen(s.calls[p]) ==> s.calls[p].job.value !in js
    ensures Inv(s.(versions := s.versions + [v]))
  {
    var s' := s.(versions := s.versions + [v]);
    assert Jobs(s') == Jobs(s) + js;
    forall i: nat | i < |s.policies| ensures PolicyOk(s', i) {
      assert PolicyOk(s, i);
    }
    forall p | p in s'.calls && s'.calls[p].job.Some? ensures Posted(s', p) {
      assert Posted(s, p);
    }
    forall i | 0 <= i < |s'.versions| ensures JobsOk(s', s'.versions[i].jobs) && s'.versions[i].jobs <= Jobs(s') {
      JobsStay(s, s', if i < |s.versions| then s.versions[i].jobs else v.jobs);
    }
  }

  lemma OneMoreJob(s: Site, pid: nat)
    requires Inv(s) && pid in s.calls && IsOpen(s.calls[pid])
    ensures JobsOk(s, Jobs(s) + [s.calls[pid].job.value])
  {
    var j := s.calls[pid].job.value;
    assert IsJobOf(s, pid, j);
    assert s.versions != [] ==> JobsOk(s, s.versions[|s.versions| - 1].jobs);
    assert WasAnswered(s, j);
  }

  lemma WriteKeeps(s: Site, pid: nat, ok: bool)
    requires Inv(s) && pid in s.calls && s.calls[pid].pc.Write? && s.calls[pid].pc.rv + 1 == |s.versions|
    ensures var last := s.versions[s.calls[pid].pc.rv];
            s.calls[pid].job.Some? &&
            Inv(SetCall(s.(versions := s.versions + [last.(jobs := last.jobs + [s.calls[pid].job.value])]), pid,
                        s.calls[pid].(pc := Done(ok))))
  {
    var c := s.calls[pid];
    assert CallOk(s, c);
    var j := c.job.value;
    var v := s.versions[c.pc.rv].(jobs := Jobs(s) + [j]);
    var s1 := SetCall(s, pid, c.(pc := Done(false)));
    OneMoreJob(s, pid);
    MoveKeeps(s, pid, c.(pc := Done(false)));
    WrittenKeeps(s, s1, pid, c, v, ok);
  }

  lemma SameCall(s: Site, pid: nat, c: Call, c': Call)
    ensures SetCall(SetCall(s, pid, c), pid, c') == SetCall(s, pid, c')
  {
    assert s.calls[pid := c][pid := c'] == s.calls[pid := c'];
  }

  lemma WrittenKeeps(s: Site, s1: Site, pid: nat, c: Call, v: Record, ok: bool)
    requires Inv(s1) && s1 == SetCall(s, pid, c.(pc := Done(false))) && c.job.Some?
    requires JobsOk(s, v.jobs) && v.jobs == Jobs(s1) + [c.job.value]
    requires pid in s.calls && s.calls[pid] == c && s.versions != [] &&
              v.rules == s.versions[|s.versions| - 1].rules
    requires forall p :: p in s1.calls && IsOpen(s1.calls[p]) ==> s1.calls[p].job.value !in [c.job.value]
    ensures Inv(SetCall(s.(versions := s.versions + [v]), pid, c.(pc := Done(ok))))
  {
    JobsStay(s, s1, v.jobs);
    VersionKeeps(s1, v, [c.job.value]);
    var s2 := s1.(versions := s1.versions + [v]);
    assert CallOk(s2, c.(pc := Done(ok))) by { assert Jobs(s2) == v.jobs && v.jobs[|Jobs(s1)|] == c.job.value; }
    MoveKeeps(s2, pid, c.(pc := Done(ok)));
    SameCall(s.(versions := s.versions + [v]), pid, c.(pc := Done(false)), c.(pc := Done(ok)));
  }

  lemma MakeKeeps(s: Site, pid: nat, pc: Pc)
    requires Inv(s) && pid in s.calls && s.calls[pid].pc.Make? && s.versions == []
    requires pc.Reread? || pc == Done(false)
    ensures Inv(SetCall(s.(versions := [Record([s.calls[pid].rule], [])]), pid, s.calls[pid].(pc := pc)))
  {
    var v := Record([s.calls[pid].rule], []);
    VersionKeeps(s, v, []);
    var s1 := s.(versions := s.versions + [v]);
    assert s1.versions == [v];
    MoveKeeps(s1, pid, s.calls[pid].(pc := pc));
  }

  lemma ReplyKeeps(s: Site, pid: nat, r: Reply, lost: bool)
    requires Inv(s) && pid in s.calls && CanReply(s, s.calls[pid], r)
    ensures var c := s.calls[pid];
            Inv(SetCall(Effect(s, pid, c, r), pid, if lost then Lost(c, r) else After(c, r)))
  {
    var c := s.calls[pid];
    if c.pc.Post? && r.Accepted? {
      PostKeeps(s, pid, r.job, if lost then Done(false) else Read);
    } else if c.pc.Make? && r.Landed? {
      MakeKeeps(s, pid, if lost then Done(false) else Reread);
    } else if c.pc.Write? && r.Landed? {
      WriteKeeps(s, pid, !lost);
    } else {
      MoveKeeps(s, pid, if lost then Lost(c, r) else After(c, r));
    }
  }

  lemma StepKeeps(s: Site, t: Step)
    requires Inv(s) && Enabled(s, t)
    ensures Inv(Apply(s, t))
  {
    match t
    case Begin(pid, rule) => BeginKeeps(s, pid, rule);
    case Deliver(pid, r) => ReplyKeeps(s, pid, r, false);
    case LoseReply(pid, r) => ReplyKeeps(s, pid, r, true);
    case Crash(pid) => MoveKeeps(s, pid, s.calls[pid].(pc := Done(false)));
    case Touch => VersionKeeps(s, s.versions[|s.versions| - 1], []);
  }

  lemma {:induction false} RunKeeps(s: Site, run: seq<Step>)
    requires Inv(s) && Legal(s, run)
    ensures Inv(Exec(s, run))
    decreases |run|
  {
    if run != [] {
      StepKeeps(s, run[0]);
      RunKeeps(Apply(s, run[0]), run[1..]);
    }
  }

  // ---------- bookkeeping ----------

  function Ids(ps: seq<Policy>): seq<string> {
    seq(|ps|, i requires 0 <= i < |ps| => ps[i].answer.policyId)
  }

  /** What the cloud answered, policy by policy. */
  function Answers(ps: seq<Policy>): seq<Job> {
    seq(|ps|, i requires 0 <= i < |ps| => ps[i].answer)
  }

  function JobIds(js: seq<Job>): seq<string> {
    seq(|js|, k requires 0 <= k < |js| => js[k].policyId)
  }

  function PolicyIds(s: Site): set<string> {
    set id | id in Ids(s.policies)
  }

  function RecordedIds(s: Site): set<string> {
    set id | id in JobIds(Jobs(s))
  }

  lemma {:induction false} DistinctSize(ids: seq<string>)
    requires forall i, j :: 0 <= i < j < |ids| ==> ids[i] != ids[j]
    ensures |set id | id in ids| == |ids|
  {
    if ids == [] {
      assert (set id | id in ids) == {};
    } else {
      var n := |ids| - 1;
      DistinctSize(ids[..n]);
      assert (set id | id in ids) == (set id | id in ids[..n]) + {ids[n]};
    }
  }

  lemma JobIdsDiffer(s: Site, k: nat, l: nat)
    requires Inv(s) && k < l < |Jobs(s)|
    ensures Jobs(s)[k].policyId != Jobs(s)[l].policyId
    ensures Jobs(s)[k].policyId in PolicyIds(s)
  {
    var js := Jobs(s);
    assert JobsOk(s, s.versions[|s.versions| - 1].jobs);
    assert WasAnswered(s, js[k]) && WasAnswered(s, js[l]);
    var p :| IsJobOf(s, p, js[k]);
    var q :| IsJobOf(s, q, js[l]);
    if js[k].policyId == js[l].policyId {
      JobsDiffer(s, p, q);
    }
    JobIsPolicy(s, k);
  }

  lemma JobIsPolicy(s: Site, k: nat)
    requires Inv(s) && k < |Jobs(s)|
    ensures Jobs(s)[k].policyId in PolicyIds(s) && Jobs(s)[k] in Answers(s.policies)
  {
    assert JobsOk(s, s.versions[|s.versions| - 1].jobs) && WasAnswered(s, Jobs(s)[k]);
    var p :| IsJobOf(s, p, Jobs(s)[k]);
    assert Posted(s, p);
    var i :| 0 <= i < |s.policies| && s.policies[i].call == p && s.policies[i].answer == Jobs(s)[k];
    assert Ids(s.policies)[i] == Jobs(s)[k].policyId && Answers(s.policies)[i] == Jobs(s)[k];
  }

  lemma RecordedSize(s: Site)
    requires Inv(s)
    ensures RecordedIds(s) <= PolicyIds(s) && |RecordedIds(s)| == |Jobs(s)|
  {
    var ids := JobIds(Jobs(s));
    forall k | 0 <= k < |ids| ensures ids[k] in PolicyIds(s) {
      JobIsPolicy(s, k);
    }
    forall k, l | 0 <= k < l < |ids| ensures ids[k] != ids[l] {
      JobIdsDiffer(s, k, l);
    }
    DistinctSize(ids);
  }

  lemma PoliciesSize(s: Site)
    requires PoliciesOk(s)
    ensures |PolicyIds(s)| == |s.policies|
  {
    DistinctSize(Ids(s.policies));
  }

  /** Every version stores one rule, the same one, and it is the rule of this policy. */
  predicate StoresRuleOf(s: Site, i: int) {
    && 0 <= i < |s.policies|
    && forall k :: 0 <= k < |s.versions| ==> s.versions[k].rules == [s.policies[i].rule]
  }

  /** The policy whose call is about to create the object. */
  lemma MakersPolicy(s: Site, pid: nat) returns (i: nat)
    requires Inv(s) && pid in s.calls && IsOpen(s.calls[pid])
    ensures i < |s.policies| && s.policies[i].call == pid && s.policies[i].rule == s.calls[pid].rule
    ensures s.policies[i].answer == s.calls[pid].job.value
  {
    assert CallOk(s, s.calls[pid]) && Posted(s, pid);
    var j :| 0 <= j < |s.policies| && s.policies[j].call == pid && s.policies[j].answer == s.calls[pid].job.value;
    assert PolicyOk(s, j);
    i := j;
  }

  /** A stored rule stays what it is, whatever is appended. */
  lemma RuleStays(s: Site, t: Step, i: nat)
    requires Inv(s) && Enabled(s, t) && s.versions != [] && StoresRuleOf(s, i)
    ensures StoresRuleOf(Apply(s, t), i)
  {
    var s' := Apply(s, t);
    forall k | 0 <= k < |s'.versions| ensures s'.versions[k].rules == [s'.policies[i].rule] {
      if k < |s.versions| {
        assert s'.versions[k] == s.versions[k];
      }
    }
  }

  lemma {:induction false} SomeRuleStored(s: Site, run: seq<Step>)
    requires Inv(s) && Legal(s, run) && (s.versions != [] ==> exists i :: StoresRuleOf(s, i))
    ensures Exec(s, run).versions != [] ==> exists i :: StoresRuleOf(Exec(s, run), i)
    decreases |run|
  {
    if run != [] {
      var s1 := Apply(s, run[0]);
      StepKeeps(s, run[0]);
      if s.versions != [] {
        var i :| StoresRuleOf(s, i);
        RuleStays(s, run[0], i);
      } else if s1.versions != [] {
        var i := MakersPolicy(s, run[0].pid);
        assert StoresRuleOf(s1, i);
      }
      SomeRuleStored(s1, run[1..]);
    }
  }

  /** After any calls, overlapping and failing as they may: every recorded job is, field by
      field, what the cloud answered for one of its policies, recorded once; the policies are
      the recorded ones and the lost ones; and the stored rules are one rule, of one of the
      policies, and never change. */
  lemma FirewallAccounting(run: seq<Step>)
    requires Legal(NOTHING, run)
    ensures var s := Exec(NOTHING, run);
            && (forall j :: j in Jobs(s) ==> j in Answers(s.policies))
            && RecordedIds(s) <= PolicyIds(s)
            && |RecordedIds(s)| == |Jobs(s)| && |PolicyIds(s)| == |s.policies|
            && |s.policies| == |Jobs(s)| + |PolicyIds(s) - RecordedIds(s)|
            && (s.versions != [] ==> exists i :: StoresRuleOf(s, i))
  {
    var s := Exec(NOTHING, run);
    RunKeeps(NOTHING, run);
    SomeRuleStored(NOTHING, run);
    forall j | j in Jobs(s) ensures j in Answers(s.policies) {
      var k :| 0 <= k < |Jobs(s)| && Jobs(s)[k] == j;
      JobIsPolicy(s, k);
    }
    RecordedSize(s);
    PoliciesSize(s);
  }

  /** The version check loses no update: the job of a call that returned nil is recorded, and
      no later call, touch or stale write ever drops it. */
  lemma SuccessStaysRecorded(run: seq<Step>, later: seq<Step>, pid: nat)
    requires Legal(NOTHING, run) && Legal(Exec(NOTHING, run), later)
    requires pid in Exec(NOTHING, run).calls && Exec(NOTHING, run).calls[pid].pc == Done(true)
    ensures var c := Exec(NOTHING, run).calls[pid];
            c.job.Some? && c.job.value in Jobs(Exec(Exec(NOTHING, run), later))
  {
    RunKeeps(NOTHING, run);
    JobsOnlyGrow(Exec(NOTHING, run), later);
  }

  lemma {:induction false} JobsOnlyGrow(s: Site, run: seq<Step>)
    requires Inv(s) && Legal(s, run)
    ensures Jobs(s) <= Jobs(Exec(s, run))
    decreases |run|
  {
    if run != [] {
      var s1 := Apply(s, run[0]);
      StepKeeps(s, run[0]);
      assert Jobs(s) <= Jobs(s1);
      JobsOnlyGrow(s1, run[1..]);
    }
  }

  // ---------- calls one after another ----------

  /** A call begins only when no other is running. */
  predicate Serial(s: Site, run: seq<Step>)
    requires Legal(s, run)
    decreases |run|
  {
    run == [] ||
    ((run[0].Begin? ==> AllDone(s)) && Serial(Apply(s, run[0]), run[1..]))
  }

  predicate AllDone(s: Site) {
    forall p :: p in s.calls ==> s.calls[p].pc.Done?
  }

  predicate NoneFailed(s: Site) {
    forall p :: p in s.calls ==> s.calls[p].pc != Done(false)
  }

  /** Jobs match policies one by one; only the running call's policy may still be unmatched. */
  ghost predicate InOrder(s: Site) {
    && (forall p, q :: p in s.calls && q in s.calls && !s.calls[p].pc.Done? && !s.calls[q].pc.Done? ==> p == q)
    && |s.policies| == |Jobs(s)| + (if AnyOpen(s) then 1 else 0)
    && (forall i :: 0 <= i < |Jobs(s)| ==> Jobs(s)[i] == s.policies[i].answer)
    && (forall p :: p in s.calls && IsOpen(s.calls[p]) && s.calls[p].job.Some? && s.policies != [] ==>
          s.policies[|s.policies| - 1].answer == s.calls[p].job.value)
  }

  predicate AnyOpen(s: Site) {
    exists p :: p in s.calls && IsOpen(s.calls[p])
  }

  lemma OpenAfter(s: Site, pid: nat, c: Call)
    requires forall p :: p in s.calls && IsOpen(s.calls[p]) ==> p == pid
    ensures AnyOpen(SetCall(s, pid, c)) <==> IsOpen(c)
  {
    assert pid in SetCall(s, pid, c).calls;
  }

  lemma SerialDeliver(s: Site, pid: nat, r: Reply)
    requires Inv(s) && InOrder(s) && pid in s.calls && CanReply(s, s.calls[pid], r)
    requires After(s.calls[pid], r).pc != Done(false)
    ensures InOrder(SetCall(Effect(s, pid, s.calls[pid], r), pid, After(s.calls[pid], r)))
  {
    var c := s.calls[pid];
    assert CallOk(s, c);
    var s1 := Effect(s, pid, c, r);
    OpenAfter(s1, pid, After(c, r));
    InOrderFrom(s1, pid, After(c, r));
  }

  lemma InOrderFrom(s1: Site, pid: nat, c: Call)
    requires forall p :: p in s1.calls && p != pid ==> s1.calls[p].pc.Done?
    requires AnyOpen(SetCall(s1, pid, c)) <==> IsOpen(c)
    requires |s1.policies| == |Jobs(s1)| + (if IsOpen(c) then 1 else 0)
    requires forall i :: 0 <= i < |Jobs(s1)| ==> Jobs(s1)[i] == s1.policies[i].answer
    requires IsOpen(c) && c.job.Some? ==> s1.policies[|s1.policies| - 1].answer == c.job.value
    ensures InOrder(SetCall(s1, pid, c))
  {
  }

  lemma SerialStep(s: Site, t: Step)
    requires Inv(s) && InOrder(s) && Enabled(s, t) && (t.Begin? ==> AllDone(s)) && NoneFailed(Apply(s, t))
    requires t.Deliver? || t.Begin? || t.Touch?
    ensures InOrder(Apply(s, t))
  {
    var s' := Apply(s, t);
    if t.Deliver? {
      assert s'.calls[t.pid] == After(s.calls[t.pid], t.reply);
      SerialDeliver(s, t.pid, t.reply);
    } else if t.Begin? {
      OpenAfter(s, t.pid, s'.calls[t.pid]);
    } else {
      assert Jobs(s') == Jobs(s);
    }
  }

  /** The object is created by the first call, for the first policy. */
  lemma SerialRule(s: Site, t: Step)
    requires Inv(s) && InOrder(s) && Enabled(s, t)
    requires s.versions != [] ==> StoresRuleOf(s, 0)
    ensures Apply(s, t).versions != [] ==> StoresRuleOf(Apply(s, t), 0)
  {
    if s.versions != [] {
      RuleStays(s, t, 0);
    } else if Apply(s, t).versions != [] {
      var i := MakersPolicy(s, t.pid);
      assert AnyOpen(s) && |s.policies| == 1;
    }
  }

  lemma FailedStep(s: Site, t: Step)
    requires Enabled(s, t) && (t.LoseReply? || t.Crash?)
    ensures !NoneFailed(Apply(s, t))
  {
    assert Apply(s, t).calls[t.pid].pc == Done(false);
  }

  lemma NoneFailedBefore(s: Site, t: Step)
    requires Enabled(s, t) && NoneFailed(Apply(s, t))
    ensures NoneFailed(s)
  {
    forall p | p in s.calls ensures s.calls[p].pc != Done(false) {
      assert p in Apply(s, t).calls && Apply(s, t).calls[p].pc != Done(false);
    }
  }

  lemma {:induction false} SerialKeeps(s: Site, run: seq<Step>)
    requires Inv(s) && Legal(s, run) && Serial(s, run) && NoneFailed(Exec(s, run))
    ensures NoneFailed(s)
    ensures InOrder(s) ==> InOrder(Exec(s, run))
    ensures InOrder(s) && (s.versions != [] ==> StoresRuleOf(s, 0)) ==>
              Exec(s, run).versions != [] ==> StoresRuleOf(Exec(s, run), 0)
    decreases |run|
  {
    if run != [] {
      StepKeeps(s, run[0]);
      SerialKeeps(Apply(s, run[0]), run[1..]);
      NoneFailedBefore(s, run[0]);
      if run[0].LoseReply? || run[0].Crash? {
        FailedStep(s, run[0]);
      } else if InOrder(s) {
        SerialStep(s, run[0]);
        if s.versions != [] ==> StoresRuleOf(s, 0) {
          SerialRule(s, run[0]);
        }
      }
    }
  }

  /** After any calls made one after another, all of which returned nil, the stored jobs are
      exactly what the cloud answered for its policies in the order they were created, each once,
      while the stored rules are still only the first policy's. */
  lemma JobsMirrorPolicies(run: seq<Step>)
    requires Legal(NOTHING, run) && Serial(NOTHING, run)
    requires forall p :: p in Exec(NOTHING, run).calls ==> Exec(NOTHING, run).calls[p].pc == Done(true)
    ensures var s := Exec(NOTHING, run);
            && Jobs(s) == Answers(s.policies)
            && (s.policies != [] ==>
                  s.versions != [] && s.versions[|s.versions| - 1].rules == [s.policies[0].rule])
  {
    SerialKeeps(NOTHING, run);
    RunKeeps(NOTHING, run);
  }

  // ---------- which calls return nil ----------

  /** A call after a row of replies. */
  function Ran(c: Call, rs: seq<Reply>): Call
    decreases |rs|
  {
    if rs == [] then c else Ran(After(c, rs[0]), rs[1..])
  }

  /** A call returns nil if and only if the policy was accepted, the object was there (or was
      missing, created, and there), and the status update landed; and then its job is the
      cloud's answer. */
  lemma NilExactly(rule: Rule, rs: seq<Reply>)
    ensures var c := Ran(Call(rule, None, Post), rs);
            c.pc == Done(true) <==>
              (|rs| >= 3 && rs[0].Accepted? && rs[1].Version? && rs[2].Landed?) ||
              (|rs| >= 5 && rs[0].Accepted? && rs[1].Missing? && rs[2].Landed? && rs[3].Version? && rs[4].Landed?)
    ensures var c := Ran(Call(rule, None, Post), rs);
            c.rule == rule && (c.pc == Done(true) ==> c.job == Some(rs[0].job))
  {
    var c := Call(rule, None, Post);
    RanDone(rs);
    if rs != [] && rs[0].Accepted? {
      var c1 := Call(rule, Some(rs[0].job), Read);
      assert Ran(c, rs) == Ran(c1, rs[1..]);
      if |rs| > 1 {
        assert rs[1..][0] == rs[1] && rs[1..][1..] == rs[2..];
        if rs[1].Version? {
          RanWrite(c1.(pc := Write(rs[1].rv)), rs[2..]);
        } else if rs[1].Missing? {
          RanMake(c1.(pc := Make), rs[2..]);
        }
      }
    }
  }

  lemma RanDone(rs: seq<Reply>)
    ensures forall k: nat, c: Call :: k <= |rs| && c.pc.Done? ==> Ran(c, rs[k..]) == c
  {
    forall k: nat, c: Call | k <= |rs| && c.pc.Done? ensures Ran(c, rs[k..]) == c {
      DoneStays(c, rs[k..]);
    }
  }

  lemma {:induction false} DoneStays(c: Call, rs: seq<Reply>)
    requires c.pc.Done?
    ensures Ran(c, rs) == c
  {
    if rs != [] {
      DoneStays(c, rs[1..]);
    }
  }

  lemma RanWrite(c: Call, rs: seq<Reply>)
    requires c.pc.Write?
    ensures Ran(c, rs) == if rs == [] then c else c.(pc := Done(rs[0].Landed?))
  {
    if rs != [] {
      DoneStays(c.(pc := Done(rs[0].Landed?)), rs[1..]);
    }
  }

  lemma RanMake(c: Call, rs: seq<Reply>)
    requires c.pc.Make?
    ensures Ran(c, rs).pc == Done(true) <==> |rs| >= 3 && rs[0].Landed? && rs[1].Version? && rs[2].Landed?
    ensures Ran(c, rs).rule == c.rule && Ran(c, rs).job == c.job
  {
    if rs != [] && rs[0].Landed? {
      if |rs| > 1 {
        assert rs[1..][0] == rs[1] && rs[1..][1..] == rs[2..];
        if rs[1].Version? {
          RanWrite(c.(pc := Write(rs[1].rv)), rs[2..]);
        } else {
          DoneStays(c.(pc := Done(false)), rs[2..]);
        }
      }
    } else if rs != [] {
      DoneStays(c.(pc := Done(false)), rs[1..]);
    }
  }
}

/** Teardown of what the firewall calls and the machine passes recorded. */
module Leftovers {
  import opened KTObjects
  import W = World
  import P = Preservation
  import K = Workers
  import F = Firewall
  import opened Teardown

  /** The NATs a stored status lists. */
  function RecordedNats(st: Status): seq<string> {
    seq(|st.ips|, i requires 0 <= i < |st.ips| => st.ips[i].natId)
  }

  /** The machine to delete, and the object its firewall calls left behind, as recorded. */
  ghost predicate AsRecorded(w: W.World, uid: nat, s: F.Site, e: Estate, m: Doomed) {
    && P.Reachable(w) && uid in w.machines && |w.machines[uid].versions| > 0
    && IsControlPlane(w.machines[uid].name)
    && m.nats == RecordedNats(W.Stored(w, uid))
    && m.key in e.firewalls && e.firewalls[m.key] == F.JobIds(F.Jobs(s))
  }

  /** The policies a machine leaves on the cloud after a teardown that returned nil are exactly
      those its firewall calls lost and those whose attempt failed; and since jobs are recorded
      once and there is at most one NAT, nothing was attempted twice. */
  lemma PoliciesLeft(run: seq<F.Step>, w: W.World, uid: nat, e: Estate, m: Doomed, log: seq<Attempt>, e': Estate)
    requires F.Legal(F.NOTHING, run) && AsRecorded(w, uid, F.Exec(F.NOTHING, run), e, m)
    requires F.PolicyIds(F.Exec(F.NOTHING, run)) <= e.policies
    requires Called(e, m, log, false, e') && m.id in e.servers && m.nats != []
    ensures var s := F.Exec(F.NOTHING, run);
            F.PolicyIds(s) * e'.policies ==
            (F.PolicyIds(s) - F.RecordedIds(s)) +
            (set id | id in F.RecordedIds(s) && !Took(log, PolicyOf(id)))
    ensures forall i, j :: 0 <= i < j < |log| ==> log[i].target != log[j].target
  {
    var s := F.Exec(F.NOTHING, run);
    TeardownAccounting(e, m, log, e');
    F.RunKeeps(F.NOTHING, run);
    F.RecordedSize(s);
    K.StoredControlPlane(w, uid, |w.machines[uid].versions| - 1);
    TriedOnce(s, e, m, log);
  }

  lemma TriedOnce(s: F.Site, e: Estate, m: Doomed, log: seq<Attempt>)
    requires F.Inv(s) && |m.nats| <= 1 && Targets(log) == Plan(m, F.JobIds(F.Jobs(s)))
    ensures forall i, j :: 0 <= i < j < |log| ==> log[i].target != log[j].target
  {
    var jobs := F.JobIds(F.Jobs(s));
    PlanLayout(m, jobs, log);
    assert m.nats != [] ==> log[|jobs| + 1 + 0].target == NatOf(m.nats[0]);
    forall i, j | 0 <= i < j < |log| ensures log[i].target != log[j].target {
      if j < |jobs| {
        F.JobIdsDiffer(s, i, j);
      }
    }
  }
}

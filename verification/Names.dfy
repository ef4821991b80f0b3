/** Which machines are control planes: it is read off their names. */
module Names {
  import opened KTObjects
  import Replicas
  import Ownership
  import Owners

  /** `sub` stands in `s` at place i. */
  predicate StandsAt(s: string, sub: string, i: int) {
    0 <= i <= |s| - |sub| && s[i..i + |sub|] == sub
  }

  /** Contains finds a substring wherever it stands. */
  lemma {:induction false} ContainsExactly(s: string, sub: string)
    ensures Contains(s, sub) <==> exists i :: StandsAt(s, sub, i)
  {
    if sub <= s {
      assert StandsAt(s, sub, 0);
    } else if s != [] {
      ContainsExactly(s[1..], sub);
      if Contains(s[1..], sub) {
        var i :| StandsAt(s[1..], sub, i);
        assert s[1..][i..i + |sub|] == s[i + 1..i + 1 + |sub|];
        assert StandsAt(s, sub, i + 1);
      }
      forall i | StandsAt(s, sub, i) ensures StandsAt(s[1..], sub, i - 1) {
        assert s[1..][i - 1..i - 1 + |sub|] == s[i..i + |sub|];
      }
    }
  }

  lemma LabelAt(name: string, i: int)
    requires StandsAt(name, "control-plane", i)
    ensures IsControlPlane(name)
  {
    ContainsExactly(name, "control-plane");
  }

  /** A name that goes on from one with the label has it too. */
  lemma LongerName(name: string, longer: string)
    requires IsControlPlane(name) && name <= longer
    ensures IsControlPlane(longer)
  {
    ContainsExactly(name, "control-plane");
    var i :| StandsAt(name, "control-plane", i);
    assert longer[i..i + 13] == name[i..i + 13];
    LabelAt(longer, i);
  }

  /** Every machine of a cluster's control-plane deployment is a control plane, whatever its
      suffix: by the name its create chose, and by the chain of owners. */
  lemma ControlPlaneNames(ns: string, cluster: string, name: string)
    ensures IsControlPlane(cluster + "-control-plane")
    ensures Replicas.NameFits(Key(ns, cluster + "-control-plane"), name) ==> IsControlPlane(name)
    ensures var d := Ownership.Id(Ownership.Deployment, ns, cluster + "-control-plane");
            Ownership.Link(d, Ownership.Id(Ownership.Machine, ns, name)) ==> IsControlPlane(name)
  {
    var d := cluster + "-control-plane";
    var i := |cluster| + 1;
    assert d[i..i + 13] == "control-plane";
    LabelAt(d, i);
    if d + "-" <= name {
      assert d <= d + "-" <= name;
      LongerName(d, name);
    }
  }

  /** A machine of the md-0 deployment is taken for a control plane if and only if its cluster's
      name or its random suffix has the label in it. */
  lemma WorkerNamesExactly(cluster: string, suffix: string)
    ensures IsControlPlane(cluster + "-md-0" + "-" + suffix) <==> IsControlPlane(cluster) || IsControlPlane(suffix)
  {
    var front := cluster + "-md-0" + "-";
    ContainsExactly(front + suffix, "control-plane");
    ContainsExactly(cluster, "control-plane");
    ContainsExactly(suffix, "control-plane");
    assert front == cluster + "-md-0-";
    forall i | StandsAt(cluster, "control-plane", i) ensures StandsAt(front + suffix, "control-plane", i) {
      StandsInFront(cluster, "-md-0-", "control-plane", i);
      StandsInFront(front, suffix, "control-plane", i);
    }
    forall i | StandsAt(suffix, "control-plane", i) ensures StandsAt(front + suffix, "control-plane", i + |front|) {
      StandsBehind(front, suffix, "control-plane", i);
    }
    forall i | StandsAt(front + suffix, "control-plane", i)
      ensures StandsAt(cluster, "control-plane", i) || StandsAt(suffix, "control-plane", i - |cluster| - 6)
    {
      WholeLabel(cluster, suffix, i);
    }
  }

  lemma StandsInFront(a: string, b: string, sub: string, i: int)
    requires StandsAt(a, sub, i)
    ensures StandsAt(a + b, sub, i)
  {
    assert (a + b)[i..i + |sub|] == a[i..i + |sub|];
  }

  lemma StandsBehind(a: string, b: string, sub: string, i: int)
    requires StandsAt(b, sub, i)
    ensures StandsAt(a + b, sub, i + |a|)
  {
    assert (a + b)[i + |a|..i + |a| + |sub|] == b[i..i + |sub|];
  }

  /** The characters of the label, where it stands. */
  lemma LabelChar(name: string, i: int, j: int)
    requires StandsAt(name, "control-plane", i) && i <= j < i + 13
    ensures name[j] == "control-plane"[j - i] && (name[j] == '-' ==> j == i + 7)
    ensures j == i + 8 ==> name[j] == 'p'
  {
    assert name[j] == name[i..i + 13][j - i];
  }

  /** The label cannot straddle "-md-0-": its one dash is followed by a p. */
  lemma WholeLabel(cluster: string, suffix: string, i: int)
    requires StandsAt(cluster + "-md-0" + "-" + suffix, "control-plane", i)
    ensures StandsAt(cluster, "control-plane", i) || StandsAt(suffix, "control-plane", i - |cluster| - 6)
  {
    var name := cluster + "-md-0" + "-" + suffix;
    var n := |cluster|;
    assert name[n] == '-' && name[n + 1] == 'm' && name[n + 3] == '-' && name[n + 5] == '-';
    if i + 13 <= n {
      assert cluster[i..i + 13] == name[i..i + 13];
    } else if i >= n + 6 {
      assert suffix[i - n - 6..i - n + 7] == name[i..i + 13];
    } else {
      var dash := if i <= n then n else if i <= n + 3 then n + 3 else n + 5;
      LabelChar(name, i, dash);
      LabelChar(name, i, n + 1);
    }
  }

  /** The templates by name, and the one that is read first. */
  lemma TemplateNames(ns: string, cluster: string, t: string)
    ensures var c := Ownership.Id(Ownership.Kind.KTCluster, ns, cluster);
            Ownership.Link(c, Ownership.Id(Ownership.Template, ns, t)) <==>
              t == cluster + "-control-plane" || t == cluster + "-md-0"
  {
  }

  lemma ControlPlaneTemplateFirst(req: Ownership.Id, heard: seq<Owners.Heard>, outcome: Owners.Outcome)
    requires Owners.IsKTClusterPass(req, heard, outcome) && |heard| > 1
    ensures heard[1].Got? && heard[1].id == Ownership.Id(Ownership.Template, req.ns, req.name + "-control-plane")
    ensures |heard| > 3 ==>
              heard[3].Got? && heard[3].id == Ownership.Id(Ownership.Template, req.ns, req.name + "-md-0")
  {
    if |heard| == 2 {
      assert heard[1..][0] == heard[1];
    } else {
      assert heard[1..3][0] == heard[1] && heard[3..][0] == heard[3];
    }
  }

  /** How the kinds of the chain are named in a reference. */
  lemma KindNames(p: Ownership.Id, uid: nat)
    ensures var r := Ownership.Ref(p, uid);
            && r.group == "infrastructure.dcnlab.ssu.ac.kr" && r.name == p.name && r.uid == uid && r.controller
            && (p.kind.Firewall? ==> r.kind == "KTNetworkFirewall")
            && (r.kind == "Cluster" <==> p.kind.Cluster?) && (r.kind == "KTCluster" <==> p.kind.KTCluster?)
            && (r.kind == "KTMachineTemplate" <==> p.kind.Template?)
            && (r.kind == "MachineDeployment" <==> p.kind.Deployment?) && (r.kind == "KTMachine" <==> p.kind.Machine?)
  {
  }
}

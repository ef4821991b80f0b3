/** The values the operator stores and the cloud answers with. */
module KTObjects {

  datatype Option<+T> = None | Some(value: T)

  const CONTROL_PLANE_LABEL := "control-plane"
  const STATUS_ACTIVE := "ACTIVE"
  const CREATING := "Creating"
  const BOOTSTRAP_READY := "BootstrapReady"
  // A public IP of this type is not attached to anything.
  const ASSOCIATE := "ASSOCIATE"

  /** strings.Contains */
  predicate Contains(s: string, sub: string) {
    sub <= s || (s != [] && Contains(s[1..], sub))
  }

  predicate IsControlPlane(name: string) {
    Contains(name, CONTROL_PLANE_LABEL)
  }

  datatype AssignedIp = AssignedIp(id: string, ip: string, natId: string, network: string, pvtIp: string)

  datatype ControlPlaneRef = ControlPlaneRef(kind: string, ready: bool)

  /** KTMachineStatus: what the cloud reports (id, state, addresses) beside what
      only the operator writes (ips, cpRef, joined). */
  datatype Status = Status(
    id: string,
    state: string,
    addresses: map<string, seq<string>>,
    ips: seq<AssignedIp>,
    cpRef: ControlPlaneRef,
    joined: bool)

  const NO_REF := ControlPlaneRef("", false)
  const NEW_STATUS := Status("", "", map[], [], NO_REF, false)

  /** A server record in a cloud reply. It never holds the operator's own fields. */
  datatype CloudVm = CloudVm(id: string, state: string, addresses: map<string, seq<string>>)

  const NO_VM := CloudVm("", "", map[])

  /** Decoding a cloud reply as a whole status leaves the operator's fields zero. */
  function FromCloud(vm: CloudVm): Status {
    Status(vm.id, vm.state, vm.addresses, [], NO_REF, false)
  }

  datatype PublicIp = PublicIp(id: string, ip: string, kind: string)

  /** The parts of a KTCluster a machine pass looks at; hasRules is "Direction is not empty". */
  datatype KTCluster = KTCluster(name: string, external: bool, hasRules: bool)

  /** A machine as one list call showed it. */
  datatype Listed = Listed(uid: nat, name: string, st: Status)

  /** The public IPs that GetAvailablePublicIpAddresses keeps, in order. */
  function Available(ips: seq<PublicIp>): seq<PublicIp> {
    if ips == [] then []
    else
      var last := ips[|ips| - 1];
      Available(ips[..|ips| - 1]) + if last.kind == ASSOCIATE then [last] else []
  }

  lemma {:induction false} AvailableMembers(ips: seq<PublicIp>)
    ensures forall p :: p in Available(ips) ==> p in ips && p.kind == ASSOCIATE
  {
    if ips != [] {
      AvailableMembers(ips[..|ips| - 1]);
    }
  }

  /** The five-part filter of GetBootstrapReadyMachineControlPlane. */
  predicate IsCandidate(self: string, m: Listed) {
    && m.name != self
    && IsControlPlane(m.name)
    && m.st.state == STATUS_ACTIVE
    && m.st.cpRef.kind == BOOTSTRAP_READY
    && m.st.cpRef.ready
  }

  /** The machines that pass the filter, in list order. */
  function Candidates(self: string, ms: seq<Listed>): seq<Listed> {
    if ms == [] then []
    else
      var last := ms[|ms| - 1];
      Candidates(self, ms[..|ms| - 1]) + if IsCandidate(self, last) then [last] else []
  }

  lemma {:induction false} CandidateMembers(self: string, ms: seq<Listed>)
    ensures forall m :: m in Candidates(self, ms) ==> m in ms && IsCandidate(self, m)
  {
    if ms != [] {
      CandidateMembers(self, ms[..|ms| - 1]);
    }
  }

  /** An object of one kind, by namespace and name. */
  datatype Key = Key(ns: string, name: string)

  const GROUP := "infrastructure.dcnlab.ssu.ac.kr"
  const MACHINE_DEPLOYMENT := "MachineDeployment"

  datatype OwnerRef = OwnerRef(group: string, kind: string, name: string, uid: nat, controller: bool)
}

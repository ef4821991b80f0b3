# Verified model of the KT Cloud operator

The operator turns Kubernetes objects into servers on KT Cloud. Three parties share state: an
object store with resource-version checks, a cloud that changes server states by itself, and
reconcile passes that can fail between any two calls. This project models that protocol in
Dafny and proves what every run of it keeps.

`dafny verify dfyconfig.toml` checks everything.

## How it is laid out

The machine lifecycle is modelled twice, and the two are tied together.

- `KTObjects`, `Pass`, `World`: the protocol as a state machine. A pass is a program counter
  and a private copy of the machine; `Pass.After` is what the pass does with a reply, up to its
  next call. `World.Step` lets any number of passes run at once (even over one machine), lets a
  pass start from any version of a machine it ever had, lets any call fail without effect, lose
  its reply after taking effect, or be the last one before a crash, and lets users create,
  delete and edit objects and take Secret names between any two calls.
- `Reconcile`: the reconciler as it runs, in place. Methods named after the Go functions update
  a `KTMachine` object, call a shared `Plant`, and are interrupted by arbitrary other steps
  before every call. Their calls carry the arguments the operator sends; they never crash; and
  a whole pass is proved to end, with its verdict, where the protocol is taken by the replies
  its own calls got. So everything proved about runs of `World` holds of it.
- `Script`, `Transcript`: the same pass told straight through in calls and replies, the way the
  reconciler's text reads, with the literal strings and numbers of the source; the proof that the
  pass of `Pass` says exactly that; and what each pass said and heard along a run. `Names` says
  which machine names make a control plane.
- `Invariant`, `Preservation`: one invariant for stores, clouds, passes and the event log, and
  the proof that every step keeps it. `Guarantees`, `Machines`, `Workers`, `Policies`,
  `Stranding`, `Progress`, `Reach`, `WorkerProgress` and `Quiet` state the results. `Scenes`
  builds the reachable runs in which the code does not do what it means to.

The other controllers follow the same pattern, a step machine and a reconciler tied to it:
`Replicas` and `Deployments` (MachineDeployment), `Ownership` and `Owners` (controller
references), `Firewall` and `FirewallCalls` (policies and the object that records them),
`Teardown` and `TeardownCalls` (deleting a machine's cloud resources). `VmBound` runs
deployments and machine passes together, `Leftovers` a teardown after firewall calls. The
stores of `Deployments` and `Owners` keep what a pass heard from each call, and the contracts
say which outcome those answers call for.

## Assumptions

- A create POST is answered with a fresh, non-empty id. GET by id answers with that id and a
  non-empty state. GET with an empty id fails or answers with an empty record.
- A server record in a cloud reply leaves the fields only the operator writes
  (`assignedPublicIps`, `controlPlaneRef`, `workerRef`) empty.
- The cloud lists public IPs with the addresses they have.
- The cloud refuses a NAT on a public IP that already carries one. It never answers 404 for a
  server that is there, and it refuses a delete of something that is gone.
- Only the operator writes machine status. An object's name, namespace and cluster name do not
  change. Nobody outside deletes a kubeconfig Secret.
- A status write checks the resource version. Reads from the cache may return any earlier
  version; a list may show any version of each machine.
- A pass reads its KTCluster and token before it makes any call the model counts; when one of
  these reads fails the pass ends having done nothing. The token is opaque and non-empty.
- The work queue never runs two passes over one MachineDeployment at once (`Replicas` only;
  machine passes, firewall calls and claims may overlap).
- controller-runtime's SetControllerReference compares references by group, kind and name,
  refuses when another object is the controller, and otherwise replaces or appends.

## What the code does, where it differs from what it means to do

- If a Secret is created but the pass then crashes, loses the reply, or fails its status write,
  the Secret's name is taken and no machine of that cluster ever turns ready
  (`Guarantees.NameTakenForever`; reached in `Scenes.SecretLostToCrash`).
- The role of a machine is read off its name: in a cluster whose own name contains "control-plane"
  every worker is taken for a control plane (`Names.WorkerNamesExactly`).
- A refused worker POST is not an error (cmd/httpapi/worker_vm.go:206-210). A worker is stored as
  joined if and only if a pass over it had its POST refused and then its flag write landed
  (`Stranding.JoinedExactly`); from then on it never gets a server (`Machines.StrandedForever`;
  reached in `Scenes.WorkerStranded`). A worker that did get a server never keeps the flag
  (`Machines.JoinedHoldsNoServer`), and the pass that gave it one ends in an error
  (`WorkerProgress.FirstPassErrs`).
- A worker pass panics when none of its candidates answers its probe
  (`Workers.JoinsFirstAnswering`; reached in `Scenes.NobodyAnswers`); that is the only
  out-of-range index left (`Workers.FirstIpInRange`).
- A ready control plane whose cloud state moves once loses its public IP and its ready flag to the
  overwrite, and since its own Secret is in the way neither it nor another control plane of the
  cluster can ever turn ready again (`Guarantees.OnceReadyNeverAgain`; reached in
  `Scenes.ReadyLostToOverwrite`).
- A control-plane pass that read a version from before the server id posts a server again. Over a
  settled machine its writes never land (`Quiet.SettledStaysStored`), so that server is lost
  (reached in `Scenes.StalePassPosts`).
- A control plane whose public IP was recorded, but whose pending mark was not, is never
  probed again while its state stays the same (`Progress.ReadyExactly`, `Progress.QuietForever`;
  reached in `Scenes.NeverMarkedPending`).
- A deployment whose passes all complete ends with too many machines if and only if one of them
  listed fewer than there were and fewer than it wanted (`Replicas.TooManyExactly`; reached in
  `Replicas.StaleListDoubles`).
- A MachineDeployment pass returns nil without having looked at anything when its list fails
  (internal/controller/machinedeployment_controller.go:83-87) or the deployment is not found
  (internal/controller/machinedeployment_controller.go:74-76). Below, a pass that "returned nil
  after its list" is one that got past both.
- A KTCluster pass returns nil whether or not its claims landed (`Owners.NilWithoutClaim`); but no
  claim is ever refused because of another owner (`Ownership.NeverAlreadyOwned`).
- DeleteVM cannot return nil while the firewall object is gone and the server is not, which is
  what a failed server delete leaves behind (`Teardown.FinishableExactly`,
  `Teardown.BlocksExactly`, `Teardown.StuckForever`; reached in `Teardown.ServerDeleteFails`). In a
  cluster without control-plane rules the object is never made
  (internal/controller/ktmachine_controller.go:368-376), so a machine with an IP is stuck from the
  start (`Teardown.NoRulesNoTeardown`).

## Model

| member | source | states |
|---|---|---|
| Guarantees.ReadyWriteOncePerCluster | internal/controller/ktmachine_controller.go:391-411 | The Secret is a lock: in every run, over all machines, namespaces and passes, at most one status write per cluster name turns `ControlPlaneRef.Status` from false to true |
| Guarantees.ReadyWriteByCreator | cmd/httpapi/helpers.go:126-155 | That write comes after the cluster's kubeconfig Secret was created, and is made by the pass that created it |
| Guarantees.NameTakenForever | cmd/httpapi/helpers.go:146-150 | Once the Secret's name is held by an outsider or by a pass that has ended, no later step of any run is a ready write for that cluster |
| Guarantees.OnceReadyNeverAgain | internal/controller/ktmachine_controller.go:336-411 | Once any machine of a cluster was ready, no machine of that cluster, itself included, ever gets a ready write again |
| Preservation.StepKeeps | internal/controller/ktmachine_controller.go:310-483 | Every step (calls answered, failed, lost, crashes, users, stale starts) keeps the invariant over store, cloud, passes and log |
| Preservation.ReachableInv | internal/controller/ktmachine_controller.go:310-483 | The invariant holds of every world any run can reach |
| Script.PassFollowsScript | internal/controller/ktmachine_controller.go:310-483 | For any status read and any replies, the next call of a pass with its arguments, or its verdict, is the one the straight-line text of the reconciler gives, literals included |
| Transcript.EveryPassFollowsScript | internal/controller/ktmachine_controller.go:310-483 | In every run, so does every pass that did not crash, for the version it read and the replies it heard |
| Transcript.PassIsItsReplies | internal/controller/ktmachine_controller.go:310-483 | Over any run in which it does not crash, a pass stands exactly where the replies to its own calls took it |
| Transcript.CallDoes | cmd/httpapi/cp_vm.go:247-258 | Each answered call does to the store and the cloud what its arguments say and nothing else: the status over the version it was read at, the server and NAT of this machine, the Secret with the data given |
| Transcript.SecretIsFirstBody | cmd/httpapi/helpers.go:86-150 | In every run, the Secret a pass created holds the first body that pass was answered with a 2xx and read in full, and its probe had been answered yes |
| Transcript.NoYesNoReady | internal/controller/ktmachine_controller.go:391-411 | In every run, a pass whose probes were never answered yes creates no Secret and makes no ready write |
| Transcript.FetchesWhereProbed | cmd/httpapi/helpers.go:82-82 | In every run, a pass at its kubeconfig was told yes by the very address it fetches from |
| Names.ContainsExactly | internal/controller/ktmachine_controller.go:313-313 | The label test finds a substring exactly when it stands somewhere in the name |
| Names.ControlPlaneNames | internal/controller/machinedeployment_controller.go:121-121 | Every name of the control-plane deployment's machines makes a control plane, whatever the suffix |
| Names.WorkerNamesExactly | internal/controller/ktmachine_controller.go:313-313 | A name of the md-0 deployment's machines makes a control plane if and only if the cluster's name or the random suffix contains the label |
| Names.TemplateNames | internal/controller/ktcluster_controller.go:141-166 | A KTCluster asks for the templates named after it with -control-plane and -md-0, and no others |
| Names.ControlPlaneTemplateFirst | internal/controller/ktcluster_controller.go:141-151 | The -control-plane template is read first, the -md-0 one after it |
| Machines.VmConservation | internal/controller/ktmachine_controller.go:317-343 | Per machine, the servers accepted by the cloud are the recorded one (if any) and those whose status write never landed, nothing counted twice |
| Machines.PostsAreServers | cmd/httpapi/cp_vm.go:188-245 | The accepted create POSTs of a run and the servers accepted for a machine are equally many, so conservation is a statement about POSTs |
| Machines.RecordedIdStays | internal/controller/ktmachine_controller.go:336-343 | A recorded server id is neither changed nor cleared by any later run; the whole-status overwrite keeps it |
| Machines.JoinedHoldsNoServer | internal/controller/ktmachine_controller.go:439-450 | No version ever stored has both `JoinedControlPlane` and a server id |
| Machines.FlagLandsOnlyUnrecorded | internal/controller/ktmachine_controller.go:445-450 | The flag write can land only if no version of the machine ever held an id: after CreateWorkerVM recorded one, the caller's copy is stale and its write conflicts |
| Machines.StrandedForever | cmd/httpapi/worker_vm.go:206-210 | A worker stored as joined keeps exactly that stored status in every later run, so it never gets a server; when the flag gets stored is `Stranding.JoinedExactly` |
| Stranding.JoinedExactly | cmd/httpapi/worker_vm.go:153-210 | In every run, a machine ends stored as joined if and only if the cloud refused the POST of a pass over it and that same pass's flag write then landed |
| Stranding.NoRefusalNoFlag | internal/controller/ktmachine_controller.go:439-450 | While no pass of a run learns of a refused worker POST, no version of any machine is ever joined |
| Stranding.RefusedCanStrand | cmd/httpapi/worker_vm.go:206-210 | A pass whose POST is refused while it holds the newest version can land its flag write, and then the machine is stored as joined |
| Scenes.WorkerStranded | cmd/httpapi/worker_vm.go:206-210 | A reachable world holds a worker stored as joined for which no server was ever accepted |
| Scenes.NobodyAnswers | cmd/httpapi/worker_vm.go:20-35 | A reachable world holds a worker pass that panicked |
| Scenes.SecretLostToCrash | cmd/httpapi/helpers.go:146-150 | A reachable world holds a pending control plane whose Secret's name a crashed pass has taken, so that it cannot be ready |
| Scenes.ReadyLostToOverwrite | internal/controller/ktmachine_controller.go:336-343 | A reachable world holds a control plane that was ready, lost its IP and flag to one overwrite, and can never be ready again |
| Scenes.StalePassPosts | internal/controller/ktmachine_controller.go:317-324 | A reachable world holds a ready control plane for which a pass begun on version 0 had a second server accepted |
| Scenes.NeverMarkedPending | internal/controller/ktmachine_controller.go:361-391 | A reachable world holds a control plane with a recorded IP and no pending mark, at rest and unable to be ready though the Secret's name is free |
| Machines.NatAccounting | cmd/httpapi/network.go:126-180 | Per machine, the NATs attached on the cloud are the recorded one (at most one), those no write ever recorded, and those the overwrite erased, disjointly |
| Machines.PublicIpsConserved | cmd/httpapi/network.go:232-239 | Free and NATed public IPs partition the account's IPs, and each NATed one carries exactly one NAT |
| Machines.PublicIpRecordedOnce | cmd/httpapi/network.go:161-172 | No public IP id is recorded on two machines at once |
| Machines.RecordedIpIsReal | cmd/httpapi/network.go:161-172 | Every IP any machine ever stored is the account's, under the address the account gives that id, and its NAT is this machine's on that IP |
| Workers.StoredControlPlane | internal/controller/ktmachine_controller.go:336-411 | Every stored control plane has at most one IP; BootstrapReady means exactly one; ready implies BootstrapReady; each recorded pair is listed in its addresses |
| Workers.FirstIpInRange | cmd/httpapi/cp_bootstrap.go:14-14 | In every run each index into AssignedPublicIps[0] in the probe, the kubeconfig fetch and the candidate loop is in range, and a control-plane pass never panics |
| Workers.WorkerAfterBootstrap | internal/controller/ktmachine_controller.go:427-443 | Before any worker POST was accepted, a control plane of its namespace had a NAT attached, then a Secret created, then its ready write; the worker was given that control plane's NATed private IP |
| Workers.NoExternalNoWorker | internal/controller/ktmachine_controller.go:361-413 | If external networking is off in every KTCluster spec a namespace ever had, no worker VM is accepted there |
| Workers.CandidatesInOrder | internal/controller/ktmachine_controller.go:298-306 | The candidates are the order-preserving subsequence of the listed machines that pass the five-part filter: position by position, and all of them |
| Workers.JoinsFirstAnswering | cmd/httpapi/worker_vm.go:19-35 | Candidates are probed in order up to the first that answers, which is the one joined; if none answers the pass panics |
| Workers.FirstAvailable | cmd/httpapi/network.go:232-239 | The IP a NAT is posted on is the first unattached one of the cloud's list; there is none exactly when all are attached |
| Workers.FetchFirstFullBody | cmd/httpapi/helpers.go:86-124 | In at most 24 attempts the Secret's data is the body of the first attempt answered with 2xx and read in full, whatever broke before; if there is none the pass ends with an error and creates nothing |
| Policies.OnePolicyPerNat | cmd/httpapi/network.go:438-452 | Every firewall policy names the NAT the same pass attached for the same machine, and no NAT is given a second policy |
| Progress.RankNeverFalls | internal/controller/ktmachine_controller.go:310-418 | While the cloud keeps saying ACTIVE, a control plane's phase never falls in any run |
| Progress.GoodPassOutcome | internal/controller/ktmachine_controller.go:310-418 | A pass in which every call succeeds moves the phase by a fixed table, and uses up the Secret's name only in getting ready |
| Progress.ReadyExactly | internal/controller/ktmachine_controller.go:310-418 | Repeated successful passes reach ready if and only if the machine is ready already, or the Secret's name is free and it is not in the state "IP recorded, never marked pending" |
| Reach.GoodPassExists | internal/controller/ktmachine_controller.go:310-418 | From every state in which the machine has its public IP or can still get one (a free IP, and an address if the stored status is ACTIVE), such a pass exists |
| Reach.ReachesReady | internal/controller/ktmachine_controller.go:310-418 | From every state the condition allows in which the machine has its public IP or can still get one, such passes do end in ready |
| Reach.ReadyReachedExactly | internal/controller/ktmachine_controller.go:310-418 | Passes in which every call succeeds can end in ready if and only if the machine could be ready (ready already, or a free name and no unmarked IP) and it has its public IP or can still get one |
| Progress.QuietForever | internal/controller/ktmachine_controller.go:329-417 | Over a ready or stuck control plane, or a worker with a server or a flag, passes told nothing new change nothing in the store or on the cloud, however they interleave or fail |
| Quiet.SettledAmongOthers | internal/controller/ktmachine_controller.go:310-483 | A settled machine among everything else: other machines' passes, users, deletions, and its own passes begun on the newest version. Until the cloud reports another state or someone writes to it, no status, server, NAT, policy or Secret of it changes |
| Quiet.SettledStaysStored | internal/controller/ktmachine_controller.go:317-343 | The same with its own passes begun on any version: whatever those do on the cloud, no write of theirs lands and the stored versions never change |
| WorkerProgress.FirstPassErrs | internal/controller/ktmachine_controller.go:439-450 | A worker's first pass in which every call goes as well as it can records a server and still ends in an error, because its own flag write conflicts |
| WorkerProgress.FirstPassExists | internal/controller/ktmachine_controller.go:427-450 | Wherever a ready control plane can be listed, such a pass exists and ends |
| WorkerProgress.NextPassIsNil | internal/controller/ktmachine_controller.go:461-482 | Every later pass in which every call goes well ends with nil and keeps the server |
| Reconcile.Plant.Call | internal/controller/ktmachine_controller.go:310-483 | One remote call, others acting first: the pass moves as the protocol says for the reply it got, does not crash, and all of it is one legal run |
| Reconcile.StatusUpdate | internal/controller/ktmachine_controller.go:338-341 | A status write that lands moves the copy's version by one; one that fails leaves the copy's version stale |
| Reconcile.UpdateVmStatus | cmd/httpapi/cp_vm.go:247-258 | The copy's whole status is replaced, with the given state, before the write |
| Reconcile.CreateVM | cmd/httpapi/cp_vm.go:180-246 | Ends the pass; if the copy's version moved, exactly one write landed and the status is bare, Creating, with an id; nil without a write leaves the copy as it was (the POST was refused) |
| Reconcile.CreateWorkerVM | cmd/httpapi/worker_vm.go:45-211 | Posts a server that joins the given address; success leaves the caller's pass at its flag write with the status and version it had |
| Reconcile.PrivateAddresses | cmd/httpapi/network.go:26-44 | For some order of the networks, the first address found, with its network; none if and only if every network is empty |
| Reconcile.AvailableIps | cmd/httpapi/network.go:232-237 | The loop keeps exactly the unattached IPs, in list order |
| Reconcile.PairWithPublicIP | cmd/httpapi/network.go:69-180 | On success exactly one write landed and the status holds one more IP, a NAT on the cloud for this machine, paired with the given network and address; its id and address are those of the first unattached IP of the list the pass was answered |
| Reconcile.NatAndRecord | cmd/httpapi/network.go:79-180 | Posts a NAT on the given IP and records that IP's id and address with it; otherwise the pass ended with an error |
| Reconcile.AttachPublicIP | cmd/httpapi/network.go:22-186 | On success the status holds one more IP, a NAT on the cloud for this machine, paired with the first address of some network order, its id and address those of the first unattached IP listed; the pass goes on to the firewall call or the pending mark as the cluster's rules say |
| Reconcile.CheckControlPlaneMachineReady | cmd/httpapi/cp_bootstrap.go:12-59 | Asks the first assigned IP once, and errs exactly when the answer heard was not a yes |
| Reconcile.FetchAdminConf | cmd/httpapi/helpers.go:86-124 | In at most 24 attempts hands over the first body read in full, the last thing it heard, or ends the pass with an error |
| Reconcile.FetchAndCreateKubeconfigSecret | cmd/httpapi/helpers.go:81-156 | Nil means the cluster's Secret in the store was created by this pass and holds the first full body among its answers |
| Reconcile.GetBootstrapReadyMachineControlPlane | internal/controller/ktmachine_controller.go:286-307 | Returns the protocol's candidates, each with exactly one IP in every run; with none the pass ends with nil |
| Reconcile.ChooseControlPlane | cmd/httpapi/worker_vm.go:19-35 | The candidate it returns is the one whose NATed private IP the pass goes on to post; with none the pass panicked |
| Reconcile.JoinControlPlane | cmd/httpapi/worker_vm.go:17-43 | Gets the machine by value: the caller's copy and the pass's status and version are untouched, on nil (the pass is at its flag write) and on failure (it ended with that verdict) |
| Reconcile.AttachAndMark | internal/controller/ktmachine_controller.go:361-388 | On success two writes landed since, the status holds one more IP and the pending mark and nothing else changed, and the pass stands past the mark; otherwise the pass ended with an error and the copy is what it holds |
| Reconcile.MakeReady | internal/controller/ktmachine_controller.go:391-413 | A probe not answered yes is an error and nothing is asked after it; on success the ready write landed and changed only the ControlPlaneRef; the copy is what the pass holds |
| Reconcile.CheckBootstrap | internal/controller/ktmachine_controller.go:389-417 | A pending control plane turns ready or the pass errs; any other is left as it is and the pass ends with nil |
| Reconcile.SettleControlPlane | internal/controller/ktmachine_controller.go:359-417 | A control plane that is not ACTIVE is left as it is; an ACTIVE one is not left pending without an error |
| Reconcile.SyncControlPlane | internal/controller/ktmachine_controller.go:329-343 | On success either nothing was written and the copy is as it was, or one write landed and the whole status is a bare record with the same id and another state |
| Reconcile.ReconcileControlPlane | internal/controller/ktmachine_controller.go:313-418 | At the end the copy is exactly what the protocol says the pass holds, and an ACTIVE control plane is not left pending without an error |
| Reconcile.SyncWorker | internal/controller/ktmachine_controller.go:461-479 | What the pass could write is either the status it read or a bare record with the same id and another state, so never the flag set on the copy; a write that landed ends it with nil |
| Reconcile.JoinCluster | internal/controller/ktmachine_controller.go:424-452 | Going on means the flag write landed and changed only the flag; ending with nil means nothing was listed as ready and the copy is as it was; an early end leaves the version as it was |
| Reconcile.ReconcilePass | internal/controller/ktmachine_controller.go:310-483 | A whole pass, from whatever version it read and whatever happens between its calls, is part of a legal run, does not crash in it, and ends with the verdict the reconciler's text gives for the replies its own calls got |
| Replicas.NeverTooMany | internal/controller/machinedeployment_controller.go:83-96 | Whatever fails and however passes interleave, a deployment owns at most what it started with or the largest Replicas it asked for, plus what its lists failed to show of the machines it had and wanted |
| Replicas.ExactCount | internal/controller/machinedeployment_controller.go:83-150 | With one Replicas value and no pass broken off, the count and what is still owed are exactly max(initial, Replicas) plus what the lists failed to show, whatever they showed |
| Replicas.TooManyExactly | internal/controller/machinedeployment_controller.go:162-178 | With one Replicas value and all passes complete, the count ends above max(initial, Replicas) if and only if some pass listed fewer machines than there were and fewer than it wanted |
| Replicas.CreatesAreMachines | internal/controller/machinedeployment_controller.go:120-150 | The creates of a run are exactly the machines it added to the deployment |
| Replicas.CreatesWithinShortfall | internal/controller/machinedeployment_controller.go:111-150 | When no pass lists fewer machines than there are and than it wants, as with up-to-date lists, creates over any number of partly failing passes never exceed max(0, Replicas - initial count) |
| Replicas.NilMeansEnough | internal/controller/machinedeployment_controller.go:83-98 | Once a pass returned nil after its list the replicas are there, even with stale lists |
| Replicas.Converges | internal/controller/machinedeployment_controller.go:83-98 | When no pass saw too few and one returned nil after its list, the count is exactly max(initial, Replicas) and the creates exactly the shortfall |
| Replicas.AtRest | internal/controller/machinedeployment_controller.go:83-98 | At its replica count a deployment is a fixpoint: later passes create nothing and it owns the same machines |
| Replicas.StepCount | internal/controller/machinedeployment_controller.go:168-178 | A step of one deployment's pass leaves every other deployment's count and pass alone |
| Replicas.SameOutcome | internal/controller/machinedeployment_controller.go:120-150 | Any two interleavings in which no pass sees too few and each deployment has a pass that returned nil after its list end at the same counts |
| Replicas.StaleListDoubles | internal/controller/machinedeployment_controller.go:162-166 | A concrete run in which one list shows one machine too few ends at two machines for Replicas 1 |
| Deployments.CountOwned | internal/controller/machinedeployment_controller.go:168-178 | The nested loop counts each listed machine once, however many of its references match |
| Deployments.CountChildMachinesByOwner | internal/controller/machinedeployment_controller.go:158-179 | The count is that of the owned machines in what the list showed, never more than are owned; an error exactly when the list failed |
| Deployments.ListedCount | internal/controller/machinedeployment_controller.go:158-179 | A list that shows every machine gives exactly the owned count |
| Deployments.KtMachineForMachineDeployment | internal/controller/machinedeployment_controller.go:101-156 | From what it heard: an error exactly when the template was not found or a create failed, creates stopping at the first that failed, and otherwise exactly the missing number of them |
| Deployments.FillUp | internal/controller/machinedeployment_controller.go:88-98 | With the count right nothing is asked of the store; otherwise machines are created as above, and nil means the pass finished |
| Deployments.ReconcileDeployment | internal/controller/machinedeployment_controller.go:65-99 | The outcome is the one the answers of its calls call for, call by call; nil after its list means nothing is left to create, and the pass is finished in a legal run of the fleet |
| VmBound.ServersWithinMachines | internal/controller/ktmachine_controller.go:317-324 | Servers ever accepted number at most the machines plus the servers whose status write never landed |
| VmBound.VmBoundWithLag | internal/controller/machinedeployment_controller.go:111-150 | In every joint run of deployment and machine passes, with any lists, servers number at most the sum of max(initial owned, largest Replicas), plus what lists failed to show, plus the lost status writes |
| VmBound.GlobalVmBound | internal/controller/machinedeployment_controller.go:111-150 | When no pass sees too few machines, as with up-to-date lists, the servers of every joint run number at most the sum of max(initial owned, largest Replicas) plus the lost status writes |
| Ownership.SetController | internal/controller/cluster_controller.go:100-102 | A controller reference that is set becomes the object's one controller, even beside other references to the same object |
| Ownership.RefusedExactly | internal/controller/ktcluster_controller.go:216-219 | A claim is refused if and only if the controller there differs in group, kind or name |
| Ownership.OneKTClusterPerTemplate | internal/controller/ktcluster_controller.go:141-166 | The two suffixes cannot be confused: at most one KTCluster of a namespace asks for a template |
| Ownership.EdgesGoDown | internal/controller/ktmachinetemplate_controller.go:98-115 | In every run, controller edges go exactly one kind down the chain and stay in one namespace |
| Ownership.OneControllerEach | internal/controller/cluster_controller.go:94-123 | In every run, each object has at most one controller reference and it names one object |
| Ownership.OneClaimantEver | internal/controller/ktcluster_controller.go:208-227 | At any two points of any runs, a template is controlled by the same KTCluster |
| Ownership.NeverAlreadyOwned | internal/controller/ktcluster_controller.go:216-219 | However stale the child a pass read, SetControllerReference does not refuse: only the version check can stop a claim |
| Ownership.Acyclic | internal/controller/machinedeployment_controller.go:139-143 | The controller graph is acyclic and no chain is longer than the six kinds |
| Ownership.OwnerStays | internal/controller/cluster_controller.go:117-120 | Ownership once set, uid included, survives every later pass while nothing is deleted |
| Ownership.OwnedExactly | internal/controller/ktcluster_controller.go:141-184 | From a store without controllers, p controls c at the end of a run if and only if a pass over p landed its claim or created c |
| Ownership.ReachedFromCluster | cmd/httpapi/network.go:611-625 | Once each parent had a successful pass, in any order, every machine of the control-plane and md-0 deployments and its firewall is reachable from the Cluster |
| Owners.Store.Update | internal/controller/cluster_controller.go:118-120 | Nil means the update landed, as a claim of the run at the version read; what landed is the copy's owners; an update on any other version does not land |
| Owners.ClaimChild | internal/controller/ktcluster_controller.go:208-227 | The copy gets the controller reference; nil means it landed, as this pass's own claim in the run; an error may hide one that did |
| Owners.ReconcileCluster | internal/controller/cluster_controller.go:54-91 | The outcome is the one its reads and its update call for, in that order; nil for a Cluster that was found means the claim on its KTCluster landed |
| Owners.ReconcileKTMachineTemplate | internal/controller/ktmachinetemplate_controller.go:54-95 | The outcome is the one its reads and its update call for, in that order; nil for a template that was found means the claim on its MachineDeployment landed |
| Owners.FetchMachineTemplate | internal/controller/ktcluster_controller.go:163-184 | An error if and only if the template could not be read; a template that was read is updated once, and the update's error is dropped |
| Owners.ReconcileKTCluster | internal/controller/ktcluster_controller.go:55-161 | An error if and only if the KTCluster could not be read; the control-plane template is fetched first, md-0 only if that was read; claims do not show in the outcome |
| Owners.NilWithoutClaim | internal/controller/ktcluster_controller.go:178-183 | A reachable store and a pass over it that returns nil, reads both templates and claims neither, both having been written to since the versions it read |
| Firewall.FirewallAccounting | cmd/httpapi/network.go:604-669 | With overlapping, failing and stale calls, each recorded job is, field by field, what the cloud answered for one of its policies, recorded once; policies are recorded plus lost; and every version stores the same one rule, that of one of the policies |
| Firewall.SuccessStaysRecorded | cmd/httpapi/network.go:658-669 | The version check loses no update: the job of a call that returned nil stays recorded in every later run |
| Firewall.JobsMirrorPolicies | cmd/httpapi/network.go:604-669 | After calls one after another that all returned nil, the stored jobs are exactly the cloud's answers for its policies in creation order, the first one too, and the stored rules are only the first policy's |
| Firewall.NilExactly | cmd/httpapi/network.go:502-669 | A call returns nil if and only if the policy was accepted, the object was there or could be created and then read, and the status update landed; its job is then the cloud's answer |
| FirewallCalls.AssignedIps | cmd/httpapi/network.go:291-296 | Keeps exactly the listed IPs that carry a NAT, place by place and in list order |
| FirewallCalls.ExternalNetworkId | cmd/httpapi/network.go:421-431 | The id of the first network named external or of type UNTRUST; a non-empty id comes from one |
| FirewallCalls.LastStaticNat | cmd/httpapi/network.go:436-441 | The loop leaves the last recorded NAT |
| FirewallCalls.CreateFirewallObjectInK8s | cmd/httpapi/network.go:560-673 | Creates the object or adds to it; nil exactly when the job's status update was seen to land, and then the given job is in the store |
| FirewallCalls.AddFirewallSettings | cmd/httpapi/network.go:401-558 | Posts if and only if some IP carries a NAT and there is an external network; the one policy goes from the first such network to the last NAT with the group's rule; nil means the cloud holds that policy and its very answer is recorded in the store |
| Teardown.TeardownAccounting | cmd/httpapi/common.go:22-114 | Nil on a live server with an IP: each recorded policy, then the object, then each NAT, then the server got its attempt in list order; what is left of the recorded ones is exactly what no attempt deleted, and nothing else was touched |
| Teardown.FinishableExactly | cmd/httpapi/common.go:183-257 | A call can return nil if and only if the server is gone, or it is there and either no IP was recorded or the firewall object is still there |
| Teardown.BlocksExactly | cmd/httpapi/common.go:41-111 | A call on a live server leaves nothing a retry could finish if and only if it deleted the firewall object and not the server |
| Teardown.StuckForever | cmd/httpapi/common.go:225-240 | Once the object is gone (or was never made) and the server is not gone, no number of retries attempts anything or changes anything |
| Teardown.NoRulesNoTeardown | cmd/httpapi/common.go:225-240 | A machine with an IP and without a firewall object is stuck from the start: every call errs, attempts nothing and changes nothing |
| Teardown.ServerDeleteFails | cmd/httpapi/common.go:41-113 | Such a call exists: one that could have returned nil deletes everything but the server and leaves it stuck |
| Teardown.NatsTriedOnce | cmd/httpapi/common.go:188-204 | Over any number of calls the NATs get their attempts in one call at most |
| TeardownCalls.DeleteFirewallSettings | cmd/httpapi/common.go:206-257 | Nothing is tried if and only if the object could not be read, and then it errs; otherwise every recorded policy is tried in list order whatever happens to each, then the object, and nil means its delete was seen |
| TeardownCalls.DeleteVMDependentResources | cmd/httpapi/common.go:183-204 | Without IPs nothing is read or tried; with IPs, nothing is tried if and only if the object could not be read; nil means the whole plan up to the server was tried, an error that the object was not read or not seen deleted |
| TeardownCalls.DeleteVM | cmd/httpapi/common.go:22-114 | The outcome is the one the answers call for: a 404 is nil with nothing tried, no answer or an unreadable object is an error with nothing tried, and otherwise the plan ran; and the call is one of those `Teardown` describes |
| Leftovers.PoliciesLeft | cmd/httpapi/common.go:206-257 | After firewall calls of any kind and a teardown that returned nil, the machine's policies left on the cloud are exactly those the calls lost and those whose attempt failed, and nothing was attempted twice |

## Left out

- HTTP requests, JSON, headers, URLs, timeouts, logging and sleeping: each call is its outcome and its effect.
- An out-of-range index is modelled as ending the pass with a panic; what the process does next is not.
- Payload contents of the VM create (networks, disks, cloud-init, user data): no logic depends on them.
- Spec fields copied from the template to a new KTMachine, and its ControlPlaneNumber.
- changeKubeconfigDomain (cmd/httpapi/helpers.go:158-214): its result is ignored by the caller.
- Login and token creation, and the reads of the KTCluster and the token at the head of a machine pass.
- The commented-out finalizers: teardown is a procedure on its own, and no other pass acts while it runs.
- The third branch of the replica count (internal/controller/machinedeployment_controller.go:116-118): the guard at line 88 makes it unreachable, and `Deployments.KtMachineForMachineDeployment` shows it.
- Random name suffixes: any suffix may be chosen, and Create fails when the name is taken or invalid.
- Deletion of machines in `Replicas` and `VmBound`, and of objects in the reachability results of `Ownership`.
- Same-cluster joins: the candidate filter does not compare cluster names, so no such claim is made.
- Firewall objects and policies of other machines in `Firewall`: each machine has its own, found by its name.
- Empty reconcilers (firewall, public network, kubeadm), generated code, manifests, RBAC and cmd/main.go.
- Reconcile.Plant.AddFirewallSettings: one call of the machine protocol; its inside is `FirewallCalls`, and the two are not composed into one run.
- Owners.ReconcileKTCluster: nil says nothing about claims, because the code drops their errors.

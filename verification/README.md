# Spark Capability Broker: a verified model

A Dafny model of the parts of the Go7 Spark Capability Broker that decide whether GPU work
and training can meet, whether a job can run twice, and whether bytes can be lost. Run
`dafny verify dfyconfig.toml` with Dafny 4.11.

| modules | what they model |
|---|---|
| `Protocol`, `Controller` | the fenced training controller: write-ahead authority record, state file, unit, checkpoint evidence |
| `ControllerSteps`, `ControllerRuns`, `PlantMoves` | what holds over every run of a controller, with crashes between any two durable steps |
| `Takeovers` | when a resume or takeover completes, and what becomes of one that is taken up and does not |
| `Worlds`, `BrokerSteps` | everything that survives a crash of the broker, one inductive invariant over it, and why each durable step keeps it |
| `Wedges` | leases no restart can close, and leases that wait for evidence, and why nothing the host or a restart does changes that |
| `Outcomes`, `Smooth` | exactly when each thing the coordinator does succeeds, and that it does on a host that answers |
| `Host` | the lease, epoch and quantum tables, and the host as it answers commands and probes |
| `Admission`, `CoordinatorProofs`, `Coordinator` | the resource coordinator: admission, rollback, release, restart reconciliation |
| `Runs` | whole runs with crashes at any durable step: composed safety, at-most-once admission, wedged leases |
| `Observation` | what a probe report says about the runtimes the broker started, and what it cannot |
| `Scripts` | runs, from a host on which nothing has happened, that reach the failing states |
| `Rounds` | whole admissions, releases and recoveries that go through, over any number of controllers |
| `Conflicts` | where broker and controller do not meet, and exactly when |
| `Epochs` | strict host epochs over many stores that share one epoch file |
| `Jobs`, `Scheduling`, `Preemption` | the durable job machine, the scheduler's exception flow, the paged preemption scan |
| `Artifacts` | commit, quota, orphan recovery and the verification cache |
| `Probe`, `Inventory` | consumer attribution, the published snapshot, and its agreement with the coordinator's validation |
| `Routing`, `Snapshots`, `Ranking` | canonical configuration, snapshot normalization, ranking and simulation |
| `Ordering`, `Wrappers` | string order, a stable sort, options and results |

## How it is stated

An operation is a method whose contract gives its answer and the whole state it leaves, and
where a crash matters the list of durable states it passes through. A crash is a prefix of
that list. Main theorems quantify over all such runs:

- `Runs.Run` performs any script of admissions, activations, deactivations, releases and
  crashes against a host that does anything in between, and ensures `SafeWorld` in every
  state ever reached. `Worlds.Inv` is the inductive invariant behind it.
- `Runs.AtMostOnce` and `Runs.RestartForever` take the same steps, within one process and
  over any number of them. `Artifacts.Run` does so for the artifact registry.
- `Scheduling.Run` does the same for the job ledger, with clients between any two steps.
- `Outcomes.Situation` is all that an outcome depends on: the durable world, what the host
  will do next, and the last generation accepted. Each coordinator operation succeeds exactly
  if a predicate of `Outcomes` holds of the situation it starts in.
- The lemmas of `ControllerRuns` speak about every sequence of legal controller steps, and
  `ControllerRuns.ExecutionIsLegal` shows that every execution is one.

## What the model assumes

- Leases, fences and mutations are fresh: they come from one counter. Digests are injective.
- The policy is fixed across restarts, its controller ids are distinct, and the wall clock
  does not go back. A resource probe is configured.
- Only the controller starts or stops its unit. The trainer publishes receipts while its
  unit runs or is being stopped, and the unit may die at any time.
- By the time a call of a controller returns or fails, the command is delivered or lost. A
  command in flight when the broker crashes may still arrive once, at any later time.
- The probe reports state files as they are. A GPU consumer of a runtime the broker started
  is listed by the inventories it can read, and lies in no other profile's cgroup; that such
  a consumer is then shown or counted is proved in `Observation`. A started runtime without
  a GPU consumer is invisible to it. What else it reports, and whether it answers, is
  arbitrary.
- A profile is activated only under an active lease, and a lease is handed to release once.
  The second is what `Scheduling.Scheduler.Execute` proves of its caller, if the final
  deactivation raises only what is caught there.
- A store transaction, an atomic file replacement and a unit action are single durable
  steps. A failed row insertion in the artifact registry inserted nothing.
- Sections under one lock are atomic with respect to each other.

## What turned out otherwise

- The coordinator numbers displacements from 1 within each admission, and a controller with
  a record of another lease of the same epoch accepts only generation 1
  (`spark_broker/training_controller.py:456`). An admission is met by no refusing fence
  exactly if no chosen controller beyond the first has a record of this epoch:
  `Conflicts.NoFenceRefuses`. So one broker process can admit a plan that displaces two or
  more controllers at most once: `Runs.AtMostOnce`. Whoever refuses the displacement refuses
  the rollback as well: `Conflicts.LaterIsRefused`.
- A takeover is taken up exactly by a controller that completes what is pending and whose
  record names the lease, its original fence and an earlier epoch:
  `Conflicts.TakeoverNeedsTheRecord`. It then completes exactly if the recorded evidence is
  on disk and the unit starts: `Takeovers.ResumeCompletes`. A lease is wedged, and no later
  restart closes it (`Runs.RestartForever`), as soon as it journals a controller that can
  never be taken over to the end, by whatever its trainer and restarts may do before
  (`Takeovers.LostIsNeverTaken`, `Takeovers.OthersCanBeTaken`), and that none of its own
  commands in flight can still reach. That happens in these ways:
  - the broker crashed after journaling a displacement and before the controller took it up
    (`Runs.FirstAdmissionWedges`), which one that refuses it never does;
  - a takeover of it was taken up and the lease was not closed, whether that takeover hung,
    its unit failed to start, another one failed, or the broker crashed: the record is then
    under the recovery fence, and the next restart names another
    (`Wedges.TakenUpIsWedged`, `Coordinator.ResourceCoordinator.ReconcileLease`);
  - a controller is stuck (`Conflicts.StuckIsWedged`), or its unit is down and the evidence in
    its record is not on disk.
- The likeliest of these takes no crash at the wrong step. Once a release has brought a
  controller back, its trainer publishes its next checkpoint; if the lease is still open when
  the broker stops, the restart's takeover is accepted and refused with
  `checkpoint_changed`: `Scripts.MovedOnIsWedged`. Even a restart that does not get as far as
  the takeover cannot close the lease before the old checkpoint is on disk again:
  `Runs.RestartWaits`. The comment at `spark_broker/resources.py:752-755` covers only a crash
  after the controller has applied the request.
- A training controller that has never been restored has no recorded start of its normal
  time; the first admission that would displace it records that time as now, and so defers if
  its minimum is positive (`spark_broker/store.py:271-285`):
  `Coordinator.ResourceCoordinator.EnforceTrainingQuanta`.
- A controller is stuck once it has stopped its unit for a release without the trainer having
  published a new checkpoint, because the trainer that could is gone
  (`spark_broker/training_controller.py:476-487`): `Conflicts.ReleaseSticks`,
  `Conflicts.FirstReleaseSticks`. A rollback that restores a controller it never reached
  completes only if the disk still shows the evidence in that controller's record, or there
  is none and fresh starts are allowed; otherwise it hangs, and sticks if the unit is down or
  there is no evidence: `Conflicts.RestoringSticks`.
- A profile's absence from the probe's report means that it holds no GPU consumer, not that
  its runtime has stopped. If a load is cut short before the runtime takes up the GPU
  (`spark_broker/executors.py:780-820`) and stopping it fails, which the scheduler swallows
  (`spark_broker/scheduler.py:251`), release restores training beside it:
  `Observation.UnseenIsRestoredOver`, `Scripts.UnseenIsReached`. It does not if the runtime
  has stopped or holds a consumer when release begins:
  `Coordinator.ResourceCoordinator.Release`.
- A restart over a ready record does not publish the state file again
  (`spark_broker/training_controller.py:601`), so a crash between the last two writes leaves
  it behind until the same request is repeated: `ControllerRuns.StateFileAfterCrash`.
- The refusal `resource_snapshot_stale` (`spark_broker/resources.py:793`) cannot occur: an
  accepted generation is never behind an earlier one, and
  `Coordinator.ResourceCoordinator.Acquire` excludes it.
- Host epochs are strict among those returned, not among those committed:
  `Epochs.CommittedEpochsCanCoincide`.
- If a cancellation arrives just before a deferral, the job stays loading until a restart
  (`spark_broker/store.py:400`); `Scheduling.Scheduler.Execute` states that case.

## Model

| member | source | states |
|---|---|---|
| `Protocol.ContentDigestIgnoresOrder` | spark_broker/training_controller.py:303-309 | The receipt's content digest is the same for two file lists exactly when they are the same files in some order |
| `Protocol.EvidenceDigest` | spark_broker/training_controller.py:303-309 | Digesting evidence, whose files are already sorted, gives the digest of the receipt it came from, so the baseline comparison at the stop compares like with like |
| `Protocol.AdvancedMeansNewFiles` | spark_broker/training_controller.py:476-487 | The stop's check passes exactly if the new receipt is of the same run, has another checkpoint id and lists other files |
| `Controller.TrainingController.ReadCheckpoint` | spark_broker/training_controller.py:356-397 | The evidence of the receipt or the first error, as `CheckpointOf` has it, of which the next rows say exactly what it takes |
| `Protocol.CheckpointIsVerified` | spark_broker/training_controller.py:356-397 | Evidence is returned exactly if the receipt lists between 1 and 128 files, no path twice, and each is on disk with the listed number of bytes and the listed digest of those bytes; it is then the receipt's own, in the order of the paths |
| `Protocol.SameEvidenceSameBytes` | spark_broker/training_controller.py:356-397 | Two disks that bear the same evidence out hold the same bytes at every path it lists |
| `Controller.TrainingController.Apply` | spark_broker/training_controller.py:461-498 | Stop, then check; or check, then start: outcome, files and each durable state passed through, for everything the unit and the trainer can do |
| `Controller.TrainingController.Complete` | spark_broker/training_controller.py:500-597 | The ready record is written before the state file, and only after the unit action succeeded |
| `Controller.TrainingController.RecoverIfNeeded` | spark_broker/training_controller.py:599-645 | A pending record is completed with its own baseline and previous record, or refused; a ready one is returned and nothing is written |
| `Controller.TrainingController.Serve` | spark_broker/training_controller.py:651-699 | A request once nothing is pending: retry, refusal, or the write-ahead record followed by its completion |
| `Controller.TrainingController.Handle` | spark_broker/training_controller.py:647-699 | A whole set-mode or takeover call: its answer, the files it leaves and every durable state in between are those of `HandleRun`, about which the next rows speak |
| `ControllerSteps.HandleIsLegal` | spark_broker/training_controller.py:647-699 | Whatever systemd and the trainer do, every durable step of a call is one of five legal ones, and the only command taken up is the one requested |
| `ControllerSteps.StepKeepsSound` | spark_broker/training_controller.py:500-597 | Every legal step keeps the record well formed: completed records describe their command, a released one holds evidence and its unit is stopped |
| `ControllerSteps.StepKeepsAttributed` | spark_broker/training_controller.py:540-546 | The published state file is never ahead of the authority record: if it carries the current mutation, that mutation is complete and recorded |
| `ControllerRuns.ExecutionIsLegal` | spark_broker/training_controller.py:599-699 | Any sequence of calls cut short anywhere, restarts and trainer activity is a sequence of legal steps, so what follows holds of every run |
| `ControllerRuns.EpochNeverDecreases` | spark_broker/training_controller.py:449-452 | Over any run the accepted broker epoch never decreases |
| `ControllerRuns.GenerationsIncrease` | spark_broker/training_controller.py:452-457 | Over any stretch of a run under one lease of one epoch the fence is fixed and every newly accepted command has a higher generation |
| `ControllerRuns.TenureBetween` | spark_broker/training_controller.py:452-457 | If the same lease and epoch are in charge at two moments of a run and the fence changed or the generation did not rise, another tenure lies between |
| `ControllerRuns.OtherLeaseAdmits` | spark_broker/training_controller.py:456-457 | A completed record of another lease in the same epoch admits a command exactly if its mode is normal and the generation is 1 |
| `ControllerRuns.RetiredLeaseIsForgotten` | spark_broker/training_controller.py:443-459 | Within one epoch a retired lease is forgotten: from any completed normal record two requests bring the same lease back at the first generation, under any fence, so the row on generations cannot be stated per epoch and lease |
| `ControllerRuns.StaleCommandIsInert` | spark_broker/training_controller.py:443-459 | A request of an older epoch, delivered at any later time, finishes what was pending, is refused and changes nothing else |
| `ControllerRuns.PendingOnlyCompletes` | spark_broker/training_controller.py:599-645 | Over any run an applying record is replaced by nothing but the ready record of the same command |
| `ControllerRuns.ReleasedLeavesOnly` | spark_broker/training_controller.py:443-459 | A released controller is left only by the same lease and fence at a higher generation of its epoch, or by a takeover naming both at a higher epoch; its unit stays stopped until then |
| `ControllerRuns.ResumeIsExact` | spark_broker/training_controller.py:488-498 | The unit is started only while a resume is pending and only if the evidence on disk is exactly the evidence in the previous record, or a fresh start is permitted and there is none |
| `ControllerRuns.ResumesTheSameBytes` | spark_broker/training_controller.py:488-498 | Whenever the unit is started from recorded evidence, every file it lists holds the bytes it had when the release that recorded it completed |
| `ControllerRuns.CheckpointAdvances` | spark_broker/training_controller.py:616-629 | A release that completes after any number of crashes has the same run as the receipt on disk before the first stop, another checkpoint id and other files |
| `ControllerRuns.RetryReturnsStored` | spark_broker/training_controller.py:651-654 | Repeating a completed request returns the stored response and touches neither unit nor record |
| `ControllerRuns.CrashRefinement` | spark_broker/training_controller.py:599-645 | A transition interrupted by any number of crashes and then finished by a restart ends in the same record, response, state file and unit state as one uncrashed attempt |
| `ControllerRuns.RestartCompletesOrKeeps` | spark_broker/training_controller.py:599-645 | A restart over a pending record completes and publishes that very command, or keeps record and state file |
| `ControllerRuns.StateFileAfterCrash` | spark_broker/training_controller.py:543-546 | After a crash and a successful restart the state file lags behind the record exactly if the crash fell between the last two writes |
| `ControllerRuns.StuckForever` | spark_broker/training_controller.py:599-680 | Over any run of calls, crashes, restarts and trainer activity a stuck controller (a pending release whose unit is down without a new checkpoint, or a pending resume whose evidence is not on disk while the unit is down, or that has none and may not start afresh) keeps its record and refuses every request |
| `ControllerRuns.UnstuckCanFinish` | spark_broker/training_controller.py:599-645 | Every other pending record, if the evidence it refers to is that of some receipt and files, can still be completed by something its trainer may publish and one restart: stuck is exactly when none can |
| `Takeovers.ResumeCompletes` | spark_broker/training_controller.py:488-498 | A new request for the normal mode, a takeover for one, succeeds exactly if epoch and generation count from 1, what is pending completes first, the fence admits it, the evidence then recorded is on disk (or there is none and a fresh start is allowed), and the unit starts |
| `Takeovers.ReleaseCompletes` | spark_broker/training_controller.py:461-487 | A new request for the released mode succeeds exactly if epoch and generation count from 1, what is pending completes first, the fence admits it, there is a legible receipt to move past (or none, and no recorded evidence), the unit stops, and the checkpoint then on disk is whole, of the same run, with another id and other files |
| `Outcomes.AnswerIsTheRecord` | spark_broker/training_controller.py:500-597 | The answer to a new command, the record and the state file all carry that command's own identifiers; after a release the unit is down and all three name the checkpoint on disk by run, id and digest |
| `Takeovers.ResumeHangs` | spark_broker/training_controller.py:488-498 | Admitted without the evidence on disk it is taken up and refused: nothing but the record has moved, and that is pending now |
| `Takeovers.WaitsForever` | spark_broker/training_controller.py:599-680 | As long as the trainer does not put the evidence back, such a resume stays pending over any calls, crashes, restarts and publications, and every request and restart is refused |
| `Takeovers.LostIsNeverTaken` | spark_broker/training_controller.py:599-699 | A controller whose fence does not admit a takeover, that is stuck, or whose evidence is missing for good, never completes it, whatever its trainer and any restarts do before |
| `Takeovers.OthersCanBeTaken` | spark_broker/training_controller.py:599-699 | Every other one can complete it, if its evidence is that of some receipt and files: after something its trainer may publish and one restart |
| `PlantMoves.EventMoves` | spark_broker/training_controller.py:599-699 | All that one call, restart or trainer event can do to a controller as the broker sees it: whose displacement it may be in, and that its recorded command, pending or done, changes only to one its fence admits, never while it is stuck |
| `Worlds.MoveKeepsInv` | spark_broker/training_controller.py:443-498 | The composed invariant survives any controller moving on its own or taking up a command in flight |
| `Worlds.EvolveIsStable` | spark_broker/resources.py:713-843 | Whatever the rest of the host does between two steps of the broker, late deliveries included, the invariant holds and what the broker has verified stays true |
| `BrokerSteps.OpenKeepsInv` | spark_broker/store.py:194-223 | Creating a lease while none is open keeps the invariant |
| `BrokerSteps.RewriteKeepsInv` | spark_broker/store.py:225-250 | Rewriting a lease row keeps the invariant if journal entries are only added, activation follows displacement, and closing follows restoration |
| `BrokerSteps.MayClose` | spark_broker/resources.py:827-843 | A lease may be closed once every journaled controller is back in this epoch and every training restoration is recorded |
| `BrokerSteps.SendKeepsInv` | spark_broker/resources.py:752-769 | Sending a command keeps the invariant if its compensation is journaled under an open lease that is not active; over a started runtime the lease leaves the invariant's protection and is recorded as loose |
| `BrokerSteps.CommandKeepsInv` | spark_broker/resources.py:760-769 | The invariant holds in all four states around a command that is delivered, lost, or cut short in the controller, and the controller's record becomes the command's only if its fence admits it and it is not stuck |
| `BrokerSteps.ObservationProves` | spark_broker/resources.py:1048-1080 | A published state that carries a fresh mutation proves that the controller has completed exactly that command |
| `BrokerSteps.ActivateKeepsInv` | spark_broker/scheduler.py:184-189 | A profile activated under an active lease keeps the invariant |
| `Wedges.EvolveKeepsRefusals` | spark_broker/training_controller.py:599-699 | Whatever the rest of the host does, late deliveries included, a controller that refuses every takeover of a lease goes on refusing, and one that rests on its evidence goes on resting on it or refuses |
| `Wedges.TakeoverKeepsRefusals` | spark_broker/resources.py:1008-1023 | So it does in all four states around a takeover sent to it or to any other controller |
| `Wedges.JournaledIsWedged` | spark_broker/resources.py:742-759 | A lease that journals an idle controller nothing has reached under it is wedged: the record does not carry the lease's fence, and no command in flight can make it so |
| `Wedges.TakenUpIsWedged` | spark_broker/resources.py:1008-1045 | A lease is wedged from the moment a takeover of it is taken up by one of its controllers, completed or not, until it is closed: the record is then under the recovery fence. So a restart gets one attempt |
| `Wedges.RefusedIsNotAnswered` | spark_broker/training_controller.py:680-699 | A takeover is answered only by a controller that does not refuse, and whose evidence, if it rests on a record of the lease, is on disk when the takeover arrives |
| `Host.Durable.CreateLease` | spark_broker/store.py:194-223 | A lease row with its own fence, both fresh |
| `Host.Durable.SetLease` | spark_broker/store.py:225-250 | The row's status and journal are replaced, and nothing else; an unknown lease is reported |
| `Host.Durable.MarkActiveLeasesUnknown` | spark_broker/store.py:263-269 | Every open lease becomes unknown and is returned, in order of creation |
| `Host.Durable.NormalSince` | spark_broker/store.py:271-285 | The recorded start of the normal quantum, recorded as now if there was none |
| `Host.Durable.MarkNormal` | spark_broker/store.py:287-296 | The quantum starts again now |
| `Host.Durable.BeginEpoch` | spark_broker/store.py:157-169 | The stored epoch becomes one more than it was, or the minimum asked for |
| `Admission.ControllersForElements` | spark_broker/resources.py:902-907 | The controllers an admission displaces are exactly those that throttle for its service class and run another profile |
| `CoordinatorProofs.ControllersDistinct` | spark_broker/resources.py:902-907 | None of them is displaced twice |
| `Admission.ControllersInOrder` | spark_broker/resources.py:902-907 | They are listed by priority, and by identifier among equals |
| `Admission.AdmissibleSnapshot` | spark_broker/resources.py:1327-1417 | A snapshot is accepted exactly if it is healthy where a probe is required, no consumer is unknown, nothing is active beside the leased profile on a healthy host, that profile is not unhealthy, and pressure and memory are within the reserves; an activation is verified exactly if, besides, the leased profile is active where that is asked for |
| `Admission.RestoredRefusal` | spark_broker/resources.py:1083-1104 | Restored profiles are accepted exactly if the snapshot is not behind and shows each of them active and healthy |
| `Admission.AnswersAcknowledge` | spark_broker/resources.py:379-470 | Every successful answer of a controller passes the broker's echo checks, checkpoint requirement included, and no other answer does but for which checkpoint it names |
| `Outcomes.OnlyItsRecordIsObserved` | spark_broker/resources.py:1048-1080 | The observation check accepts nothing but the controller's own record, checkpoint included where the answer names one |
| `Outcomes.RequestAnswers` | spark_broker/resources.py:379-470 | An answer that got back is that of the controller's completed record, published in its state file, whatever else the host did during the call |
| `Observation.ConsumerIsShown` | spark_broker/resource_probe.py:543-618 | A process that holds the GPU, listed where the inventories can be read and in no other profile's cgroup, makes its profile active or a consumer unknown in every report the probe builds |
| `Observation.ReportsAreTruthful` | spark_broker/resource_probe.py:543-618 | So every such report, healthy or not, meets what the coordinator's rows assume of snapshots about GPU consumers |
| `Observation.AbsenceCanBeShown` | spark_broker/resources.py:1373-1379 | A truthful snapshot may verify a profile's absence exactly if no runtime of it holds a GPU consumer, started or not |
| `Observation.UnseenIsRestoredOver` | spark_broker/resources.py:845-888 | While a lease is released whose runtime is started and holds no consumer yet, absence may be shown, the restoration may be sent, and the training unit then runs beside a runtime that may load at any time |
| `Scripts.UnseenIsReached` | spark_broker/scheduler.py:184-253 | Admission, a start of the runtime that does not get as far as the GPU, and a failed deactivation lead there from a host on which nothing has happened yet |
| `Coordinator.ResourceCoordinator.CombinedSnapshot` | spark_broker/resources.py:1305-1325 | A sample is accepted exactly if the probe answers and its generation is not behind any accepted before |
| `Coordinator.ResourceCoordinator.Issue` | spark_broker/resources.py:760-769 | A command is answered exactly if it is delivered, completed and its answer gets back |
| `Coordinator.ResourceCoordinator.Observe` | spark_broker/resources.py:770-788 | An answered command is observed exactly if the next snapshot is accepted, strictly newer than the floor, and shows the controller |
| `Coordinator.ResourceCoordinator.Mutate` | spark_broker/resources.py:760-788 | A command succeeds exactly if it reaches its controller, is completed there, the answer gets back, and the next snapshot is accepted, strictly newer than the floor, and shows the controller: that snapshot then carries exactly its mutation, lease, fence, epoch, generation, mode and checkpoint. A takeover that is taken up, completed or not, wedges its lease |
| `Coordinator.ResourceCoordinator.EnforceTrainingQuanta` | spark_broker/resources.py:922-943 | No deferral exactly if every listed training controller has had its minimum time, read off the recorded starts or recorded as now where there is none; then each has had it since it was really last restored |
| `Outcomes.PastQuantaWhen` | spark_broker/resources.py:922-943 | Recorded time that is enough stays enough, however much passes while it is read |
| `Coordinator.ResourceCoordinator.MarkRestoredQuanta` | spark_broker/resources.py:945-949 | Exactly the training controllers with a restored profile have their restoration recorded |
| `Coordinator.ResourceCoordinator.Journal` | spark_broker/resources.py:742-759 | The displacement is journaled, unacknowledged, before anything is sent; if nothing has reached the controller, a crash here leaves the lease wedged |
| `Coordinator.ResourceCoordinator.DisplaceOne` | spark_broker/resources.py:742-791 | One turn of the admission loop journals before it commands, and succeeds exactly if the command does; the controller is then held under the lease |
| `Coordinator.ResourceCoordinator.Displace` | spark_broker/resources.py:742-791 | It succeeds exactly if each chosen controller's command does in turn, each on a snapshot newer than the one before; then all are held under the lease, in order, at generations 1, 2, ... |
| `Coordinator.ResourceCoordinator.Restore` | spark_broker/resources.py:951-1045 | The journal is undone backwards, under the lease's own fence or a recovery fence, and succeeds exactly if each command does in turn, on a snapshot newer than the one before; with a recovery fence it succeeds only if no journaled controller refused when it began and the evidence of each that rested was on disk since |
| `Coordinator.ResourceCoordinator.VerifyRestored` | spark_broker/resources.py:815-827 | Accepted exactly if the snapshot demanded after the restorations shows every restored profile active and healthy and, where asked for, the leased one absent; the quanta are then recorded |
| `Coordinator.ResourceCoordinator.RestoreAndVerify` | spark_broker/resources.py:815-827 | It succeeds exactly if all restorations do and the snapshot after them verifies them; every journaled controller is then restored and its quantum recorded |
| `Coordinator.ResourceCoordinator.Undo` | spark_broker/resources.py:804-827 | No controller is commanded back before a healthy snapshot without unknown consumers shows the leased profile absent, every restoration is newer than that snapshot, and the whole succeeds exactly if that snapshot comes and restoration and verification succeed |
| `Coordinator.ResourceCoordinator.Confirm` | spark_broker/resources.py:790-800 | The lease becomes active exactly if the snapshot taken once all are held is accepted, not behind the last observation, and admissible; it is never behind, so it is not refused for that |
| `Coordinator.ResourceCoordinator.Admit` | spark_broker/resources.py:741-800 | The lease becomes active exactly if every displacement succeeds and the snapshot after them is admissible |
| `Coordinator.ResourceCoordinator.RollBack` | spark_broker/resources.py:801-843 | A failed admission ends denied with everything undone, exactly if undoing succeeds, or unknown with the coordinator quarantined |
| `Coordinator.ResourceCoordinator.Preflight` | spark_broker/resources.py:729-732 | It passes exactly if the snapshot is admissible but for capacity and every training controller is past its quantum; every chosen controller is then idle |
| `Coordinator.ResourceCoordinator.Acquire` | spark_broker/resources.py:713-843 | A plan that needs a lease is admitted exactly if it is not cancelled, nothing is quarantined or open, and preflight, each displacement and confirmation succeed, one after the other; then every chosen controller is held under a fresh lease. Otherwise nothing has changed, or all is undone, or the lease is unknown and the coordinator quarantined. No controller beyond the first had a record of this epoch; `resource_snapshot_stale` is never the answer; and every lease opened that displaces anyone was wedged in some state of the call |
| `Coordinator.ResourceCoordinator.Release` | spark_broker/resources.py:845-888 | The lease ends released exactly if absence is shown first, where asked for, each journaled controller's restoration succeeds in turn, and a snapshot not behind the last shows them active and healthy; otherwise it is unknown and the coordinator quarantined; if the runtime had stopped or held a GPU consumer when the call began, nothing is restored over it |
| `Coordinator.ResourceCoordinator.VerifyActivation` | spark_broker/resources.py:890-900 | The refusal is that of a snapshot of this moment |
| `Coordinator.ResourceCoordinator.AdvanceHostEpoch` | spark_broker/resources.py:615-668 | The new epoch is the least above both the store's and the epoch file's, and above that of every command still in flight |
| `Coordinator.ResourceCoordinator.Recover` | spark_broker/resources.py:574-613 | Recovery of a stale lease succeeds exactly if absence is shown, each takeover succeeds in turn and the snapshot after them verifies them; so only if it was not wedged and the evidence its controllers rested on has been on their disks during the call |
| `Coordinator.ResourceCoordinator.ReconcileLease` | spark_broker/resources.py:574-613 | A stale lease ends released, with every journaled controller restored in the new epoch, exactly if its recovery succeeds, or stays unknown with the coordinator quarantined; wedged leases stay wedged in every state of the call, waiting ones wait until their evidence is shown, and this one is wedged if it stays unknown once any takeover has been taken up, completed or not |
| `Coordinator.ResourceCoordinator.Start` | spark_broker/resources.py:541-613 | From any state a crash can leave: a higher epoch, closed leases untouched, an open one released with all its controllers restored exactly if its recovery succeeds, and otherwise unknown with this process quarantined; a new process is quarantined exactly if one stays open; a wedged one ends unknown, quarantined and wedged, and one that waits for evidence goes on waiting unless that was shown |
| `CoordinatorProofs.OnlyFirstWasUsed` | spark_broker/training_controller.py:452-457 | An admission succeeds only if no controller but its first has a record of the current epoch |
| `Smooth.SmoothIsAdmitted` | spark_broker/resources.py:713-843 | An admission succeeds if each chosen controller completes its displacement, answers and is shown, each generation is one above the last, the first and the last snapshot are admissible, and recorded quanta are over |
| `Smooth.SmoothEnds` | spark_broker/resources.py:741-800 | It ends with the lease active, its journal full, and each chosen controller where its own displacement takes it |
| `Smooth.SmoothIsUndone` | spark_broker/resources.py:845-888 | A release succeeds if the probe shows the profile gone, each controller completes its restoration, answers and is shown, and the last snapshot shows them back |
| `Smooth.SmoothIsRecovered` | spark_broker/resources.py:574-613 | So does a restart's recovery by takeovers |
| `Rounds.AdmitAll` | spark_broker/resources.py:713-843 | On any host with no lease open whose probe answers admissibly, `Acquire` admits any plan whose chosen controllers, however many, run under no record or a normal one of an earlier epoch and publish as they stop |
| `Rounds.ReleaseAll` | spark_broker/resources.py:845-888 | `Release` then brings all of them back and closes the lease, if the probe shows the profile gone and then the controllers back |
| `Rounds.RecoverAll` | spark_broker/resources.py:541-613 | If the process crashes before the release, the next `Start` takes all of them over, closes the lease and is not quarantined |
| `Rounds.FirstRound` | spark_broker/resources.py:541-888 | Either way it goes through on every host that nobody has commanded yet, for any plan that displaces no training controller |
| `Runs.InvIsSafe` | spark_broker/resources.py:713-843 | The invariant gives exclusion, write-ahead journaling, restoration on record only, and the training quantum |
| `Runs.Run` | spark_broker/resources.py:541-900 | Over any run of admissions, activations, deactivations that may fail, releases and broker crashes at any durable step, against any host: in every state, an active lease, and a started runtime nothing was restored over, has all its chosen controllers stopped under exactly its epoch and fence; a displaced controller is in the journal of an open lease; every displacement respects the quantum; and nothing is restored over a started runtime unless it was, in that or an earlier state and after its lease ceased to be active, without a GPU consumer |
| `Runs.AtMostOnce` | spark_broker/resources.py:742-769 | One broker process, doing anything in any order: of any two leases it has admitted, the later displaces no controller beyond its first that the earlier one displaced, so a plan that displaces two controllers or more is admitted at most once |
| `Runs.RestartForever` | spark_broker/resources.py:541-613 | Over any number of crashes at any durable step, restarts and requests in between, a wedged lease is unknown and wedged in the end, was wedged in every state, and the process then running is quarantined |
| `Runs.RestartWaits` | spark_broker/resources.py:541-613 | Over the same runs a lease one of whose controllers rests on its evidence, or refuses, is unknown and the process quarantined, unless that evidence was on the controller's disk in some state since |
| `Runs.CrashWedged` | spark_broker/resources.py:541-613 | The same after a crash in any state in which the lease is wedged; by the row on `Acquire` every admission that displaces anyone has one |
| `Runs.FirstAdmissionWedges` | spark_broker/resources.py:734-759 | It is within reach of the first admission on any host: the lease is opened, the first displacement journaled, the broker restarted |
| `Scripts.MovedOnIsWedged` | spark_broker/resources.py:574-613 | So is a lease that was not wedged: its controller is brought back, the trainer publishes its next checkpoint, the broker crashes before the lease is closed, and the restart's takeover is accepted and then refused for its evidence; the lease ends unknown and wedged, every later process quarantined |
| `Conflicts.AdmittedOnlyFirst` | spark_broker/training_controller.py:443-459 | A controller that is not displaced takes a new lease's displacement exactly as the first of an admission, or if it has no record or one of an earlier epoch |
| `Conflicts.LaterIsRefused` | spark_broker/training_controller.py:647-680 | Otherwise it refuses both the displacement and the rollback's restoration and keeps its recorded command, whatever was pending |
| `Conflicts.NoFenceRefuses` | spark_broker/resources.py:742-769 | An admission over closed leases meets no refusing fence exactly if no chosen controller beyond the first has a record of this epoch |
| `Conflicts.TakeoverNeedsTheRecord` | spark_broker/training_controller.py:680-699 | A restart's takeover is taken up exactly if what is pending, if anything, is completed first and the recorded command names the lease, its own fence and an earlier epoch |
| `Conflicts.InterruptedTakeoverConflicts` | spark_broker/training_controller.py:680-699 | An interrupted takeover that recovery completes, under its own recovery fence, makes the next restart's takeover conflict |
| `Conflicts.ReleaseSticks` | spark_broker/training_controller.py:476-487 | A release leaves its controller stuck exactly if the unit is down afterwards and the checkpoint then on disk has not moved past the baseline |
| `Conflicts.FirstReleaseSticks` | spark_broker/training_controller.py:476-487 | So the first release a controller gets sticks if its trainer publishes nothing new while it is stopped: nothing changes over any later run, and every request is refused |
| `Conflicts.RestoringSticks` | spark_broker/training_controller.py:488-498 | Restoring a controller, whatever record it has, completes exactly if that record's evidence is on disk (or there is none and a fresh start is allowed) and the unit starts; without the evidence it hangs; and it sticks exactly if the evidence is then missing for good |
| `Conflicts.RestoringTheUntouchedSticks` | spark_broker/training_controller.py:488-498 | One that was never commanded sticks exactly if it may not start afresh |
| `Conflicts.StuckIsWedged` | spark_broker/resources.py:1008-1023 | An open lease that journals a stuck controller is wedged |
| `Epochs.EpochHost.AdvanceHostEpoch` | spark_broker/resources.py:615-668 | The committed epoch is the least above the store's own and the file's; it is returned once the file holds it |
| `Epochs.EpochHost.Run` | spark_broker/resources.py:615-668 | Over any number of stores sharing one file, with crashes between commit and file replacement, the epochs returned strictly increase |
| `Epochs.CommittedEpochsCanCoincide` | spark_broker/resources.py:651-658 | Committed epochs may coincide between stores; only returned ones are strict |
| `Jobs.Store.SubmitJob` | spark_broker/store.py:298-333 | The job with the same origin and key, if it asks for the same; a conflict if it asks for anything else; a refusal if as many jobs as the limit have not ended; otherwise one new queued job at the end, and its event |
| `Jobs.Store.ClaimNext` | spark_broker/store.py:343-370 | Of the queued jobs of a supported capability, not cancelled and not deferred beyond now, one of the highest priority and none older among its equals, now loading with one more attempt; or none exactly if there is none |
| `Jobs.Store.Defer` | spark_broker/store.py:395-407 | Back to the queue exactly if loading or running and not cancelled, not to be claimed before the delay, held between a tenth of a second and five minutes, has passed; otherwise nothing |
| `Jobs.Store.Transition` | spark_broker/store.py:409-420 | The row and its event, whatever the row's status was |
| `Jobs.Store.Finish` | spark_broker/store.py:422-447 | Completion exactly if active and not cancelled; a cancellation that came first wins |
| `Jobs.Store.Fail` | spark_broker/store.py:449-459 | The row and its event, whatever the row's status was |
| `Jobs.Store.CancelJob` | spark_broker/store.py:461-474 | A queued job ends cancelled, an active one is flagged, an ended one is left alone |
| `Jobs.Store.InterruptUncertainJobs` | spark_broker/store.py:171-192 | Every active job is interrupted in one transaction, and no other is touched |
| `Jobs.RecordKeeps` | spark_broker/store.py:409-459 | The condition under which the unguarded writes keep the ledger well formed and take nothing back |
| `Jobs.NothingIsTakenBack` | spark_broker/store.py:343-474 | Between any two moments of a run: a terminal row never changes, a job whose cancellation was accepted before it ended neither completes nor is queued again, its workload is entered at most once, and the journal's last status is the row's |
| `Jobs.DeferringAfterEntryReplays` | spark_broker/scheduler.py:219-238 | If a workload raises the admission error its job becomes claimable again exactly if it was not cancelled: at-most-once execution needs executors not to raise it |
| `Scheduling.AuditOrders` | spark_broker/scheduler.py:181-254 | In an audited trace every activation followed by a release has a deactivation call in between |
| `Scheduling.Scheduler.Attempt` | spark_broker/scheduler.py:173-218 | The `try` part, with clients between any two of its steps: its exception is the first one the script raises, or a cancellation, which is noticed only after a shutdown or an accepted one and always if that came before; what has been acquired, activated and released follows from the script; a workload that was performed has all its stages reported in order; a deferral before the workload leaves it unentered |
| `Scheduling.Scheduler.Handle` | spark_broker/scheduler.py:219-247 | Each exception's effect on the job, for any interleaving with clients; a deferred job is queued and not claimable at any time before the delay the exception carries has passed |
| `Scheduling.Scheduler.Execute` | spark_broker/scheduler.py:154-269 | A lease is acquired exactly if checks, plan and acquisition succeed and one was due, and is then released exactly once, after a deactivation call for any activation attempted; the job carries the planned profile and ends terminal, queued with its workload never entered and not claimable before the exception's delay has passed, or loading with a cancellation that came before the deferral; an exception escapes, with no release, exactly if the final deactivation raises what is not caught there |
| `Scheduling.Run` | spark_broker/scheduler.py:92-105 | Over any run with clients, crashes and restarts: every ledger is well formed and no later one takes anything back |
| `Scheduling.ChainTakesNothingBack` | spark_broker/scheduler.py:92-269 | The same, read off any two moments of a run |
| `Preemption.ControlScan` | spark_broker/scheduler.py:107-152 | Whatever changes between two pages, the scan finds a job that was queued and worth yielding to when its page was read, first in queue order among all that stay queued while nothing ahead of them leaves, and misses none of these |
| `Preemption.LeavingSkips` | spark_broker/scheduler.py:122-147 | Once a job the scan has passed leaves the queue, the job at its offset is in no page it still reads: the condition of the row above is needed |
| `Preemption.QueueIsOrdered` | spark_broker/store.py:376-393 | The queue is every claimable job, by priority and then age |
| `Preemption.HeadComesFirst` | spark_broker/store.py:343-393 | The head of the queue is a job that can be claimed, and none that can be claimed comes before it: scan and claim agree on the order |
| `Artifacts.ArtifactRegistry.ImportStream` | spark_broker/artifacts.py:40-76 | Accepted exactly if size, stream, hash, quota and registry allow; then one new object with exactly the bytes sent; otherwise nothing is left behind, and every state a crash can leave is consistent |
| `Artifacts.ArtifactRegistry.Commit` | spark_broker/artifacts.py:146-185 | Quota, move and row, so that at every crash point each row has its whole object and the total is within the limit |
| `Artifacts.ArtifactRegistry.CleanStaging` | spark_broker/artifacts.py:199-207 | Afterwards the objects are exactly the registered ones and staging is empty; every other file is in `.orphaned`, byte for byte, none overwritten |
| `Artifacts.ArtifactRegistry.Quarantine` | spark_broker/artifacts.py:253-263 | A stray file is moved to a place where there is none |
| `Artifacts.MovePreserves` | spark_broker/artifacts.py:253-263 | One move loses, overwrites and invents no file |
| `Artifacts.ArtifactRegistry.Verify` | spark_broker/artifacts.py:216-251 | Verification through the cache answers what hashing the object would; a hit reads nothing; a success is cached; a write landing meanwhile is noticed |
| `Artifacts.Run` | spark_broker/artifacts.py:40-263 | From whatever a crash left, over any imports and verifications with crashes at any durable step, of the tidying up as well, and restarts: every file that was on disk is still there, in place or in `.orphaned`, byte for byte, and every object ever registered is still registered and whole |
| `Probe.GpuProcesses` | spark_broker/resource_probe.py:684-725 | The union of both inventories, each process once, with the compute query's figure or else the monitor's first known one; refused exactly if either cannot be read or has a bad line |
| `Probe.OwnerIsBound` | spark_broker/resource_probe.py:546-569 | A consumer is attributed to a runtime exactly if that runtime alone matches, is identity-verified and, for a unit, the process runs the expected executable |
| `Inventory.BytesAreConserved` | spark_broker/resource_probe.py:570-587 | Bytes per profile plus bytes of unbound consumers are the total, whenever all figures are known |
| `Inventory.SumOfParts` | spark_broker/resource_probe.py:727-746 | The reported bytes are a sum: of parts, however they are split |
| `Inventory.ResourceInventory.Attribute` | spark_broker/resource_probe.py:543-580 | The attribution loop: one entry per profile with a bound consumer, its running total, and the unbound processes |
| `Inventory.ResourceInventory.Snapshot` | spark_broker/resource_probe.py:486-618 | The consumers are one for each process either inventory lists, in order, with its figure; the report is healthy exactly if everything can be observed, every runtime is the image or executable its profile expects and runs, every process is in exactly one of them, and reported and attributed bytes agree within 64 MiB; then no consumer is unknown; and the published figures add up |
| `Inventory.HealthyExactly` | spark_broker/resource_probe.py:486-618 | That condition, over the findings and the policy alone, is the one the code checks over its runtimes, bindings and error list |
| `Inventory.MatchIsInside` | spark_broker/resource_probe.py:748-768 | A runtime matches a process exactly if the process's cgroup file names the container by its full id or its first twelve characters, or a path at or below the unit's, trailing slashes aside |
| `Inventory.ImpostorsAreShown` | spark_broker/resource_probe.py:543-580 | A runtime that is not what its profile expects makes the report degraded, and every listed process inside it counts as unknown |
| `Inventory.IdentityTells` | spark_broker/resource_probe.py:620-683 | Two runtimes that publish the same identity are the same image in the same container, or the same executable in the same unit |
| `Inventory.IsAcceptable` | spark_broker/resources.py:1125-1313 | No report the probe can build is refused by the coordinator's validation but for a generation behind the last one accepted |
| `Inventory.GenerationStore.Run` | spark_broker/resource_probe.py:352-365 | Published generations strictly increase, crashes included |
| `Routing.CompileRoutingConfig` | spark_broker/routing.py:208-278 | The loop computes the canonical configuration the next rows speak about |
| `Routing.CompileExactly` | spark_broker/routing.py:134-278 | A document compiles exactly if it lists between 1 and 32 routes, each within its limits, no two with the same id or profile; the configuration then holds what each stands for, defaults included, in the order of the ids, and its fingerprint covers all of that |
| `Routing.ClassOrderIsIrrelevant` | spark_broker/routing.py:148-171 | The order of a route's service classes does not matter |
| `Routing.PermutationsAreSame` | spark_broker/routing.py:236-271 | A permutation of the routes describes the same routes |
| `Routing.CompileIsCanonical` | spark_broker/routing.py:174-182 | Documents that describe the same routes are accepted alike and compile to the same configuration and fingerprint |
| `Ordering.StringLessIsLexicographic` | spark_broker/routing.py:174-182 | Identifiers are ordered by the first character in which they differ, a prefix first |
| `Routing.CompilersAgree` | spark_broker/routing.py:281-306 | The runtime compiler accepts the same routes, selects the same ones, and accepts a declared fingerprint exactly if it is that of the canonical policies |
| `Snapshots.NormalizeRoutingSnapshot` | spark_broker/routing.py:318-370 | The loop computes the normalization the next rows speak about, first error included |
| `Snapshots.NormalizeExactly` | spark_broker/routing.py:309-370 | A snapshot is accepted exactly if everything it says is of the right shape; the strict parser asks, besides, that it say nothing else |
| `Snapshots.NormalizeIsIdempotent` | spark_broker/routing.py:318-370 | Normalizing a normalized snapshot changes nothing, by either parser |
| `Snapshots.StrictIsLenient` | spark_broker/routing.py:318-370 | What the strict parser accepts the lenient one accepts alike |
| `Ranking.PrefersIsLinear` | spark_broker/routing.py:412-432 | Each preference is a strict total order on routes |
| `Ranking.RankingIsTheOrder` | spark_broker/routing.py:397-442 | The ranking is exactly the eligible routes in strictly increasing key order, its head preferred to all others |
| `Ranking.RankingIgnoresOrder` | spark_broker/routing.py:397-442 | The order in which routes are configured does not matter |
| `Ranking.DroppingKeepsOrder` | spark_broker/routing.py:397-442 | Dropping a route leaves the others in their order; dropping one that lost leaves the choice |
| `Ranking.DecisionIsCanonical` | spark_broker/routing.py:377-442 | The same routes, however listed, decide every request alike |
| `Ranking.DecisionIsBest` | spark_broker/routing.py:377-442 | On a compiled configuration a valid request gets the eligible route preferred to every other eligible one, and is refused exactly if none is eligible |
| `Ranking.MetricsAreItsOwn` | spark_broker/routing.py:397-432 | The metrics used for a profile are those of the snapshot's entry with its id, and absent exactly if there is none |
| `Ranking.PrefersIsRaw` | spark_broker/routing.py:412-432 | Each preference compares what the snapshot says about the two routes' own profiles, and their own policies |
| `Ranking.DecisionIsBestOfRaw` | spark_broker/routing.py:377-442 | There is a decision exactly if the request is proper, the snapshot is accepted and some route serves the request whose own profile the snapshot does not call unhealthy; exactly those routes are ranked, strictly, by what the snapshot says about their own profiles, and the first is chosen |
| `Ranking.SimulateScenarios` | spark_broker/routing.py:445-494 | Every case is simulated as specified, in order, or the scenario is refused, exactly for its configuration, size or a repeated case id |
| `Ranking.SimulationIsDecision` | spark_broker/routing.py:482-489 | On a snapshot the strict parser accepts, simulation is the direct decision |

## Left out

- HTTP servers and clients, the command line, MCP, bearer authentication, redirects, and URL and path checks: transport only.
- Request and configuration parsing beyond what the rows state: identifier patterns, URLs and paths are taken as validated.
- Docker, subprocess and model-server code of the executors: each step of an execution has an arbitrary outcome.
- Parsing of `/proc`, `nvidia-smi`, `systemctl` and CUDA output: the model starts from parsed rows.
- File modes, ownership, symbolic links and fsync.
- Non-shipped controllers: every controller behind the broker is the training controller of this repository, which also stands in for inference controllers.
- Shared certifications, which are always empty in this release, and the `no probe configured` mode, in which every GPU admission is refused.
- One run of coordinator and job ledger together: they meet in the contract of `Scheduling.Scheduler.Execute`, whose lease is one entry of a trace, and in that of `Coordinator.ResourceCoordinator.Release`, which asks for an active lease.
- Several broker stores on one host beyond their epochs: `Runs` is about one store.
- `import_file`, which differs from `import_stream` in comparing file metadata before and after the copy.
- Timestamps of jobs, leases and artifacts other than those the rows name, and the display fields of leases and jobs.
- The inference window and cooperative yield protocol of `ExecutionControl`: a yielded execution is one outcome of a script.
- Store errors other than a crash: a transaction of the job or lease tables either commits or the process ends there.
- Artifacts.ArtifactRegistry.Verify: does not model a write that restores every field of the file's metadata; equal metadata is taken to mean equal bytes.
- Coordinator.ResourceCoordinator.Mutate: a controller call is one delivery with any prefix of its steps; the HTTP exchange itself is not modelled.
- Runs.AtMostOnce: speaks of leases that are active or released; one that ends unknown stays open, and its process admits nothing after it.
- Snapshots.NormalizeRoutingSnapshot: numbers are integers, reals or non-finite; rounding of large integers to floating point is not modelled.
- Ranking.RankingIsTheOrder: latencies are compared as reals.

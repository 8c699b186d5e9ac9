# Ayyo: verified models of the decision, sensing and evaluation core

Ayyo decides what a robot may do by building immutable, fingerprinted records and by refusing
whatever it cannot check.  This project models the parts of it that carry the hardest promises and
proves those promises for all inputs, all runs and all reachable states.

`dafny verify dfyconfig.toml` checks the whole project.  Inductions are written out: where Dafny would
try one of its own, it is switched off.

## What is modelled

**The JSON engine** (`Basics`, `Ordering`, `JsonTree`, `JsonText`, `JsonGraph`, `JsonGraphProofs`,
`JsonEngine`, `JsonCopy`).  Python values are a heap of list and dict objects that may be shared or
cyclic.  The bounded validator, the canonical printer and the deep copier are loops over explicit
stacks, as in the source.  The validator and the printer are proved against short recursive
definitions, and the copier against the tree a value stands for.  The canonical text is in the grammar
of sections 2 to 7 of RFC 8259 and has a decoder; text is a sequence of code points, so lone surrogates
are values too.

**Executive planning** (`Dependencies`, `Merging`, `Executive`, `Plans`, `Requests`, `References`,
`Planner`, `Decisions`, `Evaluation`, `Service`, `Documents`, `Oversize`, `Revalidation`).  Kahn's algorithm with
a sorted ready list, the keyed merges, the constructors of requests, plans and decisions, the service
that evaluates a request, the independent re-check by the constructor of the decision, and
revalidation by fingerprints.

**The depth camera adapter** (`Depth`, `DepthInvariants`, `DepthTheorems`, `DepthPairing`,
`DepthAdapter`, `DepthSummary`).  A state machine of lifecycle calls and submissions, with two bounded
pending maps, eviction, exact-time pairing, session epochs and saturating counters; a class whose
methods refine its steps; and the strided summary of a depth image.  A ghost ledger counts what was
stored, paired, evicted and cleared without saturation.

**Manipulation geometry over the reals** (`Quaternions`, `Poses`, `GraspChain`, `Interpolation`).
Quaternion algebra, relative poses, the grasp evidence chain, and bounded joint interpolation with the
plan evidence built on it.

**Offline evaluation** (`Trials`, `Aggregation`, `OfflineEvaluation`, `Reports`).  Trial results and
corpora that rebuild themselves, the checks on a set of trials, the metric dictionary, the report and
its self-verification.

## What the proofs found

- A failed `configure` leaves the new source with the previous calibration, because the source is
  assigned before the calibration is checked.  Such a pair is first counted as accepted and only then
  turned down by the admission (`DepthPairing.FailedConfigureRefuses` has the calls).  Calibration and
  source fit exactly if the last call that placed or removed a source left them so: the calibration given
  with the source fits it, or is absent, or the one still in place fits (`DepthTheorems.FittingExactly`,
  `DepthTheorems.FitsExactly`).  A pair is turned down exactly when they differ in identity
  (`DepthTheorems.RefusedExactly`).  Admissions are sound on every run.
- The grasp chain orders times inside its two segments but not across them: moving everything up to
  the established grasp in time keeps a release valid exactly as long as the times remain timestamps
  (`GraspChain.SegmentsUnordered`), and there is a valid release whose grasp is established after the
  motion, after the hold and after the release itself (`GraspChain.GraspAfterRelease`).
- Negating a parent quaternion, which is the same rotation, keeps the relative position always, and the
  canonical relative orientation exactly if its real part is not zero (`Poses.ParentSign`); at a half turn
  it does not (`Poses.ParentSignMatters`).  Measured angles never depend on the sign
  (`GraspChain.DistanceUnsigned`).
- The second waypoint cap of the interpolation, the joint check of every waypoint, and the bound on the
  number of trials once their episodes are distinct and held out, are implied by what was checked before
  (`Interpolation.SecondCapImplied`, `Interpolation.PathAccepted`, `Reports.CountImplied`).
- What `evaluate` assembles is refused by the decision exactly for size: more than 128 references, or a
  document beyond the JSON bounds (`Service.AssembledAccepted`, `Documents.RefusedOnlyForSize`).  This
  happens: the context of a contract and the optional context of a request have separate limits
  (`Oversize.TooManyReferencesOccurs`).

## Model

| member | source | states |
|---|---|---|
| Ordering.PairKeyOrder | executive/src/ayyo_executive/models.py:122-123 | comparing encoded pairs is comparing pairs of strings, first parts first |
| JsonTree.NormalIffSame | executive/src/ayyo_executive/json_value.py:116-164 | sorting all members gives the same value exactly for values equal up to member order |
| JsonText.RoundTrip | executive/src/ayyo_executive/json_value.py:116-164 | a parser recovers from the canonical text, followed by any delimited text, the value and the rest |
| JsonText.PrintIffSame | executive/src/ayyo_executive/json_value.py:116-164 | two values print alike if and only if they are the same JSON up to object insertion order |
| JsonText.PrintPrefixFree | executive/src/ayyo_executive/json_value.py:116-164 | canonical texts are uniquely decodable when concatenated with delimited text |
| JsonGraphProofs.VisitIffBounded | executive/src/ayyo_executive/json_value.py:28-113 | on any heap graph the check accepts exactly the values that unfold to a finite tree within all bounds |
| JsonGraphProofs.VisitTally | executive/src/ayyo_executive/json_value.py:28-113 | an accepting check has counted exactly the nodes and characters of the tree |
| JsonGraphProofs.UnfoldableIffAcyclic | executive/src/ayyo_executive/json_value.py:72-112 | a container stands for a finite tree if and only if nothing reachable from it lies on a cycle and everything reachable is expressible |
| JsonEngine.CheckHeader | executive/src/ayyo_executive/json_value.py:72-112 | an entered container was not active, and the early length checks give the recursive verdict |
| JsonEngine.Validate | executive/src/ayyo_executive/json_value.py:28-113 | the stack loop terminates on cyclic graphs and gives exactly the recursive verdict, fault included |
| JsonEngine.Canonicalize | executive/src/ayyo_executive/json_value.py:116-164 | the token loop emits the text of the recursive sorted-key printer, or the validator's fault |
| JsonCopy.Copy | executive/src/ayyo_executive/json_value.py:167-209 | the copy has the same tree in the same order, in fresh containers that share nothing; the source is unchanged |
| JsonCopy.PathsDistinct | executive/src/ayyo_executive/json_value.py:167-209 | sharing nothing means that different paths lead to different containers |
| Dependencies.CheckReferences | executive/src/ayyo_executive/models.py:337-351 | passes exactly when every dependency names another step; otherwise names all that are missing |
| Dependencies.ValidateDependencyGraph | executive/src/ayyo_executive/models.py:337-372 | succeeds if and only if all dependencies are known and the relation is acyclic; returns the least topological order, or leaves a cycle among the unemitted steps |
| Dependencies.GreedyLeast | executive/src/ayyo_executive/models.py:352-372 | always emitting the least ready step gives the lexicographically least topological order |
| Dependencies.LeastOrderUnique | executive/src/ayyo_executive/models.py:352-372 | there is at most one such order |
| Dependencies.StuckMeansCycle | executive/src/ayyo_executive/models.py:367-372 | when steps remain and none is ready, an explicit cycle exists among them |
| Dependencies.TopologicalIsAcyclic | executive/src/ayyo_executive/models.py:337-372 | an order that respects all dependencies excludes every cycle |
| Merging.MergeAll | executive/src/ayyo_executive/planner.py:26-46 | fails exactly when two different items share a key; otherwise lists every item once, sorted, within the limit |
| Merging.MergeUnique | executive/src/ayyo_executive/planner.py:26-46 | the merge depends only on which items are merged |
| Merging.MergeMonotonic | executive/src/ayyo_executive/planner.py:26-46 | merging fewer items never gives more |
| Executive.RequestDocumentInjective | executive/src/ayyo_executive/models.py:517-545 | requests with the same fingerprint document are the same request |
| Executive.DefinitionDocumentInjective | executive/src/ayyo_executive/capabilities.py:208-243 | capability contracts with the same document are the same contract |
| Executive.RequestDocumentWellFormed | executive/src/ayyo_executive/models.py:517-545 | the fingerprint document of every stored request is a JSON value, no key twice |
| Requests.MakeRequest | executive/src/ayyo_executive/models.py:417-561 | a request is built exactly from acceptable arguments, and its tuples are stored in canonical order |
| Requests.RequestOrderIrrelevant | executive/src/ayyo_executive/models.py:417-607 | the order in which the parts are given does not matter |
| Requests.RequestIdempotent | executive/src/ayyo_executive/models.py:417-607 | rebuilding a request from its own parts changes nothing |
| Requests.NormalizedOk | executive/src/ayyo_executive/models.py:417-607 | every constructed request has sorted, unique, bounded parts |
| Plans.MakePlan | executive/src/ayyo_executive/models.py:744-764 | a plan is built exactly from distinct, known, acyclic steps, and is their least order |
| Plans.PlanOrderIrrelevant | executive/src/ayyo_executive/models.py:744-764 | permuting the steps gives the same plan |
| Plans.PlannablePermuted | executive/src/ayyo_executive/models.py:744-764 | permuting the steps does not change whether they can be planned |
| Plans.PlanIdempotent | executive/src/ayyo_executive/models.py:744-764 | planning a plan gives the plan |
| References.ReferencesInOrder | executive/src/ayyo_executive/service.py:94-120 | references answer the required requirements first and then the optional ones, already in canonical order |
| References.RequirementsDistinct | executive/src/ayyo_executive/service.py:94-120 | no requirement is referenced twice, even if it is required and optional |
| References.RelevantDocumentInjective | executive/src/ayyo_executive/models.py:848-863 | the fingerprinted document determines the required references |
| Planner.BuildPlan | executive/src/ayyo_executive/planner.py:54-108 | once the merges over all contracts succeeded, planning cannot fail and gives one step per invocation in least order |
| Planner.PlanFromUnique | executive/src/ayyo_executive/planner.py:54-108 | request and registry determine the plan |
| Planner.PartMerges | executive/src/ayyo_executive/planner.py:74-93 | a merge with one contract never conflicts if the merge with all did not |
| Decisions.DecisionDocumentWellFormed | executive/src/ayyo_executive/models.py:1075-1139 | the document of a decision is a JSON value for all stored arguments |
| Evaluation.RegistryDocumentInjective | executive/src/ayyo_executive/capabilities.py:361-392 | the fingerprinted document determines which capabilities are known and all their contracts |
| Evaluation.LookUp | executive/src/ayyo_executive/service.py:160-170 | the lookup loop finds the contracts and whether some are unknown or unavailable |
| Evaluation.CalledForUnique | executive/src/ayyo_executive/service.py:206-270 | a situation determines kind and reasons of the decision |
| Evaluation.ChoiceShape | executive/src/ayyo_executive/models.py:1165-1253 | every choice the service can make satisfies the shape check of the constructor |
| Service.Collect | executive/src/ayyo_executive/service.py:183-204 | the merges and references are collected exactly when some exist that fit, and are those |
| Service.Decide | executive/src/ayyo_executive/service.py:206-270 | a choice is always made, it is the one called for, and a plan is the plan of the request |
| Service.AssembledAccepted | executive/src/ayyo_executive/models.py:913-1139 | the service and the constructor agree: assembled arguments pass every check but the sizes |
| Service.Evaluate | executive/src/ayyo_executive/service.py:149-287 | planning never fails, refusals are only for size, and a decision is returned exactly when owner, parameters and sizes allow one |
| Service.DecisionUnique | executive/src/ayyo_executive/service.py:149-287 | the inputs determine the decision |
| Service.DecisionReasons | executive/src/ayyo_executive/service.py:206-270 | each reason is given exactly if its condition holds of the inputs |
| Service.DecisionPlan | executive/src/ayyo_executive/models.py:1037-1073 | a plan is present exactly for propose and request-approval, and covers capabilities, context and approvals |
| Documents.FingerprintDetermines | executive/src/ayyo_executive/models.py:153-156 | with an injective digest, equal fingerprints mean equal documents |
| Documents.RefusedOnlyForSize | executive/src/ayyo_executive/models.py:913-1139 | with the canonical engine, the constructor refuses the assembled decision exactly if it has more than 128 references or one of its two fingerprinted documents is beyond the bounds |
| Documents.ReferenceCount | executive/src/ayyo_executive/service.py:94-120 | the references number the merged context plus the optional context that is not required anyway |
| Oversize.TooManyReferencesOccurs | executive/src/ayyo_executive/models.py:979-982 | inputs of the service for which it gathers and chooses, and the constructor refuses for more than 128 references |
| Revalidation.Compare | executive/src/ayyo_executive/service.py:325-336 | the reasons collected are exactly those of the fields that differ |
| Revalidation.MakeReport | executive/src/ayyo_executive/models.py:1325-1340 | the result's own consistency check never fails on what revalidation computes |
| Revalidation.Revalidate | executive/src/ayyo_executive/service.py:289-358 | a report compares the recorded basis with the present one, and is given exactly when the present one can be observed |
| Revalidation.StaleExactly | executive/src/ayyo_executive/service.py:289-358 | stale exactly when request, owner, a contract or a required reference changed; never for optional context or snapshot version |
| Revalidation.UnchangedObserved | executive/src/ayyo_executive/service.py:289-358 | unchanged inputs are observed with the recorded fingerprints, for any digest |
| Revalidation.RevalidateUnchanged | executive/src/ayyo_executive/service.py:289-358 | revalidating with the same request, registry and snapshot succeeds and is current |
| Depth.RunOf | depth_camera/src/ayyo_depth_camera/adapter.py:217-494 | every sequence of calls has a run |
| DepthInvariants.Reachable | depth_camera/src/ayyo_depth_camera/adapter.py:217-545 | in every reachable state: at most eight items of each kind, under their own times, of the current session, never both kinds at one time; active implies configured; stored = pending + paired + evicted + cleared; counters are the saturated counts |
| DepthInvariants.TrimSmall | depth_camera/src/ayyo_depth_camera/adapter.py:412-427 | eviction leaves at most eight items |
| DepthTheorems.DeadBranch | depth_camera/src/ayyo_depth_camera/adapter.py:354-356 | the branch for a half-configured active adapter is never taken |
| DepthTheorems.FinalizedAbsorbing | depth_camera/src/ayyo_depth_camera/adapter.py:318-330 | a finalized adapter stays finalized |
| DepthTheorems.EpochNext | depth_camera/src/ayyo_depth_camera/adapter.py:263-284 | an activation takes the next epoch, nothing else changes it, and it starts from inactive |
| DepthTheorems.EpochsGrow | depth_camera/src/ayyo_depth_camera/adapter.py:263-284 | epochs never decrease, and increase with every activation until they saturate |
| DepthTheorems.AdmissionSound | depth_camera/src/ayyo_depth_camera/adapter.py:359-410 | an admission matches the requirement of its source, joins the two halves of one time, lies within retention and skew of the completing clock, and is later than all accepted before in the session |
| DepthTheorems.RefusedExactly | depth_camera/src/ayyo_depth_camera/models.py:460-469 | a complete pair is turned down exactly when calibration and source differ in identity |
| DepthTheorems.FittingExactly | depth_camera/src/ayyo_depth_camera/adapter.py:217-261 | exactly when calibration and source fit after a call, from the call's arguments and the calibration in place |
| DepthTheorems.FitsExactly | depth_camera/src/ayyo_depth_camera/adapter.py:217-330 | over every run, calibration and source fit if and only if the last call that placed or removed a source left them so |
| DepthTheorems.CalibrationInstalled | depth_camera/src/ayyo_depth_camera/adapter.py:242-261 | the calibration in place was installed by a call that named a source it fits |
| DepthTheorems.CleanNeverRefused | depth_camera/src/ayyo_depth_camera/adapter.py:496-561 | without a failed configuration no pair is turned down |
| DepthTheorems.StintIncreases | depth_camera/src/ayyo_depth_camera/adapter.py:359-410 | between two activations admitted times strictly increase |
| DepthTheorems.SessionIsStint | depth_camera/src/ayyo_depth_camera/models.py:668-680 | one session identity names the calls after one activation, until the epochs saturate |
| DepthTheorems.SessionIncreases | depth_camera/src/ayyo_depth_camera/adapter.py:359-410 | over every run, admitted times strictly increase within a session |
| DepthPairing.AdmissionProvenance | depth_camera/src/ayyo_depth_camera/adapter.py:496-561 | every admission joins one image and one camera info submitted in the session it names, one of them by the completing call |
| DepthPairing.StaysPending | depth_camera/src/ayyo_depth_camera/adapter.py:412-427 | a pending half stays unless its other half is stored, the lifecycle clears it, an item later than its time plus the pair wait is stored, or eight later ones of its kind are pending |
| DepthPairing.CounterpartCompletes | depth_camera/src/ayyo_depth_camera/adapter.py:496-561 | a valid counterpart of a pending half completes the pair, which is admitted or turned down by the admission |
| DepthPairing.PairingCompletes | depth_camera/src/ayyo_depth_camera/adapter.py:412-512 | over every run, a half left undisturbed is completed when its counterpart arrives; the pair is admitted if and only if calibration and source agree in identity, so always without a failed configuration |
| DepthPairing.SubmitAnswers | depth_camera/src/ayyo_depth_camera/adapter.py:346-494 | every submission with a valid clock is exactly one of rejected on entry, duplicate and stored |
| DepthPairing.AllAnswered | depth_camera/src/ayyo_depth_camera/adapter.py:346-494 | over a run, submissions equal rejected plus duplicate plus stored ones |
| DepthPairing.DiagnosticsKept | depth_camera/src/ayyo_depth_camera/models.py:580-605 | diagnostics always pass the checks of their constructor |
| DepthPairing.FailedConfigureRefuses | depth_camera/src/ayyo_depth_camera/adapter.py:228-254 | after a failed configuration a pair is counted as accepted and then turned down |
| DepthAdapter.Registry.Register | depth_camera/src/ayyo_depth_camera/adapter.py:45-61 | a source is added once; a different one with its identity, or one too many, is refused without change |
| DepthAdapter.EvictFrom | depth_camera/src/ayyo_depth_camera/adapter.py:412-427 | the deletion loops leave the items recent enough that have fewer than eight later ones, and count the others |
| DepthAdapter.Adapter.constructor | depth_camera/src/ayyo_depth_camera/adapter.py:102-142 | a new adapter is in the initial state, which satisfies the invariant |
| DepthAdapter.Adapter.ConfigureSource | depth_camera/src/ayyo_depth_camera/adapter.py:217-261 | refines the configuration step, the early assignment of the source included |
| DepthAdapter.Adapter.ActivateSource | depth_camera/src/ayyo_depth_camera/adapter.py:263-284 | refines the activation step and keeps the invariant |
| DepthAdapter.Adapter.DeactivateSource | depth_camera/src/ayyo_depth_camera/adapter.py:286-298 | refines the deactivation step and keeps the invariant |
| DepthAdapter.Adapter.CleanUp | depth_camera/src/ayyo_depth_camera/adapter.py:300-316 | refines the cleanup step and keeps the invariant |
| DepthAdapter.Adapter.ShutDownSource | depth_camera/src/ayyo_depth_camera/adapter.py:318-330 | refines the shutdown step and keeps the invariant |
| DepthAdapter.Adapter.ValidateCommon | depth_camera/src/ayyo_depth_camera/adapter.py:346-410 | passes without change, or has accounted for the refusal |
| DepthAdapter.Adapter.SubmitImage | depth_camera/src/ayyo_depth_camera/adapter.py:429-461 | refines the submission step for an image and keeps the invariant |
| DepthAdapter.Adapter.SubmitInfo | depth_camera/src/ayyo_depth_camera/adapter.py:463-494 | refines the submission step for a camera info and keeps the invariant |
| DepthSummary.Summarize | depth_camera/src/ayyo_depth_camera/models.py:683-764 | the strided loops succeed exactly when no pixel is unusable and some are valid, and agree with the per-pixel specification |
| DepthSummary.SummaryInRange | depth_camera/src/ayyo_depth_camera/models.py:519-534 | valid plus invalid is width times height; minimum and maximum lie in the source range |
| DepthSummary.SummaryUnique | depth_camera/src/ayyo_depth_camera/models.py:683-764 | the readings determine the summary |
| DepthSummary.PaddingIgnored | depth_camera/src/ayyo_depth_camera/models.py:705-764 | neither the bytes of row padding nor its amount matter |
| DepthSummary.SwapInvariant | depth_camera/src/ayyo_depth_camera/models.py:705-764 | byte-swapping every pixel and flipping the endian flag changes nothing |
| Quaternions.Associative | manipulation_grasp_interaction/src/ayyo_manipulation_grasp_interaction/models.py:247-257 | quaternion multiplication is associative |
| Quaternions.ConjugateProduct | manipulation_grasp_interaction/src/ayyo_manipulation_grasp_interaction/models.py:243-257 | the conjugate of a product is the reversed product of conjugates |
| Quaternions.NormMultiplicative | manipulation_grasp_interaction/src/ayyo_manipulation_grasp_interaction/models.py:247-257 | the norm of a product is the product of the norms |
| Poses.RigidInvariant | manipulation_grasp_interaction/src/ayyo_manipulation_grasp_interaction/models.py:270-288 | one unit rigid transform applied to both poses leaves the relative pose |
| Poses.ParentSign | manipulation_grasp_interaction/src/ayyo_manipulation_grasp_interaction/models.py:270-288 | negating the parent quaternion leaves the relative position, and for nonzero quaternions leaves the orientation if and only if the real part of the product is not zero |
| Poses.ParentSignMatters | manipulation_grasp_interaction/src/ayyo_manipulation_grasp_interaction/models.py:285-288 | at a half turn the two signs of the parent give different orientations |
| GraspChain.DistanceUnsigned | manipulation_grasp_interaction/src/ayyo_manipulation_grasp_interaction/models.py:297-301 | a measured angle never depends on the sign of the parent quaternion |
| Poses.RelativeLength | manipulation_grasp_interaction/src/ayyo_manipulation_grasp_interaction/models.py:260-294 | the length of the relative position is the world distance scaled by the squared parent norm |
| Poses.RelativeLengthBounds | manipulation_grasp_interaction/src/ayyo_manipulation_grasp_interaction/models.py:219-227 | for an accepted quaternion the factors lie within (1 - 1e-6)^2 and (1 + 1e-6)^2 |
| Poses.Triangle | manipulation_grasp_interaction/src/ayyo_manipulation_grasp_interaction/models.py:291-294 | the measured distance satisfies the triangle inequality |
| GraspChain.HeldPosition | manipulation_grasp_interaction/src/ayyo_manipulation_grasp_interaction/models.py:1131-1186 | a valid release implies the object was held within 0.017 + 2e-12 of the reviewed offset, as a bound on the squared distance |
| GraspChain.ReleasedMoved | manipulation_grasp_interaction/src/ayyo_manipulation_grasp_interaction/models.py:1942-1962 | the released object moved at least 0.005 - 1e-12 from where it was held, as a bound on the squared distance |
| GraspChain.Timeline | manipulation_grasp_interaction/src/ayyo_manipulation_grasp_interaction/models.py:1131-1962 | all evidence of a release names one run; fixture sequence numbers strictly increase through detached, attached, attached, detached; times are ordered and fresh from the pregrasp to the established grasp, and from the completed motion over the hold to the release |
| GraspChain.SegmentsUnordered | manipulation_grasp_interaction/src/ayyo_manipulation_grasp_interaction/models.py:1671-1696 | the two segments are not ordered against each other: a valid release with its first segment moved in time is valid if and only if the moved times are timestamps |
| GraspChain.GraspAfterRelease | manipulation_grasp_interaction/src/ayyo_manipulation_grasp_interaction/models.py:1671-1696 | a valid release whose grasp is established after the completed motion, the hold and the release, for any angle function that is zero for equal rotations |
| Interpolation.SegmentsFewest | manipulation_planning/src/ayyo_manipulation_planning/models.py:1188-1191 | the ceiling is the least number of segments, at least one, that covers the delta |
| Interpolation.SecondCapImplied | manipulation_planning/src/ayyo_manipulation_planning/models.py:1178-1196 | the first cap check decides, and the waypoint cap is never exceeded |
| Interpolation.PathEnds | manipulation_planning/src/ayyo_manipulation_planning/models.py:1197-1203 | the path leads from the start to the goal |
| Interpolation.NeighbourMove | manipulation_planning/src/ayyo_manipulation_planning/models.py:1197-1203 | the segments are equal: each neighbour move is the total change divided by their number |
| Interpolation.StepBound | manipulation_planning/src/ayyo_manipulation_planning/models.py:1169-1203 | no joint moves by more than the step between neighbours |
| Interpolation.FewestSegments | manipulation_planning/src/ayyo_manipulation_planning/models.py:1169-1203 | no path of equal segments that keeps to the step has fewer |
| Interpolation.WithinLimits | manipulation_planning/src/ayyo_manipulation_planning/models.py:506-546 | waypoints between positions within the joint limits are within them |
| Interpolation.ValidPositions | manipulation_planning/src/ayyo_manipulation_planning/models.py:506-546 | positions are accepted exactly when they name the planning joints in order, within limits |
| Interpolation.EvidencePath | manipulation_planning/src/ayyo_manipulation_planning/models.py:1594-1667 | collision-free evidence has the requested end points, at most the capped number of waypoints, all within joint limits and flagged free of both collisions, neighbours within the step, and the fewest equal segments |
| Interpolation.PathAccepted | manipulation_planning/src/ayyo_manipulation_planning/models.py:1594-1667 | an interpolation between accepted positions passes the check of every waypoint |
| Trials.TrialVerifiedExactly | learning_evaluation/src/ayyo_learning_evaluation/evaluation.py:331-350 | a trial verifies exactly if its content is valid and sorted and its identity is the hash of its content |
| Trials.TrialMadeVerified | learning_evaluation/src/ayyo_learning_evaluation/evaluation.py:173-281 | every constructed trial verifies |
| Trials.TrialOrderIrrelevant | learning_evaluation/src/ayyo_learning_evaluation/evaluation.py:209-228 | the order of reasons and metrics changes nothing, not even the identity |
| Trials.StatusDetermined | learning_evaluation/src/ayyo_learning_evaluation/evaluation.py:228-250 | status and, for finished trials, reasons follow from the two outcomes |
| Trials.CorpusMadeVerified | learning_evaluation/src/ayyo_learning_evaluation/corpus.py:296-339 | every constructed corpus verifies and does not depend on the order of the episodes |
| Aggregation.Aggregate | learning_evaluation/src/ayyo_learning_evaluation/evaluation.py:597-606 | the dictionary loop gives one row per measured metric, sorted, with the exact sums |
| Aggregation.AggregateUnique | learning_evaluation/src/ayyo_learning_evaluation/evaluation.py:597-606 | the rows are the same for any order of the trials |
| Aggregation.AggregateBounded | learning_evaluation/src/ayyo_learning_evaluation/evaluation.py:373-382 | the sums of verified trials never exceed the bound of an aggregate |
| OfflineEvaluation.OrderTrials | learning_evaluation/src/ayyo_learning_evaluation/evaluation.py:501-554 | succeeds exactly on admissible trials and sorts them; otherwise raises the error of the first trial at fault |
| OfflineEvaluation.ReportUnique | learning_evaluation/src/ayyo_learning_evaluation/evaluation.py:557-643 | there is one report, whatever the order of the trials |
| Reports.Judge | learning_evaluation/src/ayyo_learning_evaluation/evaluation.py:607-619 | the branches give the verdict and the reasons stated over episodes and trials |
| Reports.BuildReport | learning_evaluation/src/ayyo_learning_evaluation/evaluation.py:557-643 | admissible trials give their report, unless it is too large to serialise |
| Reports.VerifyReport | learning_evaluation/src/ayyo_learning_evaluation/evaluation.py:646-665 | a report verifies exactly if it is the fitting report of its own admissible trials on a verified corpus |
| Reports.BuiltVerified | learning_evaluation/src/ayyo_learning_evaluation/evaluation.py:646-694 | every report that was built verifies |
| Reports.Evaluate | learning_evaluation/src/ayyo_learning_evaluation/evaluation.py:668-694 | a report is returned exactly for suitable inputs that fit, each error has its cause, and self-verification never fails |
| Reports.VerifiedGuarantees | learning_evaluation/src/ayyo_learning_evaluation/evaluation.py:646-665 | a report that verifies has the partition, verdict, coverage and exact bounded sums of the trials it carries |
| Reports.Partition | learning_evaluation/src/ayyo_learning_evaluation/evaluation.py:571-585 | evaluated, incomplete and missing episodes partition the holdout set |
| Reports.CountsExact | learning_evaluation/src/ayyo_learning_evaluation/evaluation.py:586-596 | status counts add up to the trials, outcome counts to the episodes, coverage to the finished trials |
| Reports.MeetsExactly | learning_evaluation/src/ayyo_learning_evaluation/evaluation.py:607-619 | criteria are met if and only if every holdout episode has a trial observing its historical outcome |
| Reports.ReasonsExactly | learning_evaluation/src/ayyo_learning_evaluation/evaluation.py:607-619 | each reason is given exactly if its finding holds |
| Reports.OrderIrrelevant | learning_evaluation/src/ayyo_learning_evaluation/evaluation.py:557-643 | admission, size and report do not depend on the order of the trials |
| Reports.RecordedFaultless | learning_evaluation/src/ayyo_learning_evaluation/evaluation.py:135-165 | a trial recorded by the candidate on an episode held out is verified and never at fault |
| Reports.CountImplied | learning_evaluation/src/ayyo_learning_evaluation/evaluation.py:516-522 | faultless trials of distinct episodes are never too many |

## Left out

- JsonText.RoundTrip: a finite float is identified with its shortest representation, a number text that is not an integer; how a float is rendered is not modelled.
- JsonCopy.Copy: one inner loop copies the members of lists and of dicts, where the source has one loop for each.
- JsonTree.NormalIffSame: Python's equality identifies 1, 1.0 and True, and 0.0 and -0.0; here they differ, as their texts do.
- Revalidation.StaleExactly: assumes that the digest is injective, which SHA-256 is only in practice.
- DepthTheorems.SessionIncreases: assumes injective session identities and unsaturated epochs; a saturated epoch names further sessions alike.
- Interpolation.PathEnds: over the reals; rounding of floats may move the end points.
- Poses.RigidInvariant: over the reals, for an exactly unit rotation; distances are characterised by their squares.
- GraspChain.HeldPosition: over the reals; rotation distances use a parameter in place of `acos` of the absolute dot product.
- GraspChain.Timeline: evidence that the source binds by content hash is named directly, so the hashes are not modelled.
- DepthSummary.Summarize: pixels are decoded exactly, but the scaling of 16-bit depths to metres is over the reals; of the metadata only the statistics are modelled.
- Digests, fingerprint identities and content hashes are parameters; where injectivity is needed it is a stated assumption.
- Validation of texts, identifiers, versions and types of fields, Unicode normalisation and regular expressions.
- The wording of explanations and of diagnostic details is a parameter or absent.
- Registry and snapshot are values: the capability registry's constructor and the personal context behind a snapshot are not modelled.
- Locks: every adapter method holds one lock, so calls are atomic steps.
- The detail text of health observations of the depth adapter.
- Identities of robot model, collision model and grasp object are reviewed constants compared for equality.
- Rendering and size of a serialised corpus or report are predicates of the value.
- Robot ids, source kinds and the description of a corpus, which verification recomputes alike.
- Candidate policy verification is a predicate of the candidate.
- Teach Mode, head audio, approvals, developmental scenarios, serialisers, ROS nodes and scripts.

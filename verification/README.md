# Recif, verified

A Dafny model of the stateful parts of Recif's Go backend, and of one parser of its dashboard,
with proofs about every run of them. `dafny verify dfyconfig.toml` checks the whole project.

Recif registers AI agents as Kubernetes custom resources, keeps their releases as files in a Git
repository, lets a new release take a share of the traffic as a canary, proxies chat to the agents,
and searches knowledge bases. The model follows the code. Remote systems are maps: the Git
repository maps paths to artifacts, the cluster maps names to objects and custom resources. Every
remote call has a fate - done, refused, or done with the answer lost - and the results hold for all
fates unless they say otherwise. What the program cannot choose, such as the order in which a Go map
is visited, a server lists things or a sort breaks ties, is arbitrary.

| module | models |
|---|---|
| `Options`, `Text`, `Json`, `Faults`, `Walks` | optional values, the Go string functions used, decoded JSON, remote calls that fail, visiting keys in any order |
| `Artifacts` | release artifacts and how one is built from an agent |
| `StateRepo` | the Git state repository as a compare-and-swap store |
| `ReleaseLog` | create, evaluation result, deploy and tombstone, one request at a time |
| `ReleaseRaces`, `ReleaseOverlaps` | the same requests call by call, interleaved; what overlapping requests do to payloads and to the gate |
| `ReleaseStatus` | what current.yaml says of its release |
| `ReleaseContents` | what a release says of an agent, and where it is filed |
| `Flattening`, `ReleaseDiff`, `ArtifactDiff` | the structural diff of two releases |
| `MergePatch`, `Cluster` | JSON Merge Patch (section 2 of RFC 7396), the objects of a namespace and the writer that changes them |
| `CanaryProtocol`, `CanaryStart` | starting, re-weighting, promoting and rolling back a canary, and cleaning up; what a started canary runs with |
| `Deploys`, `Rollouts` | deploying releases onto custom resources; what current.yaml names against what the cluster runs |
| `ConfigMapping`, `Registration` | the two spellings of settings, registration and configuration updates |
| `Enrichment` | overlaying agents with their custom resources |
| `ConfigEdits` | a configuration edit on its way into a release |
| `RankFusion` | Reciprocal Rank Fusion and the window it works on |
| `ConnectionCache`, `WeightCache` | the gRPC connection cache and the canary-weight cache, with threads as steps |
| `Thinking` | the splitter of `<think>` blocks and the printer it undoes |

Each method that follows a source function is proved against a specification function or predicate;
the lemmas are about those, and so about what the methods do.

## What turned out not to hold

Each of these is a theorem with the exact condition under which the expected property does hold, or
the run on which it fails.

- A failed listing makes a creation take number 1 and replace v1. The numbering survives that
  (`ReleaseLog.ReleasesAreOneToN`), the payload of v1 does not: a run keeps the log sound all the way
  exactly when no creation overwrites another payload (`ReleaseLog.SoundThroughoutExactlyWhenCareful`, one creation:
  `ReleaseLog.CreationIsSoundExactlyWhenNothingIsOverwritten`), and runs whose listings succeed never do
  (`ReleaseLog.SuccessfulListingsAreCareful`).
- Requests that interleave keep payloads and the evaluation gate exactly when no creation overwrites
  another payload (`ReleaseOverlaps.SoundThroughoutExactlyWhen`). Creators of one directory that take turns never do
  (`ReleaseOverlaps.SerialCreatorsOverwriteNothing`); any two that overlap have a fault-free schedule in which
  they do (`ReleaseOverlaps.OverlappingCreatorsOverwrite`), and then a release that demands evaluation can be
  active and current without one (`ReleaseOverlaps.CreatorsRacePastTheGate`).
- A rollback undoes every canary run exactly when one custom resource at most answers to the agent's
  name and re-weighting cannot split traffic under a name that is not the slug
  (`CanaryProtocol.RollbackUndoesEveryRunExactlyWhen`): otherwise one re-weighting replaces whatever is under that name,
  another agent's live split included (`CanaryProtocol.SplitUnderTheNameStays`). The second half of the condition is also what makes
  the clean-up by label complete (`CanaryProtocol.CleanupIsCompleteExactlyWhen`).
- current.yaml does not record what the cluster runs: approvals move it and, by design, leave the cluster alone,
  so a release approved as it is created always puts the two out of step (`Rollouts.CreationPutsOutOfStep`). After
  any run they agree exactly when the last version to become current is the last to have reached the resource
  (`Rollouts.InStepExactlyWhen`).
- Deploying an earlier release again brings the spec back exactly when the later one set nothing that the
  earlier leaves empty (`Deploys.GoingBackRestoresExactlyWhen`).
- The governance of a registration does not reach the custom resource, so releases of agents read from
  the cluster never wait for an evaluation (`ConfigMapping.ClusterAgentsSkipTheGate`).
- A configuration edit is documented to create a release with the edited settings
  (internal/agent/config_handler.go:35), but the agent is overlaid with its resource once more before the
  release is built. That undoes all of the edit but the prompt reference and what the resource is silent
  about (`ConfigEdits.OverlayUndoesTheEdit`), so the edit is released exactly when it asks for nothing that would not
  be written anyway (`ConfigEdits.EditIsReleasedExactlyWhen`), or no resource is found
  (`ConfigEdits.SettingsReachTheReleaseExactlyWhen`). The comment on `Enrich` that it only sets empty fields
  (internal/agent/k8s_reader.go:49) is not what the code does either; the model follows the code.
- The two ways to find an agent's custom resource differ when another resource borrows the agent's name
  (`Enrichment.LookupsAgreeExactlyWhen`, `Enrichment.BorrowedNamesDisagree`).
- A flattened tree can be read back exactly when no key at any depth holds a dot, no sub-object is empty
  and the root has no object under the empty key (`Flattening.UnflattenUndoesFlattenExactlyWhen`); release artifacts
  are like that (`ArtifactDiff.ArtifactsFlattenFaithfully`).
- Taking a `<think>` block out can form a new tag (`Thinking.RemovalCanFormATag`). A reply comes back exactly when
  the text left does not look unfinished itself or, inside a thought, when that holds no opening tag
  (`Thinking.ParseUndoesPrintExactlyWhen`).
- The thoughts of a reply are not always told apart again by the rules between them: one that ends in two newlines
  and three dashes takes the rule behind it along (`Thinking.DashesSwallowTheRule`). Splitting gives them back exactly
  when none holds a rule and none but the last ends like that (`Thinking.ThoughtsAreReadBackExactlyWhen`).
- The diff of two releases does not show every change of a list, since it compares renderings
  (`ArtifactDiff.SpacesHideAChange`); up to rendering it shows all but five metadata fields
  (`ArtifactDiff.EmptyDiffExactlyWhen`).
- A comment calls the release files immutable (internal/release/handler.go:198); status and changelog are
  rewritten, the rest never changes as long as nothing is overwritten (`ReleaseLog.PayloadIsImmutable`,
  `ReleaseOverlaps.PayloadsNeverChange`).

## Model

| member | source | states |
|---|---|---|
| StateRepo.NamesRoundTrip | internal/release/handler.go:690-699 | the version parsed out of a release file's name is the one it was written with |
| StateRepo.Highest | internal/release/handler.go:683-699 | the highest number is that of an existing file or 0, and no file has a higher one |
| StateRepo.GitClient.ListFiles | internal/gitstate/client.go:301-313 | a listing names exactly the release files of the directory |
| StateRepo.GitClient.GetFileSha | internal/gitstate/client.go:139-158 | the digest of the blob, or none for a missing file |
| StateRepo.GitClient.Put | internal/gitstate/client.go:161-191 | a PUT takes effect only when it names the blob that is there; the answer can be lost |
| StateRepo.GitClient.WriteFile | internal/gitstate/client.go:161-191 | read-SHA-then-write, uninterrupted, stores the content unless a call fails, and touches no other file |
| ReleaseLog.ReleaseHandler.HighestVersion | internal/release/handler.go:683-699 | the loop over file names finds the highest release number, or nothing when the listing fails |
| ReleaseLog.ReleaseHandler.LargestVersion | internal/release/handler.go:689-698 | the loop keeps the largest number parsed from any name, 0 if none |
| ReleaseLog.ReleaseHandler.CommitRelease | internal/release/handler.go:183-203 | the release is stored one above the highest number listed, its predecessor's number and checksum set, and no other file changes |
| ReleaseLog.ReleaseHandler.Release | internal/release/handler.go:180-231 | builds, numbers, checksums and stores a release, and approves it at once unless it demands evaluation |
| ReleaseLog.ReleaseHandler.ApproveRelease | internal/release/handler.go:233-265 | marks the release active and points current.yaml at it, both writes best effort |
| ReleaseLog.ReleaseHandler.RejectRelease | internal/release/handler.go:269-296 | marks the release rejected and notes the reason, best effort |
| ReleaseLog.ReleaseHandler.HandleEvalResult | internal/release/handler.go:376-420 | a verdict approves or rejects exactly the version it is about, and is answered with success if and only if that release could be read |
| ReleaseLog.ReleaseHandler.HandleDeploy | internal/release/handler.go:553-589 | points current.yaml at a stored release; nothing goes on to the cluster unless that write is acknowledged |
| ReleaseLog.ReleaseHandler.OnAgentDeleted | internal/release/handler.go:125-155 | does to the log what a deletion does there: ReleaseLog.SmoothDeletionArchives and ReleaseStatus.DeletedExactlyWhen say what that is |
| ReleaseLog.CreationIsSoundExactlyWhenNothingIsOverwritten | internal/release/handler.go:183-203 | a creation keeps the invariant of the log if and only if it does not overwrite another release's payload, even when the listing fails |
| ReleaseLog.EveryLogIsSound | internal/release/handler.go:125-296 | after any sequence of requests in which no creation overwrites another payload, whatever else fails, releases and current files satisfy the invariant of the log |
| ReleaseLog.SoundThroughoutExactlyWhenCareful | internal/release/handler.go:183-203 | over every sequence of requests and all failures, the invariant holds at every point if and only if no creation overwrites another payload |
| ReleaseLog.SuccessfulListingsAreCareful | internal/release/handler.go:183-187 | no creation overwrites anything in a run whose listings succeed, whatever writes fail |
| ReleaseLog.CurrentNamesARelease | internal/release/handler.go:233-265 | in every run that overwrites nothing, current.yaml names an existing release and agrees with it on all but status and changelog |
| ReleaseLog.EvalGate | internal/release/handler.go:218-257 | in every such run a release that demands evaluation is active only after passing one, and current only after that or a deploy |
| ReleaseLog.PassedAndDeployedWereRequested | internal/release/handler.go:395-406 | what the gate takes for passed or deployed is a verdict read, or a deploy carried out, on a release that existed at that point of the run |
| ReleaseLog.ReleasesAreOneToN | internal/release/handler.go:183-203 | after any sequence of requests and any failures, failed listings included, the release files of a directory are exactly v1..vN, each with its own number and its predecessor's, and current.yaml names one of them |
| ReleaseLog.NumbersKeepRising | internal/release/handler.go:683-699 | a stored creation raises the highest number by one, unless its listing failed over releases; nothing else changes it, tombstones included |
| ReleaseLog.SmoothCreationPublishes | internal/release/handler.go:183-231 | a creation in which nothing fails adds exactly the next release: numbered, next to its predecessor, sealed with the digest of what it says while it waits, active and current at once or waiting with current.yaml untouched if a quality score is demanded |
| ReleaseLog.SmoothVerdictSettles | internal/release/handler.go:233-296 | a verdict in which nothing fails makes exactly its release active and current, or rejected with the verdict behind its changelog, and changes nothing else |
| ReleaseLog.EachWriteByItself | internal/release/handler.go:233-296 | whatever fails, each of the two writes of an approval lands or fails by itself; a rejection is one write |
| ReleaseLog.SmoothDeployMakesCurrent | internal/release/handler.go:553-589 | a deploy in which nothing fails makes the release current as it stands and changes nothing else |
| ReleaseLog.SmoothDeletionArchives | internal/release/handler.go:125-155 | a deletion in which nothing fails leaves current.yaml with status deleted and "[DELETED] " before its changelog, all else in it and every other file unchanged |
| ReleaseLog.PayloadIsImmutable | internal/gitstate/artifact.go:187-196 | once committed, a release keeps its payload for the rest of a run that overwrites nothing, and its checksum stays the digest of its first content |
| Artifacts.SamePayloadExactlyWhen | internal/release/handler.go:233-296 | the payload is every field but status and changelog |
| ReleaseStatus.CurrentSaysWhatLandedLast | internal/release/handler.go:125-296 | after any run, whatever failed, current.yaml is there exactly when a write to it has landed, and has the status the last such write left: active after an approval, deleted after a deletion, after a deploy what the deployed release said then |
| ReleaseStatus.HistoryIsNeverDeleted | internal/release/handler.go:125-155 | no release file ever says deleted |
| ReleaseStatus.DeletedExactlyWhen | internal/release/handler.go:125-155 | after any run current.yaml says deleted if and only if the last write to have landed on it was a tombstone |
| ReleaseRaces.UninterruptedRequestIsSequential | internal/release/handler.go:163-296 | a request whose calls are not interrupted does what the sequential model says |
| ReleaseRaces.NumberingSurvivesRaces | internal/release/handler.go:183-203 | under any interleaving of requests call by call and any failures the release files are exactly v1..vN, numbered as named, and current.yaml names one of them |
| ReleaseRaces.NumbersRiseOneByOne | internal/gitstate/client.go:161-191 | no call of any interleaving lowers the highest number or raises it by more than one |
| ReleaseOverlaps.SoundThroughoutExactlyWhen | internal/release/handler.go:163-296 | over every interleaving and all failures, the invariant of the log - gate, payloads, agreement of current.yaml - holds at every point if and only if no creation's write lands on a release with another payload |
| ReleaseOverlaps.CurrentNamesARelease | internal/release/handler.go:233-265 | in every such interleaving current.yaml agrees with an existing release on all but status and changelog |
| ReleaseOverlaps.EvalGate | internal/release/handler.go:218-257 | in every such interleaving a release that demands evaluation is active only after a passing verdict, and current only after that or after a deploy that put it there |
| ReleaseOverlaps.PayloadsNeverChange | internal/gitstate/client.go:161-191 | in every such interleaving a stored release keeps its payload from then on |
| ReleaseOverlaps.PassedAndDeployedWereRequested | internal/release/handler.go:395-406 | what that gate takes for passed is a verdict read, and for deployed an accepted write to current.yaml, of a release that existed at that point and for a request that had begun by then |
| ReleaseOverlaps.SerialCreatorsOverwriteNothing | internal/release/handler.go:183-203 | while listings succeed and no two creators of a directory are between listing and write at once, no creation overwrites anything, whatever else runs beside them and fails |
| ReleaseOverlaps.OverlappingCreatorsOverwrite | internal/release/handler.go:183-203 | after any run, in any directory, two overlapping creations of different payloads have a fault-free schedule in which the second overwrites the first |
| ReleaseOverlaps.CreatorsRacePastTheGate | internal/release/handler.go:183-257 | after any run, in any directory, such a schedule ends with a release that demands evaluation active and current without one |
| Flattening.FlattenMap | internal/release/handler.go:785-798 | visiting keys in any order, the recursion writes exactly the leaves of the tree under their dotted paths |
| Flattening.Flatten | internal/release/handler.go:776-783 | flattening a whole tree yields a flattening of it |
| Flattening.FlatteningIsUnique | internal/release/handler.go:785-798 | on trees without dotted keys and without an object under the empty key of the root the order of visiting does not show |
| Flattening.FlatValue | internal/release/handler.go:785-798 | on such trees the flattening holds under each key the leaf its dotted segments lead to, and nothing under any other |
| Flattening.UnflattenUndoesFlattenExactlyWhen | internal/release/handler.go:785-798 | the tree is read back from any of its flattenings if and only if no key at any depth holds a dot, no sub-object is empty and the root has no object under the empty key |
| ReleaseDiff.SortedKeys | internal/release/handler.go:745-758 | the keys of both sides in strictly increasing string order |
| ReleaseDiff.LessExactlyWhen | internal/release/handler.go:757 | that order: a proper prefix first, else the smaller character at the first difference |
| ReleaseDiff.ComputeDiffOfMaps | internal/release/handler.go:740-773 | strictly sorted entries for exactly the paths that are not ignored and render differently |
| ReleaseDiff.DiffIsUnique | internal/release/handler.go:740-773 | there is only one such list |
| ReleaseDiff.DiffIsSymmetric | internal/release/handler.go:740-773 | exchanging the artifacts exchanges From and To and nothing else |
| ReleaseDiff.EmptyDiffMeansAgreement | internal/release/handler.go:740-773 | the diff is empty if and only if the two agree on every path that is not ignored |
| ReleaseDiff.ApplyingTheDiff | internal/release/handler.go:740-773 | writing the To values over one side gives the other on every path that is not ignored, up to rendering |
| ArtifactDiff.ComputeDiff | internal/release/handler.go:740-783 | for two artifacts: in increasing order of their paths, exactly the fields that render differently, each with its two values, but for the five metadata fields left out |
| ArtifactDiff.ArtifactsFlattenFaithfully | internal/gitstate/artifact.go:20-84 | every artifact, as JSON, has one flattening and is read back from it |
| ArtifactDiff.FlattenedFields | internal/gitstate/artifact.go:14-83 | the flattening of an artifact holds under each dotted path the field of that name, and nothing under any other path; the eleven members below say so path by path |
| ArtifactDiff.NamesOf | internal/gitstate/artifact.go:26-29 | metadata.name, metadata.agent_id and metadata.team_id, the ids left out when empty |
| ArtifactDiff.NumbersOf | internal/gitstate/artifact.go:30-31 | metadata.version and metadata.previous |
| ArtifactDiff.StandingOf | internal/gitstate/artifact.go:32-36 | metadata.author and metadata.status with its four texts |
| ArtifactDiff.HistoryOf | internal/gitstate/artifact.go:33-35 | metadata.timestamp, metadata.changelog and metadata.checksum |
| ArtifactDiff.RuntimeOf | internal/gitstate/artifact.go:39-46 | runtime.image, runtime.channel, runtime.strategy and runtime.replicas |
| ArtifactDiff.ModelOf | internal/gitstate/artifact.go:50-68 | agent.model.provider, agent.model.id and agent.memory.backend |
| ArtifactDiff.PromptsOf | internal/gitstate/artifact.go:51-52 | agent.system_prompt and agent.prompt_ref, the latter left out when empty |
| ArtifactDiff.AgentListsOf | internal/gitstate/artifact.go:53-55 | agent.skills, agent.tools and agent.knowledge_bases |
| ArtifactDiff.GovernanceListsOf | internal/gitstate/artifact.go:72-74 | governance.guards and governance.policies |
| ArtifactDiff.EvaluationOf | internal/gitstate/artifact.go:73-76 | governance.risk_profile, governance.eval_dataset and governance.min_quality_score |
| ArtifactDiff.DeploymentOf | internal/gitstate/artifact.go:16-82 | deployment.namespace, deployment.environment, apiVersion and kind |
| ArtifactDiff.FlatteningDeterminesTheArtifact | internal/release/handler.go:776-783 | two artifacts with one flattening are the same |
| ArtifactDiff.EmptyDiffExactlyWhen | internal/release/handler.go:740-773 | the diff is empty if and only if the artifacts agree, up to rendering, on every field but version, previous, timestamp, checksum and changelog of the metadata |
| ArtifactDiff.SpacesHideAChange | internal/release/handler.go:768-770 | where lists render as their items with spaces between them, two tools and one tool with a space in its name give an empty diff |
| MergePatch.MergeIsIdempotent | internal/agent/k8s_writer.go:115-130 | applying a merge patch twice is applying it once, at any depth |
| MergePatch.FlatPatchOverwrites | internal/agent/k8s_writer.go:115-130 | a patch of plain values overwrites its keys and no other |
| Cluster.K8sWriter.Create | internal/agent/k8s_writer.go:317-319 | a Create adds the object only if the name is free and accepted |
| Cluster.K8sWriter.Upsert | internal/agent/k8s_writer.go:387-395 | Get, then Create or Update as the Get said, with either call failing |
| Cluster.K8sWriter.Delete | internal/agent/k8s_writer.go:403-429 | a Delete removes the named object and no other, unless refused |
| Cluster.CreateChanges | internal/agent/k8s_writer.go:317-319 | a create adds the object unless the name is taken, not accepted or the call refused, and never replaces one |
| Cluster.UpsertChanges | internal/agent/k8s_writer.go:387-395 | a write after a lookup replaces an object only if the lookup has seen it; success means the object is there |
| Cluster.DeleteChanges | internal/agent/k8s_writer.go:403-429 | a deletion takes exactly its object unless refused |
| Cluster.K8sWriter.FindCRDName | internal/agent/k8s_writer.go:511-530 | by object name, else the first listed resource whose spec.name matches regardless of case |
| Cluster.FoundExactlyWhen | internal/agent/k8s_writer.go:511-530 | the name found is the agent's in lower case if that lookup answers, else the first of the listing whose spec.name is the agent's but for letter case |
| Cluster.K8sWriter.PatchSpec | internal/agent/k8s_writer.go:105-134 | merges the fields into the spec of the resource found, whatever of its three calls fails |
| Cluster.K8sWriter.ApplyOverrides | internal/agent/k8s_writer.go:341-353 | visiting the override table in any order gives the same data |
| Cluster.K8sWriter.CreateCanaryConfigMap | internal/agent/k8s_writer.go:328-401 | the canary's configuration is the stable one under the overrides; without the stable one nothing is written and the call fails |
| Cluster.K8sWriter.CreateCanaryDeployment | internal/agent/k8s_writer.go:204-325 | the deployment is created even when its configuration could not be |
| Cluster.K8sWriter.CreateService | internal/agent/k8s_writer.go:432-478 | a Service is labelled for the slug its name starts with; success means the name was free and the call went well |
| Cluster.K8sWriter.ApplyTrafficSplit | internal/agent/k8s_writer.go:533-608 | rule first, route only if the rule went well, success only if both did |
| Cluster.RouteFollowsItsRule | internal/agent/k8s_writer.go:533-608 | a route is only written where its rule is in place, and nothing else is touched |
| Cluster.K8sWriter.DeleteTrafficSplit | internal/agent/k8s_writer.go:611-624 | both deletions are tried whatever came of the first |
| Cluster.K8sWriter.DeleteCanaryDeployment | internal/agent/k8s_writer.go:403-429 | all three deletions are tried whatever came of the others; the answer is that of the deployment's |
| Cluster.K8sWriter.CleanupAgentResources | internal/agent/k8s_writer.go:628-680 | removes, in the five kinds, exactly the objects labelled for the slug whose listing and deletion worked |
| Cluster.SweepLeaves | internal/agent/k8s_writer.go:628-680 | an object is left if and only if it carries another label, its kind could not be listed or its deletion was refused; so a full sweep leaves nothing labelled for the slug |
| CanaryProtocol.CanaryHandler.StartCanary | internal/agent/canary_handler.go:71-185 | refuses without a version or a readable release; else performs the start, from the stable settings where no reader is configured, and succeeds if and only if the canary's deployment could be created |
| CanaryProtocol.CanaryHandler.ParseReleaseConfig | internal/agent/canary_handler.go:481-527 | what a challenger takes over from its release, empty settings left out |
| CanaryProtocol.CanaryHandler.UpdateCanaryWeight | internal/agent/canary_handler.go:425-459 | patches the weight and, if that is acknowledged, splits traffic under the agent's name and succeeds |
| CanaryProtocol.CanaryHandler.PromoteCanary | internal/agent/canary_handler.go:188-231 | performs the same cluster changes as a rollback |
| CanaryProtocol.CanaryHandler.RollbackCanary | internal/agent/canary_handler.go:234-277 | removes the split, the canary objects and the canary field, each step best effort |
| CanaryProtocol.RunsStayInside | internal/agent/canary_handler.go:136-163 | after any run with any failures, from a cluster without a canary and for an agent whose re-weighting cannot split traffic under another name, only the five canary names and the canary field of resources in reach have changed, and what is under the names is labelled for the slug |
| CanaryProtocol.RollbackUndoesEveryRunExactlyWhen | internal/agent/canary_handler.go:203-264 | a final rollback without failures restores the cluster after every run, if and only if at most one resource is in reach and re-weighting cannot split traffic under another name |
| CanaryProtocol.EachIsEndedByItself | internal/agent/canary_handler.go:203-264 | ending a canary takes away each of its five objects unless that very deletion is refused, and no other object |
| CanaryProtocol.SplitUnderTheNameStays | internal/agent/canary_handler.go:443-455 | the run that replaces whatever is under the agent's name by a split that no rollback removes |
| CanaryProtocol.SecondTargetKeepsItsCanary | internal/agent/k8s_writer.go:511-530 | the run in which one failed lookup sends the canary field to another resource, where no rollback clears it |
| CanaryProtocol.CleanupIsCompleteExactlyWhen | internal/agent/k8s_writer.go:628-680 | cleaning up after any run leaves what cleaning up before it would have, if and only if traffic cannot be split under another name |
| CanaryProtocol.SweepSparesOthers | internal/agent/k8s_writer.go:628-680 | however much of a clean-up fails, nothing labelled for another agent is removed |
| CanaryProtocol.CanaryWeightIs | internal/agent/k8s_reader.go:264-290 | the weight the proxy reads: that of an enabled canary, a fraction cut off, and 0 for anything else |
| CanaryProtocol.StartSetsBothRoutes | internal/agent/canary_handler.go:130-163 | after a start without failures the weight the chat proxy reads and the mesh's split are both the requested one, or 10 where that is not within 1..50 |
| CanaryProtocol.ReweightingSetsBothRoutes | internal/agent/canary_handler.go:425-459 | re-weighting an enabled canary keeps the two equal; without an enabled canary the proxy sends it nothing |
| CanaryStart.ChallengerRunsItsRelease | internal/agent/k8s_writer.go:337-368 | the canary's data: the five text variables hold the release's settings, or the stable agent's where the release has none, the two lists likewise as JSON, the number is the release's, and every other variable is the stable agent's |
| CanaryStart.ModelVariables | internal/agent/k8s_writer.go:342-354 | in such data CORAIL_MODEL_TYPE is the release's provider, CORAIL_MODEL_ID its model id and CORAIL_SYSTEM_PROMPT its prompt, where it has them |
| CanaryStart.RuntimeVariables | internal/agent/k8s_writer.go:342-354 | CORAIL_STRATEGY is its strategy and CORAIL_CHANNEL its channel, where it has them |
| CanaryStart.VersionVariable | internal/agent/k8s_writer.go:355-358 | RECIF_AGENT_VERSION is the release number |
| CanaryStart.OtherVariables | internal/agent/k8s_writer.go:337-368 | every other variable, CORAIL_STORAGE among them, is the stable agent's |
| CanaryStart.StorageVariable | internal/agent/k8s_writer.go:342-354 | a storage override would go into CORAIL_STORAGE |
| CanaryStart.StartPutsUpTheCanary | internal/agent/canary_handler.go:71-163 | a start without failures on free names puts up exactly five objects: a configuration that runs the release, a deployment of the agent's image, else the release's, else the default one, a service on port 8000, a rule, and a route at the requested weight, or 10 where it is not within 1..50; the resource announces them |
| CanaryStart.StartWithoutARelease | internal/agent/canary_handler.go:103-163 | without a reader of releases the canary is the stable agent again, under no version |
| CanaryStart.StartStepByStep | internal/agent/canary_handler.go:130-163 | whatever fails at a start: the configuration is copied if the stable one can be read, the deployment goes up either way unless there is one, only behind an acknowledged deployment come service and rule, only behind an acknowledged rule the route, and no other object changes |
| Deploys.Deployer.ApplyCRD | internal/release/handler.go:703-737 | patches the resource with what the release says, leaving out what it leaves empty |
| Deploys.Deployer.Deploy | internal/release/handler.go:553-610 | succeeds if and only if the release could be read and the write to current.yaml was acknowledged; then the cluster receives exactly that release, otherwise nothing |
| Deploys.FieldsAreWhatIsSaid | internal/release/handler.go:708-732 | the patch holds, field by field, what the release says, and nothing for what it is silent about |
| Deploys.AlwaysPatched | internal/release/handler.go:708-714 | version, image, channel, strategy and replicas of the patch are the release's |
| Deploys.PatchedWhereFilled | internal/release/handler.go:715-726 | modelType, modelId, systemPrompt and promptRef are the release's where it fills them and not in the patch where it does not |
| Deploys.ListsPatchedWhereFilled | internal/release/handler.go:727-732 | so are tools and skills |
| Deploys.SpecIsTheSumOfItsHistory | internal/release/handler.go:703-737 | after any sequence of deploys, of one agent or many, with any failures, every field of every resource holds what the most recent release to reach it and not silent about it said, and all else is unchanged |
| Deploys.LastReleaseRules | internal/release/handler.go:708-714 | the five fields every release speaks about follow the last release to arrive |
| Deploys.GoingBackRestoresExactlyWhen | internal/release/handler.go:591-604 | deploying a, then b, then a again restores the whole spec if and only if b says nothing new where a is silent |
| Rollouts.CurrentFollowsTheLastMove | internal/release/handler.go:218-265 | after any run, whatever failed, current.yaml is at the version that last moved it: by a creation approved at once, a passing verdict or a deploy |
| Rollouts.SpecFollowsTheLastReach | internal/release/handler.go:703-737 | after any run spec.version of a resource is the version of the last deploy that reached it, if any has |
| Rollouts.InStepExactlyWhen | internal/release/handler.go:553-604 | after any run the resource runs the version current.yaml names if and only if the last version to become current is the last to have reached it |
| Rollouts.StaysInStepExactlyWhen | internal/release/handler.go:163-265 | one more request keeps the two in step if and only if it brings both to one version, neither, or one of them to where it is |
| Rollouts.DeployBringsIntoStep | internal/release/handler.go:553-604 | a deploy that reaches the resource brings them into step, whatever went before |
| Rollouts.CreationPutsOutOfStep | internal/release/handler.go:205-231 | a release approved as it is created puts them out of step |
| ConfigMapping.TablesInvert | internal/agent/config_mapper.go:7-25 | the key table is one-to-one, and a word that is a key in both spellings is the same setting in both |
| ConfigMapping.KeyMapper.constructor | internal/agent/config_mapper.go:30-35 | walking the table in any order builds its inverse |
| ConfigMapping.KeyMapper.MapRequestToDB | internal/agent/config_mapper.go:39-47 | the CRD keys of a request under their stored names, and nothing else |
| ConfigMapping.TwoPathsOnePatch | internal/agent/config_mapper.go:39-47 | a request renamed to stored form yields the same patch as the request itself |
| ConfigMapping.MergeAllFieldsIntoConfig | internal/agent/config_mapper.go:92-128 | the stored configuration of a registration |
| ConfigMapping.MergedSetting | internal/agent/config_mapper.go:92-128 | for every text setting the request's own value wins over the one in its config |
| ConfigMapping.K8sRepository.Create | internal/agent/k8s_repository.go:139-222 | stores one resource under the slug unless the name is taken or the call refused, and returns the agent read back from it |
| ConfigMapping.K8sRepository.CopySettings | internal/agent/k8s_repository.go:158-173 | copying the usable settings in any order gives the same spec |
| ConfigMapping.K8sRepository.Get | internal/agent/k8s_repository.go:47-68 | by object name, else the first listed resource annotated with a legacy id |
| ConfigMapping.FindExactlyWhen | internal/agent/k8s_repository.go:47-68 | the resource found has the id for a name if that lookup answers; otherwise, for a legacy id, it is the first listed one annotated with it |
| ConfigMapping.K8sRepository.BuildPatch | internal/agent/k8s_repository.go:280-292 | visiting the table in any order builds the same patch |
| ConfigMapping.K8sRepository.UpdateConfig | internal/agent/k8s_repository.go:274-311 | merges that patch into the resource found and changes no other; success means it was found and the patch empty or acknowledged |
| ConfigMapping.RegisterThenReadBack | internal/agent/k8s_repository.go:158-183 | each text setting of a registered agent reads back as the request's own value, else its config value, else the default |
| Registration.RegisteredAgent | internal/agent/k8s_repository.go:139-222 | a registered agent reads back field by field: id, team, name, slug, framework, description, version, one replica, three lists and eight texts, each the request's own, else its config's, else the default |
| Registration.AnnotationsOf | internal/agent/k8s_repository.go:185-194 | the resource is annotated with id, team and creator where there are such, and nothing else |
| Registration.MergedExtra | internal/agent/config_mapper.go:110-125 | for every list and the other settings of a registration the request's own value wins over the one in its config |
| Registration.AccountIsMerged | internal/agent/config_mapper.go:119 | so it does for the service account |
| Registration.ExtrasAreStored | internal/agent/k8s_repository.go:158-173 | those settings are in the resource under their CRD keys, unless they are the empty text |
| Registration.ConfigShowsTheAgent | internal/agent/k8s_repository.go:387-408 | the configuration shown beside an agent repeats eight of its texts and two of its lists and holds nothing else |
| ConfigMapping.UpdateThenReadBack | internal/agent/k8s_repository.go:280-296 | after an update each field holds the camelCase value if not empty, else the snake_case one, is removed by a null, and is otherwise as before |
| ConfigMapping.GateIsSetExactlyWhen | internal/gitstate/artifact.go:87-184 | a built release demands evaluation if and only if the agent's configuration has a minimum score of at least 1 under governance |
| ConfigMapping.ClusterAgentsSkipTheGate | internal/agent/k8s_repository.go:386-411 | no release built from an agent read from a custom resource demands evaluation |
| ReleaseContents.BuiltMetadata | internal/gitstate/artifact.go:121-150 | a built release carries the agent's ids, its number and predecessor, the author recif-api, no checksum yet, and waits for evaluation |
| ReleaseContents.BuiltSettings | internal/gitstate/artifact.go:87-170 | its settings are the agent's own, else its configuration's, else the defaults; only the configuration's storage comes before the agent's |
| ReleaseContents.BuiltGovernance | internal/gitstate/artifact.go:126-181 | its governance comes from the configuration alone, with the default profile and policy where that has none, and its environment is development |
| ReleaseContents.ChecksumCoversTheRest | internal/gitstate/artifact.go:187-196 | with a digest that tells artifacts apart, two artifacts have one checksum if and only if they differ in nothing but the checksum field |
| ReleaseContents.NamespaceOf | internal/gitstate/artifact.go:357-367 | a team's namespace is team- and its id without tk_ in lower case; no id, and any name that begins with default, gives team-default |
| ReleaseContents.NamespacesCoincideExactlyWhen | internal/gitstate/artifact.go:357-367 | two teams share a namespace if and only if those names are the same or both give the default one |
| ReleaseContents.DirectoryOf | internal/gitstate/artifact.go:339-347 | an agent with clean names is filed under agents/namespace/slug |
| ReleaseContents.DirectoriesCoincideExactlyWhen | internal/gitstate/artifact.go:339-354 | two agents share a directory if and only if their namespaces and slugs are the same once sanitised |
| ReleaseContents.SanitisedIsOneSegment | internal/gitstate/artifact.go:349-354 | a sanitised name holds no slash and no backslash |
| ReleaseContents.DotsAreTaken | internal/gitstate/artifact.go:349-354 | two dots in a row are taken out of an otherwise clean name |
| Text.SlugKeeps | internal/httputil/slugify.go:6-16 | a slug is, in order, the letters, digits and dashes of the dashed text |
| Enrichment.FindCRD | internal/agent/k8s_reader.go:293-320 | the first candidate found, spec.name match first, then slug, then dashed name, blanks skipped |
| Enrichment.FoundWithoutFaults | internal/agent/k8s_reader.go:293-320 | without failures that is the resource named like the agent, else the one under its slug, else under its dashed name |
| Enrichment.FirstNamedIs | internal/agent/k8s_reader.go:297-306 | named like the agent is the first of the listing whose spec.name prints as the agent's name |
| Enrichment.LastNamedIs | internal/agent/k8s_reader.go:78-90 | in the index it is the last of the listing whose spec.name is that very text |
| Enrichment.EnrichFromCRD | internal/agent/k8s_reader.go:108-151 | overlays the agent's settings with the resource's, as ConfigEdits.EnrichedSettings says field by field |
| Enrichment.K8sReader.BuildIndex | internal/agent/k8s_reader.go:78-90 | both index maps, later entries overwriting earlier ones |
| Enrichment.K8sReader.EnrichAll | internal/agent/k8s_reader.go:66-106 | one listing and the two maps enrich every agent in place as the lookup by slug, dashed name and spec.name would; a failed listing changes nothing |
| Enrichment.LookupsAgreeExactlyWhen | internal/agent/k8s_reader.go:66-106 | the index and the name search pick the same resource if and only if nothing, or the resource preferred by the index, is first to carry the agent's name |
| Enrichment.OneMatchMeansAgreement | internal/agent/k8s_reader.go:293-320 | they agree for every agent to which at most one resource answers |
| Enrichment.BorrowedNamesDisagree | internal/agent/k8s_reader.go:293-320 | they disagree when another resource borrows the agent's name |
| ConfigEdits.EnrichedSettings | internal/agent/k8s_reader.go:108-151 | the overlay replaces the seven texts even by nothing, replicas and the three lists only where the resource speaks about them, and leaves the prompt reference and all else alone |
| ConfigEdits.EnrichedTexts | internal/agent/k8s_reader.go:108-151 | the same, field by field |
| ConfigEdits.ApplyConfigToAgent | internal/agent/config_handler.go:75-124 | each setting the request gives in usable form has that value afterwards, and everything else is as before |
| ConfigEdits.EditedTexts | internal/agent/config_handler.go:75-99 | an edited agent has each text the request fills; prompt and prompt reference can also be cleared |
| ConfigEdits.EditedLists | internal/agent/config_handler.go:100-123 | and each list it gives, with empty texts for items that are none, and the replicas it gives as a number |
| ConfigEdits.UpdateConfig | internal/agent/config_handler.go:37-72 | the agent sent on is the stored one with the settings in force and the edit; nothing is sent without an agent or a readable body |
| ConfigEdits.OverlayKeepsExactlyWhen | internal/agent/k8s_reader.go:108-151 | an overlay leaves an agent as it is if and only if the resource holds its seven texts and, of replicas and the lists, says the same or nothing |
| ConfigEdits.OverlayUndoesTheEdit | internal/release/handler.go:172-178 | overlaying an edited agent once more is editing it with only the prompt reference and what the resource is silent about |
| ConfigEdits.EditIsKeptExactlyWhen | internal/release/handler.go:172-178 | that keeps the whole edit if and only if the request asks for nothing but what the resource says already, or is silent about |
| ConfigEdits.ReleaseHoldsTheSettings | internal/gitstate/artifact.go:87-184 | each setting of a release is the agent's, or what stands in for an empty one; the configuration's storage comes first |
| ConfigEdits.EditIsReleasedExactlyWhen | internal/release/handler.go:172-180 | the release of an edit holds it if and only if each setting asked for would be written the same from the resource, or is one the resource does not speak about |
| ConfigEdits.SettingsReachTheReleaseExactlyWhen | internal/release/handler.go:172-180 | any agent's settings reach its release if and only if the lookup finds no resource, with any call failing, or the one found would write the same release |
| ConfigEdits.CreateReleaseForAgent | internal/release/handler.go:163-231 | fetches the agent if the event carries none, overlays it, and builds, numbers, stores and perhaps approves its release; without an agent nothing changes |
| ConfigEdits.OnConfigChanged | internal/release/handler.go:110-121 | an event with an agent id creates that release; one without is dropped |
| RankFusion.RrfMerge | internal/kb/store.go:360-401 | for any map order and tie-breaking: distinct ids, min(topK, ids) of them, exact scores, descending, and nothing dropped beats what is kept |
| RankFusion.HybridSearch | internal/kb/store.go:278-292 | the fusion of the two windows of length 2*topK |
| RankFusion.FusedScoresAreDetermined | internal/kb/store.go:378-394 | whatever the ties, the scores returned are the same position by position |
| RankFusion.ScoreOfPlaces | internal/kb/store.go:369-375 | a chunk in place p of the one ranking and place q of the other scores 1/(61+p) + 1/(61+q) |
| RankFusion.KeptRecord | internal/kb/store.go:369-378 | of a chunk in both rankings the semantic record is kept |
| RankFusion.EachAppearanceCounts | internal/kb/store.go:369-375 | each appearance of a chunk in a list adds 1/(61+place) |
| RankFusion.LastHitIs | internal/kb/store.go:369-372 | of several semantic records the last is kept |
| RankFusion.FirstHitIs | internal/kb/store.go:373-378 | of several full-text ones the first |
| RankFusion.WindowBound | internal/kb/store.go:278-292 | each returned score is below the one over the full rankings by at most 1/(61+2*topK), and a chunk outside both windows scores at most twice that |
| RankFusion.KeptScoreFloor | internal/kb/store.go:386-388 | with a ranking of at least topK chunks every kept score is at least 1/(60+topK) |
| RankFusion.HybridSearchIsNearOptimal | internal/kb/store.go:278-292 | no chunk left out beats a returned one over the full rankings by more than 1/(61+2*topK) |
| RankFusion.RankDominance | internal/kb/store.go:366-394 | a chunk ranked above a returned one in both lists is returned strictly before it |
| RankFusion.Consensus | internal/kb/store.go:360-401 | fusing a list with itself returns its first topK chunks in order, each worth 2/(61+i) |
| ConnectionCache.GrpcProxy.Client | internal/agent/grpc_proxy.go:59-88 | fast read, dial, then insert or double-check, with the cache changed by others in between |
| ConnectionCache.ClientIsItsSteps | internal/agent/grpc_proxy.go:59-88 | the insert and the drop of a caller among others do to the cache, to the closed connections and to its answer what that call does |
| ConnectionCache.ClientMayEndEarly | internal/agent/grpc_proxy.go:60-76 | a call that finds a connection, or whose dial fails, changes nothing |
| ConnectionCache.GrpcProxy.Close | internal/agent/grpc_proxy.go:47-56 | closes every cached connection once and empties the cache |
| ConnectionCache.ConnectionsAreConserved | internal/agent/grpc_proxy.go:47-88 | in every interleaving each opened connection is cached, in flight in one thread, or closed - exactly one - and closed at most once |
| ConnectionCache.CloseLeaksExactlyWhatIsInFlight | internal/agent/grpc_proxy.go:47-56 | after Close the connections not closed are exactly those in flight; with none in flight nothing leaks |
| ConnectionCache.CallsAgreeWithinAnEpoch | internal/agent/grpc_proxy.go:59-88 | any two calls of a run, finished at whatever points, return the same connection if and only if they ask for the same slug and take effect between the same two Closes |
| ConnectionCache.ReturnedConnectionIsOpenUntilClose | internal/agent/grpc_proxy.go:59-88 | a connection handed out stays open until the next Close |
| WeightCache.ProxyHandler.ResolveCanaryWeight | internal/agent/proxy.go:60-79 | a live entry is returned as it is and nothing changes; otherwise the resolver's answer is returned and stored, served until ten seconds after its storing and no longer, and no other entry is touched |
| WeightCache.CallIsARun | internal/agent/proxy.go:60-79 | a whole call leaves the cache and returns the weight that its check, its reading of the cluster and its storing do, whatever others do in between |
| WeightCache.CallIsRecent | internal/agent/proxy.go:60-79 | so what a call returns is a weight of that very agent, less than ten seconds plus the longest resolver call old |
| WeightCache.StalenessBound | internal/agent/proxy.go:60-79 | for slugs as the route yields them, without a slash, and any namespaces, every weight returned was the resolver's for that agent less than ten seconds plus the longest resolver call ago, slow overwrites included |
| WeightCache.KeysCollideExactlyWhen | internal/agent/proxy.go:64 | two agents share a key if and only if they are one, or one namespace is nested in the other and the outer agent's slug makes up the difference, slash included |
| WeightCache.DistinctKeysBound | internal/agent/proxy.go:60-79 | for arbitrary slugs the bound holds in every run whose agents share no key |
| WeightCache.SharedKeysMixAgents | internal/agent/proxy.go:60-79 | and for any two that share one there is a run in which one is given the other's weight |
| WeightCache.StalenessIsReached | internal/agent/proxy.go:60-79 | the bound is tight: a run comes within an instant of it |
| WeightCache.SlowCallOverwritesFresher | internal/agent/proxy.go:73-78 | a run in which a slow call replaces a fresher weight by an older one |
| Thinking.ParseThinking | dashboard/src/lib/notifications.tsx:61-76 | the two passes and the look for an unfinished block compute the reply: its thinking is the thoughts in order with a rule between each two, each at its place, and nothing else |
| Thinking.Strip | dashboard/src/lib/notifications.tsx:69 | removes every completed block and nothing else |
| Thinking.ParseUndoesPrintExactlyWhen | dashboard/src/lib/notifications.tsx:61-76 | for texts without the opening tag and thoughts without the closing one, the reply's thinking is the printed thoughts, trimmed, in order, a rule of seven characters between each two, and its content the text trimmed and in one piece, if and only if that text has no opening tag or a closing tag after its last one or, inside an unfinished thought, that thought has no opening tag |
| Thinking.PlainTextComesBack | dashboard/src/lib/notifications.tsx:61-76 | so they do for every text free of '<' |
| Thinking.ThoughtsAreReadBackExactlyWhen | dashboard/src/lib/notifications.tsx:75 | splitting such a thinking at the rules gives back the thoughts if and only if none holds a rule and none but the last ends in the first five characters of one |
| Thinking.DashesSwallowTheRule | dashboard/src/lib/notifications.tsx:75 | a thought that does end in them comes back without them |
| Thinking.ShowsOneOrTwo | dashboard/src/lib/notifications.tsx:75 | one thought is shown as it is, two with the rule between them |
| Thinking.TrimTakesSpaces | dashboard/src/lib/notifications.tsx:67-74 | trimming takes white space off both ends, all of it, and nothing else |
| Thinking.ThinkTagsAreSolid | dashboard/src/lib/notifications.tsx:64 | the dashboard's tags, `<think>` and `</think>`, meet the conditions of the round trip |
| Thinking.RemovalCanFormATag | dashboard/src/lib/notifications.tsx:69-74 | for any body and rest, a stray '<' before a block makes the text after it an unfinished thought |

## Left out

- Routing, request decoding, error bodies, logging, authentication, event-bus scheduling: plumbing over libraries.
- The real GitHub, Kubernetes, MLflow and PostgreSQL clients: maps with failing calls stand for them. GitHub's limit on the length of a listing is not modelled.
- YAML and JSON text, SHA-256: identity and an arbitrary function. A registration whose `config` is the JSON value null, and a custom resource whose `replicas` is not an integer, make the source panic and are not modelled.
- RankFusion.RrfMerge: scores are real numbers, so floating-point rounding is not modelled; a negative topK is not either.
- ReleaseLog.ReleaseHandler.Release: version numbers are unbounded integers, so 64-bit wrap-around is not modelled.
- ConfigEdits.CreateReleaseForAgent: the events it emits and the evaluation it triggers are left out.
- ReleaseLog.EveryLogIsSound: says nothing about runs in which a creation overwrites another payload; SoundThroughoutExactlyWhenCareful shows that these are the unsound ones.
- Cluster.K8sWriter.CreateCanaryDeployment: the volumes, mounts, environment and secrets copied from the stable pod are not modelled, nor are resource versions.
- Cluster.K8sWriter.ApplyTrafficSplit: objects hold what the results speak about; hosts and connection settings are left out, and there is one namespace.
- CanaryProtocol.CanaryHandler.StartCanary: events, the status answer and the webhook that asks for evaluation scores are left out.
- Enrichment.EnrichFromCRD: the canary summary, endpoint and phase it also copies are left out; no release reads them.
- Enrichment.K8sReader.EnrichAll: agents are slots of an array; two entries that are the same object are not modelled.
- ArtifactDiff.ArtifactsFlattenFaithfully: the resource limits of a runtime (internal/gitstate/artifact.go:45), a map whose keys may hold dots, are left out; nothing in the repository sets them.
- ConfigMapping.K8sRepository.Create: the API server's own validation and pruning are left out beyond a refused call, and so is the team label beside the annotations.
- Text: letter case is ASCII, so Unicode case folding is not modelled.
- The lifecycle and role tables, grades, pagination, scaffolding, integrations, skills, policies, teams, users, radar and scorecards: easy members.
- The rest of the gRPC and HTTP proxies, the dashboard's components and its notification polling.

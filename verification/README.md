# Verified models of my-data-hub's operational protocols

my-data-hub is mostly operational Python around real side effects: it rolls out images, launches provider runs,
deletes what it launched, provisions database logins, rewrites configuration and signs or checks receipts. This
project models the protocols that must stay right when an external call fails, loses its answer, or the process dies,
and the checkers and rewriters that must agree with a simple specification.

External systems are classes whose methods answer arbitrarily or fail at every call, with ghost records of what was
asked: `World` (files, the loaded systemd unit, containers), `Disk` (a receipt directory and the provider's history
across crashes), `McpGateway` (the control gateway), `Canary` (the broker canary's claims and events), `Catalogue`
(database roles and memberships), `StateDirectory` (an environment file and its backup). SHA-256, HMAC (RFC 2104) and
name-based UUIDs (section 5.5 of RFC 9562) are uninterpreted functions; a theorem that needs them to be injective says
so. Flushing and renaming a file is one durable step.

| files | component |
|---|---|
| `ComposeChain`, `RolloutWorld`, `Rollout`, `UnitFile`, `DropIn` | the guarded image rollout with its undo and rollback, and what systemd reads from its drop-ins |
| `Identities`, `MatrixRunner` | the matrix runner with launch fences, over crashes and restarts |
| `Gateway`, `ClaimLifecycle`, `MasterScenario`, `CleanupPhase`, `RuntimeHistory` | the operational driver |
| `BrokerCanary`, `Inventory` | the broker canary and both copies of the inventory proof |
| `ReceiptEvidence`, `ReceiptMatrix`, `ReceiptChecker` | the checker of completion receipts |
| `RoleGraph`, `Roles`, `IdentityCheck` | login provisioning and its verifier |
| `Base64Coding`, `CloudInit`, `EnvFile`, `OperatorGate` | the template renderer, the environment file, the signed operator gate |
| `Prelude`, `Sorting` | shared datatypes, string lemmas and sorting |

Five properties that one might expect do not hold of the code as written. Each is kept as it is, with an instance and
the exact condition under which it does hold:

- A failed native canary does not always bring back the file it started from: `EnvFile.ComesBack` and
  `EnvFile.ComesBackFromAnyCopy` give the conditions on the two files before the run, `EnvFile.StaleBackup` and
  `EnvFile.FlagTurnedOff` instances.
- A configured value with a line break in it is not read back as written: `EnvFile.WrittenLines`, with the instance
  `EnvFile.BrokenValue`.
- A provisioning run that stops between CREATE ROLE and COMMENT leaves a login that no later run provisions:
  `Roles.CreatedUnmarked` and `Roles.ProvisionRepeatedly`; `Roles.Provision` says exactly when a login at which a run
  stopped can be provisioned again.
- The rollback drop-in of a rollout does not pin the old image behind every earlier drop-in: `DropIn.RollbackUnitReads`
  says exactly when its commands are read, with the instance `DropIn.ContinuedPrior`.
- The undo of a rollout does not bring back a drop-in that held carriage returns: `Rollout.Rollout`, with the instance
  `Rollout.CarriageReturnLost`.

The command `dafny verify dfyconfig.toml` checks the whole project.

## Model

| member | source | states |
|---|---|---|
| `ComposeChain.SplitUnitLine` | deploy/control-plane/rollout_voice_image.py:96-98 | Splitting a printed unit line by the POSIX shell rules gives back exactly the arguments. |
| `ComposeChain.DisplayRoundTrip` | deploy/control-plane/rollout_voice_image.py:65-72 | Any plain argument list is read back from the text systemd shows for it. |
| `ComposeChain.ComposeParts` | deploy/control-plane/rollout_voice_image.py:75-93 | The scan accepts exactly the lists that have a division into option/value pairs naming a file and a suffix from `up`; prefix and suffix concatenate back. |
| `ComposeChain.ChainPointUnique` | deploy/control-plane/rollout_voice_image.py:75-93 | A list has at most one division. |
| `ComposeChain.AppendFile` | deploy/control-plane/rollout_voice_image.py:75-98 | Appending `-f` and a plain absolute path to an accepted chain extends its prefix by that pair and keeps the suffix. |
| `ComposeChain.GuardsAgree` | deploy/control-plane/rollout_voice_image.py:196-206 | On accepted chains the text guard and the digest guard admit the same start, and only the expected one. |
| `ComposeChain.GuardsDifferOnSpaces` | deploy/control-plane/rollout_voice_image.py:196-206 | Without that acceptance they differ: a quoted space prints like a separator. |
| `RolloutWorld.World.Snapshot` | deploy/control-plane/rollout_voice_image.py:101-130 | A snapshot of an undisturbed host is its inventory: every container labelled, no label twice, the control plane running; a failed one reads nothing. |
| `RolloutWorld.World.Atomic` | deploy/control-plane/rollout_voice_image.py:133-147 | The file is replaced whole or not at all. |
| `Rollout.Prepare` | deploy/control-plane/rollout_voice_image.py:181-259 | Reads and guards only; a returned plan is sound for the request and describes the host. |
| `Rollout.Stage` | deploy/control-plane/rollout_voice_image.py:272-287 | Both overlays go to fresh paths, in order; the earlier drop-in is remembered as text mode reads it. |
| `Rollout.Switch` | deploy/control-plane/rollout_voice_image.py:290-344 | The drop-in is written only after re-reading start and inventory, the container switched only after start and reload were read as the new chain; finishing means healthy on target, chain effective and other services equal to before. |
| `Rollout.Undo` | deploy/control-plane/rollout_voice_image.py:345-362 | Before the switch the drop-in goes back and the unit is reloaded; the confirmed report means unit and containers are as at the start. |
| `Rollout.RollBack` | deploy/control-plane/rollout_voice_image.py:363-392 | After the switch the old image is pinned, the unit reloaded and the container switched back; the confirmed report means old image healthy, rollback chain effective, other services as before. |
| `Rollout.Rollout` | deploy/control-plane/rollout_voice_image.py:181-392 | Whatever the host answers, the changes made have one of a few exact histories, a dry run makes none, and on a host nobody else disturbs every report is true; an undone drop-in is the old file exactly when that held no carriage return. What the written drop-ins mean is stated by the `DropIn` rows. |
| `DropIn.NewUnitReads` | deploy/control-plane/rollout_voice_image.py:257-287 | Read by systemd's rules (an empty assignment clears, later lines of `[Service]` count, a backslash continues a line), the new drop-in of every sound plan gives exactly one start command, which splits into the prefix with the override and the old suffix, the reload command likewise, and nothing else. |
| `DropIn.RollbackUnitReads` | deploy/control-plane/rollout_voice_image.py:280-284 | Where a service section can begin behind the earlier drop-in, the rollback drop-in gives the same commands with the rollback override, and behind a complete one every other assignment is kept; everywhere else it changes no command at all. |
| `DropIn.ContinuedPrior` | deploy/control-plane/rollout_voice_image.py:282-282 | Behind a drop-in whose last line, in another section, is continued at its end, no service section can begin. |
| `UnitFile.NewlineEnds` | deploy/control-plane/rollout_voice_image.py:282-282 | A drop-in that ends in a newline continues no line beyond its end, so that case does not arise for it. |
| `DropIn.NewUnitEffective` | deploy/control-plane/rollout_voice_image.py:257-344 | Where loading shows the commands that are read, the start and reload argument lists read back after the new drop-in are the new chain, so the guard before the switch can be met. |
| `DropIn.StagedOverlays` | deploy/control-plane/rollout_voice_image.py:272-287 | The rollback path is staged first and holds the expected old image; the override path holds the target image with its release and the configuration path. |
| `Rollout.CarriageReturnLost` | deploy/control-plane/rollout_voice_image.py:277-277 | A drop-in written with carriage returns is remembered without them. |
| `Rollout.SwitchesOnceEachWay` | deploy/control-plane/rollout_voice_image.py:290-368 | In every history the forward switch happens at most once, right after both commands were read as the new chain, the backward one at most once and only after it; both name only the control plane without dependencies. |
| `Identities.EffectIdsDistinct` | scripts/provider/real_kaggle_matrix.py:307-328 | Two planned mutations share an effect identity only if they are the same mutation of the same matrix. |
| `Identities.SubtaskIdInjective` | scripts/provider/operational_kaggle_driver.py:1122-1127 | A sub-task identity determines matrix, requirement, task run and kind. |
| `MatrixRunner.Disk.PersistFence` | scripts/provider/real_kaggle_matrix.py:278-304 | A fence is on disk whole or not at all, and an existing one is never changed. |
| `MatrixRunner.Disk.Delete` | scripts/provider/real_kaggle_matrix.py:491-505 | A deletion is asked once per call, and only an answer acknowledges it. |
| `MatrixRunner.ObtainRun` | scripts/provider/real_kaggle_matrix.py:789-834 | A run is pushed only behind a fence that is new and durable; behind an older fence only an existing run is used, otherwise it is an error; the run returned is the one the provider answered. |
| `MatrixRunner.RunScenario` | scripts/provider/real_kaggle_matrix.py:759-935 | Whatever was obtained is asked to be deleted on every exit but a crash, and the PASS receipt is written only after that was acknowledged, with the run ref the provider answered. |
| `MatrixRunner.RunScenarios` | scripts/provider/real_kaggle_matrix.py:733-936 | An exact PASS receipt is reused, any other is an error; success leaves an exact PASS receipt for every scenario in order, and those are the receipts listed. |
| `MatrixRunner.LoadOrCreatePlan` | scripts/provider/real_kaggle_matrix.py:259-275 | The plan in use is on disk before any request, and an existing plan is never replaced. |
| `MatrixRunner.CheckSummary` | scripts/provider/real_kaggle_matrix.py:638-670 | An earlier summary is accepted exactly when every scenario has an exact receipt and the summary names this matrix, this commit and exactly their run refs; nothing is changed. |
| `MatrixRunner.RunMatrix` | scripts/provider/real_kaggle_matrix.py:589-996 | One process never pushes a fenced or receipted scenario and, unless it dies, asks for the deletion of every claim it obtained, the input included. A finished one is EXTERNAL_BLOCKED exactly when the receipts on disk name 15 runs or more, and its summary holds the plan's ids, that verdict and exactly those runs. After a finished matrix a process for the same plan asks the provider nothing, changes nothing, and repeats the verdict, or raises if it failed. |
| `MatrixRunner.Summarise` | scripts/provider/real_kaggle_matrix.py:946-996 | The verdict counts the distinct runs of the receipts on disk, and the written summary holds it. |
| `MatrixRunner.RunAgain` | scripts/provider/real_kaggle_matrix.py:638-670 | After a process that ends EXTERNAL_BLOCKED any number of further processes end the same way without one request. |
| `MatrixRunner.RunAll` | scripts/provider/real_kaggle_matrix.py:589-996 | Over any number of crashing or failing processes each scenario is pushed at most once and only behind its fence, every receipt has an acknowledged deletion, and one matrix identity is used throughout. |
| `MatrixRunner.EffectsFollowMutations` | scripts/provider/real_kaggle_matrix.py:307-328 | Over all processes effect identities are equal exactly for equal mutations. |
| `ClaimLifecycle.RunLifecycle` | scripts/provider/operational_kaggle_driver.py:1348-1385 | Every exchange with the gateway has one of the exact shapes of a reconciled invocation; no claim but that of its own task id is created, and only after a first read that permits a request. |
| `ClaimLifecycle.LifecycleSafety` | scripts/provider/operational_kaggle_driver.py:1348-1385 | At most two identical requests; none for a claim read as SUCCEEDED or FAILED, a failed read, or a resume that finds nothing and may not create; the second exactly for a claim left CLAIMED or RUNNING; a lost answer ends in a claim read back or in ambiguity. |
| `ClaimLifecycle.Drive` | scripts/provider/operational_kaggle_driver.py:1122-1385 | Any sequence of first and resumed invocations creates at most one claim per matrix, requirement, task run and kind. |
| `MasterScenario.Observe` | scripts/provider/operational_kaggle_driver.py:2304-2378 | A request is possible only on a first run, with the task read as exactly not found and the master exactly absent or active. |
| `MasterScenario.Launch` | scripts/provider/operational_kaggle_driver.py:2379-2421 | Exactly one request is sent; a lost answer is settled only by an exact status of the same task. |
| `MasterScenario.Execute` | scripts/provider/operational_kaggle_driver.py:2296-2486 | At most one request, never on resume, only from the exact starting point, and it names the task, requirement, commit and target of this run and nothing else; once sent the outcome is PASS or FAIL with the mutation counted; a resume is never BLOCKED; on PASS the exchanges end with the terminal status answered for this task, the final master and, for FM12, the checkpoint. |
| `CleanupPhase.Reconcile` | scripts/provider/operational_kaggle_driver.py:2700-2795 | Every call is one of four reads; PASS means that the evidence read last, status then master and checkpoint, or the claim, is exactly the binding. |
| `CleanupPhase.Cleanup` | scripts/provider/operational_kaggle_driver.py:2798-2904 | At most one deletion, only right after the claim rebuilt the given binding; PASS means that claim was observed complete under the same claim digest, even if the answer was lost. |
| `CleanupPhase.ClaimRebuilds` | scripts/provider/operational_kaggle_driver.py:1388-1429 | The claim made of a run's binding, with its Notebook and output receipts and their digests, rebuilds exactly that binding in either cleanup state and no other. |
| `CleanupPhase.RebuildsMeans` | scripts/provider/operational_kaggle_driver.py:1388-1429 | Whatever rebuilds a binding holds each of its fields under that field's own name in its one Notebook or output receipt. |
| `CleanupPhase.OneEvidenceMeans` | scripts/provider/operational_kaggle_driver.py:1137-1165 | The receipt of a type is at the only item of that type and matches the digest beside it. |
| `CleanupPhase.CleanupNames` | scripts/provider/operational_kaggle_driver.py:2838-2861 | The deletion names the requirement, task, claim digest, run and output receipt of the binding, and nothing else. |
| `CleanupPhase.CleanupRepeatable` | scripts/provider/operational_kaggle_driver.py:1388-1429 | Recording the deletion changes neither the rebuilt binding nor its authorisation, so a cleanup whose answer was lost can be repeated. |
| `RuntimeHistory.Validate` | scripts/provider/operational_kaggle_driver.py:1467-1520 | Accepted are exactly the histories of 2 to 200 bound events with distinct ids and sequences, a heartbeat and one terminal event later than all others; the summary counts them. |
| `RuntimeHistory.TallyMeans` | scripts/provider/operational_kaggle_driver.py:1467-1520 | The counters and the highest sequence decide exactly whether there is a heartbeat and one final terminal event. |
| `RuntimeHistory.OrderIrrelevant` | scripts/provider/operational_kaggle_driver.py:1467-1520 | Verdict and summary, the digest apart, do not depend on the order of the events. |
| `Inventory.Walk` | scripts/provider/broker_live_canary.py:495-516 | For every cursor-to-page function the walk succeeds exactly when the chain ends within 20 pages and holds no expected ref; it then returned the full listing. |
| `Inventory.CycleNeverEnds` | scripts/provider/broker_live_canary.py:500-513 | A chain that comes back to a cursor never ends, so refusing a repeated cursor loses nothing. |
| `Inventory.ProveInventoryAbsent` | scripts/provider/broker_live_canary.py:495-516 | Both kinds are proved absent, each for its own refs, or the walk raises. |
| `Inventory.InventoryAbsence` | scripts/provider/run_embedding_dependency_smoke.py:102-121 | The same for one set of refs expected in neither kind. |
| `Inventory.BothCopiesAgree` | scripts/provider/run_embedding_dependency_smoke.py:102-121 | On the same inventory and refs both copies give the same verdict and listing. |
| `BrokerCanary.Canary.Append` | scripts/provider/broker_live_canary.py:183-221 | Events are numbered without gaps; an append that raises left the file as it was or replaced it whole. |
| `BrokerCanary.DeleteAll` | scripts/provider/broker_live_canary.py:712-717 | Every registered claim is sent to delete once, newest first, whatever any deletion raises, and the first error stays the cause. |
| `BrokerCanary.CleanUp` | scripts/provider/broker_live_canary.py:694-722 | On every path the registered claims and nothing else are deleted; a finalised dataset stays unclaimed only if its second exact read failed too. |
| `BrokerCanary.CoversEachOnce` | scripts/provider/broker_live_canary.py:106-154 | A receipt the validator accepts for three distinct resources cleans each exactly once. |
| `BrokerCanary.Run` | scripts/provider/broker_live_canary.py:518-786 | Every exit deletes exactly the registered claims, newest first, and reports the first error; a normal return has the full numbered phase log on disk, three cleanups covering producer, dataset and verifier, a receipt that names each under its own role, and the inventory proof. |
| `ReceiptEvidence.ValidateContent` | scripts/validate_repository.py:371-462 | No error exactly when the content agrees with its index entry in schema, class, commit and scope, and its assertions cover exactly that scope. |
| `ReceiptEvidence.IndexEvidence` | scripts/validate_repository.py:484-525 | No error exactly when all ids differ and every repository entry has verified, matching content. |
| `ReceiptChecker.References` | scripts/validate_repository.py:527-544 | The collected ids are exactly those cited by gates, blockers, required evidence and the matrix. |
| `ReceiptChecker.CheckReviews` | scripts/validate_repository.py:598-640 | No error exactly when a readable review exists and each one names this head, merge and relationship, with each required check once on that head. |
| `ReceiptChecker.CheckGateIds` | scripts/validate_repository.py:663-670 | Sorting and comparing decides exactly whether each gate A to N occurs once and no other does. |
| `ReceiptChecker.CheckGates` | scripts/validate_repository.py:672-699 | No error exactly when every cited known item is verified and in the gate's scope and one of them is of a permitted kind. |
| `ReceiptMatrix.CheckScenarios` | scripts/validate_repository.py:790-841 | The loop over the scenario receipts reports nothing exactly when each one is there, valid and a live PASS of its summary on the commit; the sets it builds are the run refs and kernel ids they name. |
| `ReceiptMatrix.CheckMatrixFile` | scripts/validate_repository.py:729-845 | No error exactly when the matrix receipt is valid, agrees with the completion receipt field by field, and its scenario receipts name exactly its runs. |
| `ReceiptChecker.ValidateReceipt` | scripts/validate_repository.py:465-871 | The list of errors is empty exactly for the accepted receipts, COMPLETE, BLOCKED or other. |
| `ReceiptChecker.AcceptedMeans` | scripts/validate_repository.py:465-728 | An accepted COMPLETE receipt cites every id as exactly one entry, has each gate once, and binds evidence, merge, deployment and post-deployment check to the checkout's commit. |
| `ReceiptChecker.GateEvidence` | scripts/validate_repository.py:672-699 | Whatever a gate of such a receipt cites is one digest-verified, matching entry in that gate's scope. |
| `ReceiptChecker.GateCarried` | scripts/validate_repository.py:672-699 | Every gate of such a receipt is carried by verified evidence of a kind permitted for its letter, the kinds listed gate by gate. |
| `ReceiptChecker.MatrixRunsAreScenarios` | scripts/validate_repository.py:790-845 | The run refs and kernel ids of an accepted COMPLETE receipt with its matrix on file are exactly those of its scenario receipts, each a live PASS on the commit of the checkout. |
| `RoleGraph.AcyclicWithEdge` | scripts/provision_postgres_logins.py:203-207 | A granted membership keeps the role graph acyclic. |
| `RoleGraph.AboveOnlyParent` | scripts/verify_service_identities.py:57-66 | A role with one direct membership sits below exactly what that one sits below. |
| `Roles.LoadIdentityPlan` | scripts/provision_postgres_logins.py:39-77 | A plan is returned exactly when every service has a fitting URL and all logins differ; it lists them in table order, each with the login and password of its own variable, its own group and the administrator's endpoint, none of them a group. |
| `Roles.CheckExisting` | scripts/provision_postgres_logins.py:100-186 | An existing login is kept exactly when it is managed, restricted, in no other group with safe options, and owns nothing. |
| `Roles.ProvisionLogin` | scripts/provision_postgres_logins.py:89-207 | A login is refused untouched or ends in its provisioned form; other roles are untouched, and so is a login that is not admissible, even by a fault; after a failed statement, committed or not, it is admissible again exactly when it is absent or marked; a provisioned login is left as it is. |
| `Roles.Provision` | scripts/provision_postgres_logins.py:80-216 | Success leaves each planned login restricted with its group as only direct membership and everything else untouched; a stop leaves later logins untouched and says whether the login can be provisioned again; a login that is not admissible stops the run and stays as it is; a rerun changes nothing and is never refused. |
| `Roles.CreatedUnmarked` | scripts/provision_postgres_logins.py:194-203 | A run that stops between CREATE ROLE and COMMENT leaves a login that is not admissible. |
| `Roles.ProvisionRepeatedly` | scripts/provision_postgres_logins.py:80-216 | Over any number of runs with the login in their plans, one that is not admissible is never provisioned and never changes, and no run succeeds. |
| `IdentityCheck.RowsAreSet` | scripts/verify_service_identities.py:66-78 | Comparing the ordered rows with the sorted tuple is comparing the sets. |
| `IdentityCheck.VerifyIdentities` | scripts/verify_service_identities.py:29-96 | Nothing is found exactly when every service passes and no two usernames are equal. |
| `IdentityCheck.ProvisionedPasses` | scripts/verify_service_identities.py:73-79 | A provisioned login passes exactly when its URL spells it without escapes and its group with the roles above it are the allowed ones. |
| `IdentityCheck.ProvisionedPlanPasses` | scripts/verify_service_identities.py:35-96 | After a whole plan was provisioned the check is clean exactly when every group's roles are the allowed ones. |
| `IdentityCheck.ServicesListed` | scripts/verify_service_identities.py:10-26 | Every service of the shipped table has a group and no allowed role twice, as the check needs. |
| `IdentityCheck.TablesAgree` | scripts/verify_service_identities.py:10-26 | The provisioning and verifying tables name the same services and groups in the same order. |
| `CloudInit.SequentialIsSimultaneous` | deploy/yandex-edge/render_cloud_init.py:33-36 | With each marker once, no overlap, and underscore-free values longer than eight characters, the loop passes every count and equals one simultaneous substitution. |
| `CloudInit.AnyOrder` | deploy/yandex-edge/render_cloud_init.py:33-36 | The order of the markers does not matter. |
| `CloudInit.Leftover` | deploy/yandex-edge/render_cloud_init.py:37-38 | A pattern remains exactly when the template holds it away from every marker. |
| `CloudInit.ReplacementsShaped` | deploy/yandex-edge/render_cloud_init.py:15-32 | The shipped markers and the base64 or secret-id values have the shapes the theorem needs. |
| `Base64Coding.Base64RoundTrip` | deploy/yandex-edge/render_cloud_init.py:15-16 | Every byte sequence is decoded from its base64 text by a decoder written from the alphabet of section 4 of RFC 4648. |
| `CloudInit.ReplacementsCarry` | deploy/yandex-edge/render_cloud_init.py:15-32 | The six replacements put values beside the six markers that decode to the assets and the known-host line, and the secret id. |
| `CloudInit.ValueInPlace` | deploy/yandex-edge/render_cloud_init.py:33-36 | In the simultaneous substitution every value stands where the template holds its marker. |
| `CloudInit.RenderCloudInit` | deploy/yandex-edge/render_cloud_init.py:19-41 | The value beside each base64 marker decodes to the bytes of that marker's own asset, and the secret id is beside its own. On a well-formed template the result is the simultaneous substitution with each value in its marker's place, refused exactly for a stray marker or its size. |
| `EnvFile.UpdateOverrides` | ops/dataset-loop-mcp/native_canary.py:301-316 | Read with the last occurrence winning, the new file is the old one overridden by exactly the configured settings. |
| `EnvFile.UpdateOverridesInText` | ops/dataset-loop-mcp/native_canary.py:301-316 | The same on the text of the file, for values without line breaks. |
| `EnvFile.UpdateKeeps` | ops/dataset-loop-mcp/native_canary.py:301-316 | Every line keeps its place, and its text unless it is the last line of a configured key; added lines set keys the file lacked. |
| `EnvFile.LastUpdateWins` | ops/dataset-loop-mcp/native_canary.py:301-316 | After two updates of the same keys only the second shows: idempotence, and disabling then enabling is enabling. |
| `EnvFile.WrittenLines` | ops/dataset-loop-mcp/native_canary.py:301-316 | The written file reads back as the updated lines exactly when it has a line and no value holds a line break. |
| `EnvFile.BrokenValue` | ops/dataset-loop-mcp/native_canary.py:301-316 | A value with a line break in it is not read back as it was written. |
| `EnvFile.LastUpdateWinsInText` | ops/dataset-loop-mcp/native_canary.py:301-316 | The same on the text of the file, for values without line breaks. |
| `EnvFile.ApplyTable` | ops/dataset-loop-mcp/native_canary.py:301-315 | The loop with its index kept up to date does what setting key by key at the last occurrence does. |
| `EnvFile.DisabledByLine` | ops/dataset-loop-mcp/native_canary.py:484-490 | Without a backup the flag is turned off on every line that sets it and nothing else is touched. |
| `EnvFile.DisabledUnchanged` | ops/dataset-loop-mcp/native_canary.py:484-490 | Turning the flag off leaves a file as it is exactly when it has no carriage return and no line sets the flag otherwise. |
| `EnvFile.StateDirectory.UpdateEnv` | ops/dataset-loop-mcp/native_canary.py:279-319 | The file is saved once, and rewritten only when there is a whole copy of it or an older backup; a copy that raises leaves no backup, a part or the whole. A rewritten file, read back, gives each known field with a value under its own key, and every other key as before. |
| `EnvFile.UpdateConfigures` | ops/dataset-loop-mcp/native_canary.py:286-319 | For values without line breaks the new file, read with the last occurrence winning, gives each of the fourteen keys the input it stands for when its field is known and has a value, and every other key what the old file gave. |
| `EnvFile.FlagReads` | ops/dataset-loop-mcp/native_canary.py:307-309 | A configured file gives the enabled key as true or false, as asked. |
| `EnvFile.StateDirectory.NativeCanary` | ops/dataset-loop-mcp/native_canary.py:409-505 | A run is completed, blocked with the file put back, or ends by an error in the handler; a completed run leaves the loop read as true, after a file that read false between the two updates; a file that is recoverable before the run comes back wherever it is blocked, unless its copy was cut short. |
| `EnvFile.ComesBack` | ops/dataset-loop-mcp/native_canary.py:479-490 | Wherever a run is blocked, short of a copy cut short, the file comes back exactly when the backup equals it, or there is no backup, no carriage return and no enabled flag. |
| `EnvFile.ComesBackFromAnyCopy` | ops/dataset-loop-mcp/native_canary.py:279-284 | With a copy that may be cut short, exactly a file that equals its backup, or is empty or missing without one, is sure to come back. |
| `EnvFile.BackupIsForever` | ops/dataset-loop-mcp/native_canary.py:280-284 | Over any number of runs the backup never changes once it exists, and every blocked run brings it back. |
| `EnvFile.BackupPredatesUpdates` | ops/dataset-loop-mcp/native_canary.py:280-284 | The backup is the file as it stood before the run that made it, however many updates followed; if that copy was cut short it is a beginning of that file. |
| `EnvFile.StaleBackup` | ops/dataset-loop-mcp/native_canary.py:479-483 | A blocked run with an older backup does not bring back the file it started from. |
| `EnvFile.FlagTurnedOff` | ops/dataset-loop-mcp/native_canary.py:484-490 | Without a backup, a run blocked before its copy turns an enabled flag off. |
| `OperatorGate.AuthorityMeans` | scripts/operator_profile_gate.py:77-114 | The ledger speaks for a commit exactly when the row for it that was observed last is protected by the current verified checkpoint, and says what those two hold. |
| `OperatorGate.GateFile.Issue` | scripts/operator_profile_gate.py:171-196 | The file is replaced exactly when what is asked may be issued, by the signed gate; otherwise it is unchanged. |
| `OperatorGate.GateFile.IssueFromLedger` | scripts/operator_profile_gate.py:200-204 | Only the ledger's authority for the commit is issued. |
| `OperatorGate.IssuedVerifies` | scripts/operator_profile_gate.py:117-168 | An issued gate verifies exactly from five minutes before issue until expiry, and against a ledger exactly while its authority is the signed one. |
| `OperatorGate.VerifiedWindow` | scripts/operator_profile_gate.py:117-139 | For any receipt the times of verification form one interval shorter than 24 hours 5 minutes. |
| `OperatorGate.LedgerMovesOn` | scripts/operator_profile_gate.py:142-168 | A gate issued from a ledger goes on verifying while only rows for other commits or older rows arrive, and does not verify against any ledger with another current checkpoint. |
| `OperatorGate.TamperEvident` | scripts/operator_profile_gate.py:142-168 | Whatever verifies under an issued signature is the issued gate for its commit, or its body is another one with the same digest. |

## Left out

- The gateway's transport, OAuth, subprocess plumbing, the Kaggle adapter and the control ledger's own code: they appear only as oracles that may answer or fail.
- The driver's claimed-action, data-workload, checkpoint and FM20 paths: their BLOCKED results can follow a request, so the MasterScenario results are stated for the master requirements only.
- The typed receipt model behind `carrier`, the coercion of integers, and the shapes of provider references: uninterpreted functions.
- Unit files are sections, comments, continued lines and assignments; specifiers, quoting inside values and the search path of drop-ins are left out.
- `is-active`, the image inspection and the approved-file checks of the rollout are arbitrary answers; the compose project filter of a snapshot does not depend on the prefix.
- The unit paths and `inspect_current` helpers of the rollout, and printing of reports.
- File modes, symlinks, owners, sizes of receipts, and the real clock; polling loops stop at arbitrary times.
- JSON printing and parsing, JSON Schema validation, floating-point numbers, and the text of error messages; a checker reports one problem where the source may report several about the same element.
- Notebook sources, wheels, probes and the output validation of a matrix scenario: each is one step that may raise.
- ReceiptChecker.ValidateReceipt: takes a schema-valid receipt, so the type tests on its fields are left out; a scenario receipt is found by its name beside the matrix receipt, without path arithmetic.
- Splitting and unquoting of URLs: a URL is its parts, and unquoting is an arbitrary function.
- Roles.Catalogue.Grant: one fixed grantor, as for a superuser; passwords are compared as given, not as salted digests.
- IdentityCheck.VerifyIdentities: the observations printed beside the findings.
- EnvFile.StateDirectory.UpdateEnv: a file cut short is any beginning of the text; the returned field names are characterised as a set, not as a sorted list; upper case is ASCII, which is all the field names use.
- OperatorGate.AuthorityMeans: among evidence rows observed at the same time the first one is taken, where the database leaves the choice open.
- CloudInit.RenderCloudInit: the asset files are required to have seven characters for the equality with simultaneous substitution; a shorter value need not keep a later marker from forming around it.
- The rest of `validate_repository.py`, `ops/dataset-loop-mcp/deploy.py`, the post-deploy and remote checks, and asset building: fixed-text checks or straight-line guards that would add easy members.

# SelfMind: verified models of its regrouping, failover and recovery logic

SelfMind is an agent daemon that keeps a person's memory, routes work to model
providers and repairs its own configuration. This project models the parts of it
where data or control must survive regrouping, failover, concurrency or
interruption, and proves what they guarantee.

`dafny verify dfyconfig.toml` checks everything.

## The parts

- **Legacy memory migration** (`ComponentLinker`, `RowMove`, `MigrationOwnership`,
  `MigrationPlan`, `MigrationHistory`, `MigrationRun`). A union-find with path
  compression groups canonical memories and observations; a planner gives each
  whole component to one person; rows move in chunks. Histories of planning,
  committing, half-landing and rolling back are proved to converge.
- **Duplicate-evidence cleanup** (`EvidenceDedup`, `DedupApply`, `DedupGuarantees`,
  `DedupUndo`, `DedupDryRun`, `DedupWitnesses`). Grouping, keeper choice, cuts,
  recount, undo, which rows go, and how far the dry run is off.
- **Narrow Skill repair** (`SkillText`, `SkillRepair`, `SkillRepairCheck`). The
  section splitter, its inverse, and what acceptance means line for line.
- **Memory governance** (`MemoryCaps`, `Governance`, `GovernanceGuarantees`,
  `GovernanceMemory`, `GovernanceCaps`). The three-stage cap enforcer over a failing
  store, and the bounded judge pass.
- **Maintenance provider chain and analyzer** (`ProviderChain`,
  `ProviderChainGuarantees`, `ProviderChainAnswers`, `AnalyzerBudget`). Ordered
  failover with circuit effects below a two-attempt budget loop.
- **Model-change validation** (`ModelChange`, `ModelChangeLanes`). Request grouping,
  the evidence cache, and every schedule of the probe lanes.
- **Delegation** (`Delegation`, `DelegationBatch`). Tools by depth, and every
  interleaving of a semaphore-bounded batch.
- **Service replacement** (`ServiceReplace`, `ServiceRuns`, `ServiceControllers`). One
  abstract protocol, the exact shape of a run, and the systemd and launchd controllers.
- **Prompt activation** (`PromptActivation`). The last-known-good record over edits,
  root changes, installs of any version, starts and crashes.
- **Configuration upgrade** (`ConfigTree`, `ConfigDefaults`, `ConfigMigrate`,
  `ConfigTables`, `ConfigUpgrade`, `ConfigProviders`, `ConfigLegacy`, `ConfigKimi`,
  `ConfigDocument`). Defaults, legacy paths, provider lists and profiles on ordered trees.

`Basics` holds the few notions several modules share.

## How the outside world is modelled

- Tables are maps from primary keys to rows: evidence by memory, observation and
  relation; INSERT OR IGNORE inserts when the key is absent; a missing table is
  empty; a transaction is one step, and one over two database files can also end
  with only the copy landed. Run ids are trimmed beforehand; facts of a schema
  without run attribution are facts without a run.
- Graph nodes are a tagged datatype where the program prefixes "m:" and "o:". The
  plan's map of per-person records is a record of per-person maps. Loops over
  sorted or hashed keys run in any order.
- The member and key queries of the dedup pass are arguments constrained to what
  their SQL returns.
- Judges, providers, circuits, store calls, service managers, probes, clocks and
  cancellation answer arbitrarily: they are function-valued parameters, or choices
  inside a method. Case folding, description checking, byte length, similarity
  normalisation, the novel-token test, rescoring, time decay's halving power, error
  wording, path cleaning, prompt parsing, hashing, provider-id normalisation, the
  provider registry and the sensitive-key test are parameters too.
- The chain's fixed message texts and the formatting of its joined error are
  parameters, and so is the governance mode the settings select.
- Concurrent code (probe lanes, batches) is a step machine; every schedule is a
  sequence of enabled steps. Two controllers that poll until a deadline take the
  number of further polls the deadline allows.
- Configuration keys named by the tables are constructors, every other key carries
  its text. `ConfigUpgrade.Good` states what is assumed of the name classifiers: no
  reported default and no path to Kimi sits under a sensitive key, and no built-in
  provider carries a legacy name or the name custom.
- The upgrade's canonical tree is the marshalled configuration loaded from the same
  document. `ConfigKimi.Loaded` states what of loading matters to Kimi: agent.provider
  is not marshalled (`internal/platform/config/loader.go`, line 545), it fills a blank
  model.provider (lines 1377-1379), and profiles stand under trimmed lower-case keys
  (lines 1338-1359). It is meant for documents with lower-case section keys and profile
  names without a dot, loaded without overriding environment variables.
- A prompt snapshot's hash covers the catalog version (`internal/promptassets/load.go`,
  lines 593-595), so `PromptActivation.Good` assumes that hashes under two versions
  differ. Nothing else is assumed of it, `PromptActivation.FallbackContent` aside.

## Where the code does less than it says

Each of these has the exact condition and an input that shows the difference.

- `internal/cliapp/memory_dedup_commands.go` describes obs_ rows as never deleted.
  The code deletes an obs_ row like any other: `DedupGuarantees.DeletedExactly` says
  when, `DedupWitnesses.LiveRowCanBeDeleted` gives a database.
- The dry run of the dedup pass is described as reporting what apply would do.
  `DedupDryRun.DryRunExactlyOff` states by which observations the two differ and when
  the numbers agree; `DedupWitnesses.DryRunCanMiss` and
  `DedupWitnesses.DryRunCanOverstate` give databases for either direction.
- The chain keeps track of any retryable failure so that a mixed failure stays
  retryable. Callers classify the aggregate by the last error it wraps, so the
  retryable failure can be lost: `ProviderChainGuarantees.CallerRetriesExactly` gives
  the condition on the inputs, `ProviderChainGuarantees.RetryableFailureCanBeLost` an
  instance.
- A complete governance pass is meant to have changed nothing. Archiving is not one
  transaction, so it can: `GovernanceMemory.CompleteUnchangedExactly` gives the
  condition, `GovernanceGuarantees.CompleteCanHideAHalfWrite` an instance.
- An upgraded configuration is meant to need no second upgrade. With Kimi hidden under
  agent.provider beside a `model:` without a value, or under a profile key such as an
  alias that only resolves to it, it does: `ConfigKimi.KimiMissedExactly` gives the
  condition, `ConfigKimi.AgentKimiIsMissed` and `ConfigKimi.AliasedKimiIsMissed` the
  documents.

## Model

| member | source | states |
|---|---|---|
| `ComponentLinker.RootsAreComponents` | internal/cliapp/memory_migrate_commands.go:534-580 | two nodes have the same root exactly when a chain of unions joins them |
| `ComponentLinker.CompressKeepsRoots` | internal/cliapp/memory_migrate_commands.go:551-563 | redirecting a node to its root changes no node's representative |
| `ComponentLinker.LinkMergesTwoTrees` | internal/cliapp/memory_migrate_commands.go:565-570 | hanging one root below another merges those two classes and changes no other |
| `ComponentLinker.AfterUnion` | internal/cliapp/memory_migrate_commands.go:565-570 | after a union the forest represents exactly the old links plus the new one, whether or not the two were joined before |
| `ComponentLinker.Linker.Find` | internal/cliapp/memory_migrate_commands.go:551-563 | terminates, returns the root, and only compresses: same forest classes, same nodes |
| `ComponentLinker.Linker.Touch` | internal/cliapp/memory_migrate_commands.go:547-549 | adds the node as its own class and keeps every other |
| `ComponentLinker.Linker.Union` | internal/cliapp/memory_migrate_commands.go:565-570 | adds exactly one link to what the forest represents |
| `ComponentLinker.Linker.Components` | internal/cliapp/memory_migrate_commands.go:572-580 | lists every node once, two in one list exactly when connected, although find rewrites the map during the iteration |
| `RowMove.MoveRowsByKey` | internal/cliapp/memory_migrate_commands.go:740-773 | the 200-row chunk loop equals one set move; row by row a target row is unchanged, a selected row takes a free key with its source value, nothing else arrives, exactly the selected rows leave and are counted once |
| `RowMove.ChunkStep` | internal/cliapp/memory_migrate_commands.go:745-771 | moving one chunk after another is moving their union |
| `MigrationOwnership.OwnerIsUnique` | internal/cliapp/memory_migrate_commands.go:441-455 | no row can be owned by two persons |
| `MigrationOwnership.OwnerConstantOnComponent` | internal/cliapp/memory_migrate_commands.go:415-455 | a whole evidence component has one owner or none |
| `MigrationOwnership.ReplanKeepsOwner` | internal/cliapp/memory_migrate_commands.go:312-509 | after any set of persons has left, re-planning gives every remaining node its original owner |
| `MigrationOwnership.ReplanForgetsMoved` | internal/cliapp/memory_migrate_commands.go:312-509 | what a moved person owned is planned for nobody again |
| `MigrationOwnership.ReplanSamePart` | internal/cliapp/memory_migrate_commands.go:312-509 | re-planning gives the unmoved persons exactly their original row sets, in all five tables |
| `MigrationOwnership.ReplanEmptyPart` | internal/cliapp/memory_migrate_commands.go:312-509 | persons already moved own nothing any more |
| `MigrationOwnership.RestOfRest` | internal/cliapp/memory_migrate_commands.go:312-509 | leaving in two rounds leaves the same rows as leaving at once |
| `MigrationOwnership.NoRelationSplit` | internal/cliapp/memory_migrate_commands.go:415-473 | an evidence row and both its ends go together or stay together |
| `MigrationOwnership.BrokenComponentStays` | internal/cliapp/memory_migrate_commands.go:420-473 | a missing endpoint or a second person keeps the whole component |
| `MigrationHistory.StalePlanPicks` | internal/cliapp/memory_migrate_commands.go:588-650 | a plan made before others were moved still picks exactly its person's rows |
| `MigrationHistory.TryKeepsReached` | internal/cliapp/memory_migrate_commands.go:588-650 | committing, landing only the copy, or rolling back keeps the shape every history has |
| `MigrationHistory.NextKeepsReached` | internal/cliapp/memory_migrate_commands.go:146-218 | every planning or person step of every history keeps that shape |
| `MigrationHistory.HistoryReached` | internal/cliapp/memory_migrate_commands.go:146-218 | for every history: the source is the original minus moved parts, each target its own content plus the parts that landed |
| `MigrationHistory.HistoryRowByRow` | internal/cliapp/memory_migrate_commands.go:740-773 | for every history, path and table: no row already at a target is replaced, a copied person's row takes its free key with its source value, nothing else arrives, and exactly the moved persons' rows left the source |
| `MigrationHistory.SourceFileIsNoTarget` | internal/cliapp/memory_migrate_commands.go:196-216 | no history writes to the source file as a target, and only real persons are moved |
| `MigrationHistory.MovedRowsLandOnce` | internal/cliapp/memory_migrate_commands.go:183-215 | a moved person's rows are gone from the source, all at that person's target and at no other |
| `MigrationHistory.UnmovedRowsStay` | internal/cliapp/memory_migrate_commands.go:183-215 | a person not committed keeps every row in the source |
| `MigrationHistory.RelationsStayWhole` | internal/cliapp/memory_migrate_commands.go:415-473 | after every history an evidence row with both ends has both beside it in its own database |
| `MigrationHistory.FinishedHistoriesAgree` | internal/cliapp/memory_migrate_commands.go:146-218 | however runs were interrupted, two histories that finish end in the same databases |
| `MigrationHistory.FinishedRunMovesNothing` | internal/cliapp/memory_migrate_commands.go:146-218 | once all persons but the legacy partition are done, another run plans and moves nothing |
| `MigrationPlan.PlanFacts` | internal/cliapp/memory_migrate_commands.go:315-340 | each fact is filed under its run's person; facts without run or person are counted |
| `MigrationPlan.GroupComponents` | internal/cliapp/memory_migrate_commands.go:364-413 | the groups are the connected classes of the evidence graph, canonicals without evidence included |
| `MigrationPlan.TouchCanonicals` | internal/cliapp/memory_migrate_commands.go:392-413 | every canonical is known to the linker and no link is added |
| `MigrationPlan.ClassifyComponent` | internal/cliapp/memory_migrate_commands.go:420-440 | existing canonicals, existing observations and dangling, exactly |
| `MigrationPlan.ResolveComponent` | internal/cliapp/memory_migrate_commands.go:441-455 | the one person the component belongs to, or none |
| `MigrationPlan.ComponentOwner` | internal/cliapp/memory_migrate_commands.go:415-455 | what the planner decides for a component is the owner of each of its nodes |
| `MigrationPlan.AttributeComponents` | internal/cliapp/memory_migrate_commands.go:415-473 | canonicals, observations and evidence counts are filed under their owners, the rest counted as unresolved |
| `MigrationPlan.AttributeOrphans` | internal/cliapp/memory_migrate_commands.go:475-486 | observations no evidence cites go to their own run's person |
| `MigrationPlan.CountEvents` | internal/cliapp/memory_migrate_commands.go:487-507 | each person is charged exactly the events of the canonicals they own |
| `MigrationPlan.PlanMemoryMigration` | internal/cliapp/memory_migrate_commands.go:312-509 | the plan lists and counts exactly what each person owns and what nobody does |
| `MigrationPlan.PlannedIdsAreOwned` | internal/cliapp/memory_migrate_commands.go:312-509 | a person's planned ids are the ids that person owns |
| `MigrationPlan.PlannedCountsAreSizes` | internal/cliapp/memory_migrate_commands.go:183-191 | the reported counts are the sizes of the person's part in each table |
| `MigrationRun.MigrateOnePerson` | internal/cliapp/memory_migrate_commands.go:588-650 | the five chunked moves are one move of the picked rows, counted by what left |
| `MigrationRun.PlanStillPicks` | internal/cliapp/memory_migrate_commands.go:196-216 | within one run a person's plan stays exact whoever was moved before |
| `MigrationRun.ApplyPlan` | internal/cliapp/memory_migrate_commands.go:196-217 | the apply loop is a history; counts reported for every real person equal the planned counts; it stops only for a real person whose target is the source file or whose transaction does not commit |
| `MigrationRun.RunMemoryMigration` | internal/cliapp/memory_migrate_commands.go:146-218 | a dry run changes nothing; an applied run is a history whose reported counts equal the planned ones, or stops for a named reason |
| `EvidenceDedup.LoadDedupGroupMembers` | internal/cliapp/memory_dedup_commands.go:235-289 | the earliest live member is kept, every other proven legacy twin is redundant, and no group is made without both |
| `EvidenceDedup.FindDuplicateEvidenceGroups` | internal/cliapp/memory_dedup_commands.go:191-228 | every duplicate group is found, each once |
| `EvidenceDedup.KeeperUnique` | internal/cliapp/memory_dedup_commands.go:272-282 | a key has at most one keeper |
| `DedupApply.CutGroup` | internal/cliapp/memory_dedup_commands.go:348-387 | cutting a group deletes its redundant edges, drops uncited observations and snapshots all of them |
| `DedupApply.CutGroups` | internal/cliapp/memory_dedup_commands.go:332-388 | all groups together, also when one observation is redundant under several canonicals; fails exactly when a canonical is missing |
| `DedupApply.RecountCanonicals` | internal/cliapp/memory_dedup_commands.go:395-418 | each affected canonical is recounted from its remaining supports edges |
| `DedupApply.ApplyDedupGroups` | internal/cliapp/memory_dedup_commands.go:320-442 | the whole transaction: tables, counters and one undo record per affected canonical |
| `DedupGuarantees.KeepersStay` | internal/cliapp/memory_dedup_commands.go:320-388 | every group keeps its keeper edge and keeper observation, whatever other groups do |
| `DedupGuarantees.NoEdgeDangles` | internal/cliapp/memory_dedup_commands.go:374-386 | no edge is left pointing at a deleted observation |
| `DedupGuarantees.OnlyTwinsLoseEdges` | internal/cliapp/memory_dedup_commands.go:230-289 | only supports edges to proven legacy twins are cut |
| `DedupGuarantees.SecondPassFindsNothing` | internal/cliapp/memory_dedup_commands.go:191-289 | a second pass finds no group |
| `DedupGuarantees.CountersMatchEvidence` | internal/cliapp/memory_dedup_commands.go:395-418 | evidence_count and occurrences equal the remaining supports edges and are at least one; the confidence is scored from what remains |
| `DedupGuarantees.OthersUntouched` | internal/cliapp/memory_dedup_commands.go:395-418 | a canonical outside every group keeps its row |
| `DedupUndo.UndoDedupEvent` | internal/kernel/memory/canonical_sqlite.go:625-658 | undoing one event leaves every present row as it is, re-inserts absent recorded rows, adds nothing else and restores the counters, or refuses an unusable record |
| `DedupUndo.UndoRestoresEverything` | internal/cliapp/memory_dedup_commands.go:332-434 | undoing all records, in any order, restores both tables and the saved counters exactly |
| `DedupDryRun.CountDedupPlan` | internal/cliapp/memory_dedup_commands.go:291-312 | the dry run counts all cuts, and the observations cited by no other canonical |
| `DedupDryRun.DryRunExactlyOff` | internal/cliapp/memory_dedup_commands.go:291-388 | where the pass succeeds: expected and deleted observations differ by exactly the twins another relation keeps and the twins redundant under several canonicals; the numbers agree exactly when the two kinds are equally many, the observations exactly when there are none |
| `DedupDryRun.DryRunOfARollback` | internal/cliapp/memory_dedup_commands.go:332-347 | where a canonical is missing the pass deletes nothing, so the dry run is right exactly when it expects nothing |
| `DedupDryRun.DedupMemoryPartition` | internal/cliapp/memory_dedup_commands.go:145-184 | one partition: a dry run changes nothing and reports the plan's numbers; an applied one is the whole transaction or fails |
| `DedupWitnesses.DryRunCanMiss` | internal/cliapp/memory_dedup_commands.go:291-312 | a database whose groups are found and applied, where the pass deletes a shared twin the dry run does not announce |
| `DedupWitnesses.DryRunCanOverstate` | internal/cliapp/memory_dedup_commands.go:291-312 | one where the dry run announces a deletion the pass does not make |
| `DedupGuarantees.CutExactly` | internal/cliapp/memory_dedup_commands.go:235-289 | exactly the supports edges are cut that lead to a row still held by facts with the same run, target and content, beside a live obs_ sibling, an earlier one if the row is live itself |
| `DedupGuarantees.DeletedExactly` | internal/cliapp/memory_dedup_commands.go:314-388 | an observation, live or not, is deleted exactly when something cites it and every citing edge is redundant |
| `DedupWitnesses.LiveRowCanBeDeleted` | internal/cliapp/memory_dedup_commands.go:314-319 | a database on which a live obs_ row is deleted |
| `SkillRepair.SplitCuratedSkillSections` | internal/app/skill_curator_validate.go:192-220 | the line loop computes the section split |
| `SkillRepair.SplitRejoins` | internal/app/skill_curator_validate.go:192-220 | split then rejoin gives back the document line for line, when no heading is empty or repeated |
| `SkillRepair.SplitListsTitles` | internal/app/skill_curator_validate.go:192-220 | the split lists the titles of the second-level headings in order and reports a repeated one |
| `SkillRepair.SplitKeepsHeadings` | internal/app/skill_curator_validate.go:192-220 | each title keeps a heading line of the document that reads so |
| `SkillText.TrimExactly` | internal/app/skill_curator_validate.go:192-194 | trimming takes the white space at both ends and nothing else |
| `SkillRepairCheck.CheckDeclared` | internal/app/skill_curator_validate.go:98-115 | accepts one to three allowed, distinct section names |
| `SkillRepairCheck.CompareSections` | internal/app/skill_curator_validate.go:124-138 | accepts exactly when headings agree and bodies differ in declared sections only, and counts the differences |
| `SkillRepairCheck.ValidateNarrowSkillRepair` | internal/app/skill_curator_validate.go:94-142 | accepts exactly the narrow repairs |
| `SkillRepairCheck.ValidateRepairIncidentCoverage` | internal/app/skill_curator_validate.go:144-162 | accepts exactly when the section of every verified incident is declared |
| `SkillRepairCheck.AcceptedRepairIsNarrow` | internal/app/skill_curator_validate.go:18-142 | for two shaped documents, acceptance is equivalent to: same prefix, order and heading lines, undeclared bodies the same lines, declared bodies changed; one to three distinct sections |
| `SkillRepairCheck.CandidateLines` | internal/app/skill_curator_validate.go:94-142 | the candidate's lines are the active document's with only declared bodies exchanged |
| `SkillRepairCheck.IncidentSectionsChange` | internal/app/skill_curator_validate.go:144-190 | the section of every verified incident really changed |
| `SkillRepairCheck.RepairSectionNamed` | internal/app/skill_curator_validate.go:164-184 | a failed step that names a section maps to it |
| `SkillRepairCheck.RepairSectionOther` | internal/app/skill_curator_validate.go:164-184 | singular names map to their section and unknown steps to the procedure |
| `SkillRepairCheck.RepairSectionIsOne` | internal/app/skill_curator_validate.go:164-184 | every failed step maps to a section |
| `SkillRepairCheck.ShapeMeans` | internal/app/skill_curator_validate.go:18-41 | a document that passes the shape check splits into distinct sections after a front-matter prefix, carries its name and description and is within 32 KiB |
| `MemoryCaps.FreshnessIsLatest` | internal/app/memory_consolidator.go:663-671 | freshness is the latest of created, verified and accessed |
| `MemoryCaps.DecayIsBounded` | internal/kernel/memory/governance.go:61-73 | decay lowers a confidence by the halving share, exactly down to a fifth; unscored counts as 0.5 |
| `MemoryCaps.SortedSorts` | internal/app/memory_consolidator.go:704-708 | weakest first is a rising permutation |
| `MemoryCaps.SortedIsStable` | internal/app/memory_consolidator.go:704-708 | rows of equal strength keep their listing order |
| `MemoryCaps.CanonicalStore.ArchiveCanonicals` | internal/kernel/memory/canonical_sqlite.go:771-789 | archives unprotected active rows only, also when it fails half way |
| `MemoryCaps.CanonicalStore.ArchiveWeakest` | internal/app/memory_consolidator.go:700-720 | archives exactly the overflow weakest of the listed rows |
| `MemoryCaps.CanonicalStore.ArchiveStale` | internal/app/memory_consolidator.go:672-699 | archives exactly the unprotected over-age rows |
| `MemoryCaps.CanonicalStore.TrimWorkspaces` | internal/app/memory_consolidator.go:726-739 | cuts every workspace to its cap, in any order of the workspaces |
| `MemoryCaps.CanonicalStore.CapGlobally` | internal/app/memory_consolidator.go:754-762 | archives the weakest global overflow |
| `MemoryCaps.CanonicalStore.EnforceCaps` | internal/app/memory_consolidator.go:648-763 | a pass without store errors is the three stages, told in rows and settings (PassInRows); it reports a change exactly when there is one; with errors protected rows still stay |
| `MemoryCaps.PassInRows` | internal/app/memory_consolidator.go:648-763 | afterwards every unprotected row has a time within the age limit, every workspace is within its cap and the total within the larger of cap and protected rows; a row with a time within the limit goes only for an exceeded cap that is then used to the full, and no stronger row by decayed confidence stays than went |
| `MemoryCaps.PassShrinks` | internal/app/memory_consolidator.go:672-683 | protected rows stay and nothing is added |
| `MemoryCaps.NoneOverAge` | internal/app/memory_consolidator.go:672-699 | no unprotected row is over age afterwards |
| `MemoryCaps.WithinWorkspaceCap` | internal/app/memory_consolidator.go:722-752 | no workspace keeps more unprotected rows than its cap |
| `MemoryCaps.WithinGlobalCap` | internal/app/memory_consolidator.go:754-762 | total active is at most the larger of the cap and the protected count |
| `MemoryCaps.WeakestGo` | internal/app/memory_consolidator.go:700-720 | every row a cap archives is no stronger than the unprotected rows it spares |
| `MemoryCaps.ArchivedForAReason` | internal/app/memory_consolidator.go:648-763 | nothing is archived unless it was over age or its workspace or the total sits exactly at its limit |
| `MemoryCaps.RerunChangesNothing` | internal/app/memory_consolidator.go:648-763 | a rerun at the same instant changes nothing |
| `MemoryCaps.OutcomeIsDetermined` | internal/app/memory_consolidator.go:648-763 | without ties the outcome does not depend on listing or map order |
| `Governance.GovernanceStore.CountBacklog` | internal/app/memory_consolidator.go:363-369 | the backlog is the number of clusters not checkpointed under the current key |
| `GovernanceGuarantees.DecideSafe` | internal/app/memory_consolidator.go:426-440 | whatever becomes of one decision, the write it attempts or withholds is safe for its own cluster |
| `Governance.GovernanceStore.JudgeBacklog` | internal/app/memory_consolidator.go:388-448 | the batch loop with its four ways to stop |
| `Governance.GovernanceStore.RunGovernanceOnce` | internal/app/memory_consolidator.go:324-472 | one whole pass, its verdict included |
| `GovernanceGuarantees.CompleteMeansSettled` | internal/app/memory_consolidator.go:457-471 | Complete means every candidate is checkpointed, nothing remains and, where no failing write changes anything, the memory is as it was |
| `GovernanceMemory.CompleteUnchangedExactly` | internal/app/memory_consolidator.go:388-472 | over distinct ids, complete means unchanged against every store whose failing merges change nothing and whose failing archives took only named, active, unprotected rows, exactly when writes are withheld, or the backlog cannot be worked off in the pass, or no decision on it passes validation and gate as an archive of such a row |
| `GovernanceMemory.SettlesExactly` | internal/app/memory_consolidator.go:388-472 | a pass gets through its backlog exactly when that fits the batch and every cluster on it is reached, judged and checkpointed |
| `GovernanceMemory.SameVisits` | internal/app/memory_consolidator.go:388-448 | which clusters a pass visits and how it stops does not depend on what the store does |
| `GovernanceGuarantees.CompleteExactly` | internal/app/memory_consolidator.go:457-471 | with distinct ids Complete is equivalent to: all checkpointed and no write succeeded |
| `GovernanceGuarantees.VerdictTells` | internal/app/memory_consolidator.go:450-472 | judged, remaining and reason of every pass that had a backlog |
| `GovernanceGuarantees.StopTells` | internal/app/memory_consolidator.go:388-448 | why the batch loop stopped, in terms of the answers |
| `GovernanceGuarantees.ErrorTells` | internal/app/memory_consolidator.go:388-472 | a pass errs only for a quota answer, an unwritable checkpoint or a failing enforcer |
| `GovernanceGuarantees.CompleteCanHideAHalfWrite` | internal/app/memory_consolidator.go:431-440 | Complete can be reported although an archive that failed half way changed the memory |
| `GovernanceCaps.EnforceOn` | internal/app/memory_consolidator.go:450-456 | the cap enforcer run on a pass's memory reports a change exactly when there is one and loses no protected row |
| `GovernanceGuarantees.ShadowForetells` | internal/app/memory_consolidator.go:474-535 | shadow marks would-apply on exactly the clusters where merge-only attempts that same write, and changes no memory |
| `GovernanceGuarantees.ShadowPass` | internal/app/memory_consolidator.go:324-472 | a shadow pass keeps the memory and checkpoints what merge-only would |
| `GovernanceGuarantees.ShadowFinishes` | internal/app/memory_consolidator.go:388-472 | with nothing failing, pass k is complete exactly from k = ceil(n / batch) on |
| `GovernanceGuarantees.VerbatimIsMember` | internal/app/memory_consolidator.go:539-553 | a reinforcement's text is a member's own, equal up to normalisation |
| `GovernanceGuarantees.GateIsSafe` | internal/app/memory_consolidator.go:482-535 | a write that passes validation and gate names only members of an unprotected cluster, meets its action's confidence gate and adds no text of its own |
| `GovernanceGuarantees.GateExactly` | internal/app/memory_consolidator.go:482-583 | which decisions pass their gate and exactly which ids and text they write |
| `GovernanceGuarantees.UnsoundExactly` | internal/kernel/memory/consolidation.go:204-240 | a decision is valid exactly when action, confidence, protection, text and members fit its cluster |
| `GovernanceGuarantees.DecisionDoes` | internal/app/memory_consolidator.go:418-440 | what each decision does to entry and memory, by validity, gate and mode |
| `GovernanceGuarantees.PaddedIdIsSetAside` | internal/app/memory_consolidator.go:426-429 | a cluster whose padded id is not found again has its decision set aside |
| `GovernanceGuarantees.WritesAreSafe` | internal/app/memory_consolidator.go:388-448 | so does every write of every pass, attempted or withheld |
| `ProviderChain.SentWithinCeiling` | internal/app/maintenance_provider.go:382-406 | a bounded request gets the whole headroom unless the positive ceiling cuts it, an unbounded one stays so, and a larger request is never sent smaller |
| `ProviderChainGuarantees.CircuitTells` | internal/app/maintenance_provider.go:493-536 | each circuit effect, closing, both ways of opening and putting off a probe, happens exactly at visited positions with the matching reply |
| `ProviderChainGuarantees.TurnsAreGood` | internal/app/maintenance_provider.go:245-311 | one position: called with its own budget or skipped, at most one circuit effect and only on success or failure, and either the end of the walk or a note |
| `ProviderChain.MaintenanceChain.Chat` | internal/app/maintenance_provider.go:239-314 | one call is the walk over all positions |
| `ProviderChain.MaintenanceChain.WalkPositions` | internal/app/maintenance_provider.go:245-313 | the loop, whatever each position does: it stops at the first answer and otherwise combines all failures |
| `ProviderChainGuarantees.ChatKeeps` | internal/app/maintenance_provider.go:239-314 | positions are visited in order, each provider called at most once with its own budget; circuit effects belong to positions that succeeded or failed |
| `ProviderChainGuarantees.AnswerMeans` | internal/app/maintenance_provider.go:245-288 | an answer from position i: each earlier one was circuit-open, failed, or cut short on a later attempt; a truncated empty answer leaves its circuit untouched |
| `ProviderChainGuarantees.AggregateMeans` | internal/app/maintenance_provider.go:545-554 | the aggregate error is marked non-retryable exactly when no called position failed retryably (and there was a position) |
| `ProviderChainGuarantees.UnavailableExactly` | internal/app/maintenance_provider.go:245-313 | over the inputs: the walk ends unavailable exactly when every position is passed; the failure list is the positions' own lines, the wrapped error the last position's |
| `ProviderChainGuarantees.CallerRetriesExactly` | internal/app/maintenance_provider.go:545-554 | over the inputs: a caller retries exactly when every position is passed, some called one fails retryably, and the last position's own error is not fatal by kind (or, unclassified, by wording) |
| `ProviderChainGuarantees.NoteTells` | internal/app/maintenance_provider.go:246-311 | what a passed position leaves in the failure list, slot, route and error included |
| `ProviderChainGuarantees.LastKindDecides` | internal/app/maintenance_provider.go:545-554 | a fatal last error ends the retries whatever its wording, a transient one lets a retryable failure go on |
| `ProviderChainAnswers.VisitedExactly` | internal/app/maintenance_provider.go:238-311 | a position is visited exactly when all before it are passed, and called exactly when its circuit is not open besides |
| `ProviderChainAnswers.AnswerExactly` | internal/app/maintenance_provider.go:238-311 | a body is answered exactly when it is the own reply of the first position not passed, and the walk is cancelled exactly when that position fails for a caller who has gone away |
| `ProviderChainGuarantees.RetryableFailureCanBeLost` | internal/app/maintenance_provider.go:245-313 | a retryable failure before a position waiting for its quota probe is classified non-retryable |
| `AnalyzerBudget.OutputContract` | internal/app/post_run_analyzer.go:238-268 | the single budget is positive and at most the batch budget, and both are within a known route ceiling |
| `AnalyzerBudget.FirstBudgetsPositive` | internal/app/post_run_analyzer.go:414-420 | the first budget is positive, within the limit and the larger of single budget and share |
| `AnalyzerBudget.FulfilContract` | internal/app/post_run_analyzer.go:337-376 | the two-attempt loop |
| `AnalyzerBudget.BatchMakesAtMostTwoWalks` | internal/app/post_run_analyzer.go:381-459 | at most two walks within every ceiling, none without a claim; the first gets the single budget for one run and its share per run for more |
| `AnalyzerBudget.AtMostTwoBudgets` | internal/app/post_run_analyzer.go:337-376 | the second budget is twice the first or the limit, and strictly larger |
| `AnalyzerBudget.OutcomeExactly` | internal/app/post_run_analyzer.go:337-376 | when the analysis is repeated, and what its outcome is, read off the answers |
| `AnalyzerBudget.AnalysedExactly` | internal/app/post_run_analyzer.go:337-376 | an analysis succeeds with exactly the whole, decodable content that the first position not passed returned |
| `AnalyzerBudget.NeverAboveCeiling` | internal/app/maintenance_provider.go:375-406 | no call of either attempt exceeds its route's positive ceiling |
| `AnalyzerBudget.LargerBudgetBeforeFallback` | internal/app/maintenance_provider.go:267-288 | after a truncated empty answer no fallback position is consulted until the larger budget was tried at that position, or its circuit skipped it |
| `ModelChange.ModelChangeValidator.Recall` | internal/app/model_change.go:64-78 | a hit is exactly the latest passing result for the key, at most ttl old, marked reused |
| `ModelChange.ModelChangeValidator.Remember` | internal/app/model_change.go:80-87 | passing results are stored, failures never |
| `ModelChange.NotingIsSound` | internal/app/model_change.go:80-87 | every report leaves the cache exact: what it holds is the latest pass, what it lacks has none young enough |
| `ModelChange.LatestIsAPass` | internal/app/model_change.go:64-87 | the latest pass is a passing event of that key with no later passing one |
| `ModelChange.GroupRoutes` | internal/app/model_change.go:107-135 | one target per probe key whose indices are exactly the routes with that key; other routes are settled in place |
| `ModelChange.Place` | internal/app/model_change.go:126-134 | a probe route joins its key's target or opens one |
| `ModelChangeLanes.OpenLanes` | internal/app/model_change.go:146-155 | recalled targets go to the channel, all others to their lane in order; the channel has room |
| `ModelChangeLanes.StepInv` | internal/app/model_change.go:146-182 | every step of every schedule keeps the invariant |
| `ModelChangeLanes.NoSenderBlocks` | internal/app/model_change.go:146-173 | a lane that has a result can always send it |
| `ModelChangeLanes.OneProbePerLane` | internal/app/model_change.go:137-173 | no lane has two probes in flight |
| `ModelChangeLanes.NeverStuck` | internal/app/model_change.go:146-182 | until every outcome is received some step is possible |
| `ModelChangeLanes.SchedulesEnd` | internal/app/model_change.go:146-182 | every schedule has at most four steps per target |
| `ModelChangeLanes.TakeShows` | internal/app/model_change.go:174-181 | receiving an outcome fills exactly the routes of its target, none filled before |
| `ModelChangeLanes.EveryRouteGetsItsOwn` | internal/app/model_change.go:97-183 | when all outcomes are received each route holds one result in its position: its settled one or its own probe key's outcome |
| `ModelChangeLanes.OutcomeIsReported` | internal/app/model_change.go:156-173 | a target's outcome is exactly what its own probe reported |
| `ModelChangeLanes.EveryRouteHoldsItsProbe` | internal/app/model_change.go:97-183 | each probed route holds what the cache recalled for its key or what the one probe of its key reported |
| `ModelChangeLanes.LanesLeaveASoundCache` | internal/app/model_change.go:156-173 | after every schedule the cache is exact and holds every reported outcome in its history |
| `Delegation.BuildDelegateSubBackend` | internal/app/delegation.go:209-263 | the filtered clone, with the delegate tool only below the limit and only if not read-only |
| `Delegation.IsReadOnly` | internal/app/delegation.go:270-291 | accepts exactly when every tool not quarantined is a known built-in read |
| `Delegation.DelegatesBelowLimit` | internal/app/delegation.go:206-263 | a sub-agent can delegate exactly below the limit and when it is not read-only |
| `Delegation.NestBounded` | internal/app/delegation.go:102-119 | every nest of delegations has at most maxDepth hops |
| `Delegation.OpaqueNests` | internal/app/delegation.go:212-217 | a backend that cannot be filtered nests on exactly if it carries the delegate tool itself |
| `Delegation.NestTools` | internal/app/delegation.go:244-263 | every hop holds only the root's tools, minus parent-owned ones, plus the delegate tool below the limit |
| `Delegation.SubToolsExactly` | internal/app/delegation.go:218-254 | a sub-agent holds exactly the root tools it asked for and the parent does not own, unchanged |
| `Delegation.ToolsetsByName` | internal/app/delegation.go:222-242 | what each toolset name stands for |
| `Delegation.ReadOnlyReach` | internal/app/delegation.go:265-291 | whatever a proven read-only sub-agent reaches is a built-in read |
| `Delegation.AdmitBatch` | internal/app/delegation.go:310-330 | too deep, too large, or admitted with full concurrency exactly when every sub-agent is proven read-only, else one |
| `Delegation.ConcurrencyExactly` | internal/app/delegation.go:310-347 | a batch overlaps only if every sub-agent is proven read-only, and then up to the configured bound |
| `DelegationBatch.StepInv` | internal/app/multi_agent.go:105-162 | every step of every interleaving keeps the semaphore count and the result slots |
| `DelegationBatch.AtMostCap` | internal/app/multi_agent.go:110-148 | at most the batch's concurrency of sub-agents run |
| `DelegationBatch.ResultsStay` | internal/app/multi_agent.go:142-156 | a result slot once written never changes |
| `DelegationBatch.ResultIsItsOwn` | internal/app/multi_agent.go:133-158 | a slot holds exactly the outcome its own sub-agent finished with, or the refusal of a stopped host |
| `DelegationBatch.FinishedBatch` | internal/app/multi_agent.go:133-162 | at the end every index has a result, no slot is held and nothing is registered as running |
| `DelegationBatch.NeverStuck` | internal/app/multi_agent.go:133-158 | until all have left, one goroutine can move |
| `DelegationBatch.InterleavingsEnd` | internal/app/multi_agent.go:105-162 | every interleaving ends |
| `DelegationBatch.OverlapMeansReads` | internal/app/delegation.go:310-347 | whenever two sub-agents overlap, every tool either reaches through any nesting is a built-in read of the root |
| `ServiceReplace.StartsAreSafe` | internal/cliapp/gateway_service_systemd_control.go:30-86 | each start follows an inspect that saw the service stopped and then a successful absence proof, with no start between; at most two starts |
| `ServiceControllers.StopExisting` | internal/cliapp/gateway_service_systemd_control.go:31-61 | looks, tells a running service to stop, and waits; every event is what the manager answered |
| `ServiceControllers.StartOnceOrTwice` | internal/cliapp/gateway_service_systemd_control.go:70-84 | one start and, after a failed one, exactly one safe retry |
| `ServiceControllers.ReplaceSystemd` | internal/cliapp/gateway_service_systemd_control.go:30-86 | the run has the exact shape of a replacement, every event is what the unit's states and commands gave, and it follows the protocol with success exactly on the last start |
| `ServiceControllers.ReplaceLaunchd` | internal/cliapp/gateway_service_darwin.go:53-109 | the same for launchd, with success exactly after the kickstart |
| `ServiceRuns.ReplacementFollows` | internal/cliapp/gateway_service_systemd_control.go:30-84 | every run of that shape follows the protocol and succeeds exactly in its final phase |
| `ServiceRuns.StopIsIssuedExactly` | internal/cliapp/gateway_service_systemd_control.go:30-42 | a service seen running is told to stop next and only then; one seen stopped never is |
| `ServiceRuns.ReplacementGivesUp` | internal/cliapp/gateway_service_systemd_control.go:30-84 | a replacement that fails ends in a stated reason; a running service is given up on only after every pause |
| `ServiceRuns.OrdinaryUpgradeSucceeds` | internal/cliapp/gateway_service_systemd_control.go:30-84 | a replacement succeeds when every command works and the service stops once told |
| `ServiceControllers.SystemdStates` | internal/cliapp/gateway_service_systemd_control.go:17-21 | which unit states count as stopped |
| `ServiceReplace.SuccessMeans` | internal/cliapp/gateway_service_darwin.go:82-109 | what the final phase says about the last commands |
| `ServiceReplace.NothingAfterSuccess` | internal/cliapp/gateway_service_darwin.go:88-109 | after a successful start only the kickstart follows |
| `PromptActivation.PromptStore.ResolveRuntimePromptSnapshot` | internal/app/prompts.go:111-134 | active, last known good or built-in, with the status that says so |
| `PromptActivation.SavedLoads` | internal/promptassets/revisions.go:44-145 | a saved snapshot loads again with a content of its own hash, saving twice changes nothing, and no other entry is touched |
| `PromptActivation.PromptStore.ActivateRuntimePromptSnapshot` | internal/app/prompts.go:72-109 | revision first, then the record, and an activation error exactly when one of the needed writes fails |
| `PromptActivation.StepInv` | internal/app/prompts.go:72-232 | every edit, root change, change of version, start, write and crash keeps the record sound |
| `PromptActivation.RecordIsSafe` | internal/app/prompts.go:155-232 | over every run the record names a stored revision that was active under its recorded root |
| `PromptActivation.ValidWorkspaceIsServed` | internal/app/prompts.go:111-134 | a valid workspace is served with its own content under its own hash |
| `PromptActivation.ServedIsSelected` | internal/app/prompts.go:72-134 | what a start selected is served until the daemon goes down |
| `PromptActivation.CompletedStartIsRecorded` | internal/app/prompts.go:72-109 | an active start whose writes succeed leaves its snapshot loadable and recorded |
| `PromptActivation.FallbackExactly` | internal/app/prompts.go:195-232 | over every run, downgrades included, an invalid workspace selects the recorded revision exactly when root and catalog match, the built-in otherwise |
| `PromptActivation.RevisionsStay` | internal/promptassets/revisions.go:44-94 | whatever is stored at any point of a run is never changed or dropped, whichever versions run afterwards |
| `PromptActivation.FallbackServesWhatWasStored` | internal/app/prompts.go:195-232 | a matching record that outlives a run is served with the very content stored for it at the beginning |
| `PromptActivation.FallbackContent` | internal/app/prompts.go:195-232 | without hash collisions the revision served is the very content that was active |
| `PromptActivation.OnlyActiveStartsMoveTheRecord` | internal/app/prompts.go:83-108 | only the second write of an active start moves the record, to that start's own snapshot |
| `ConfigDefaults.DefaultsKeep` | internal/cliapp/config_commands.go:722-752 | adding defaults keeps every value and keeps mappings mappings |
| `ConfigDefaults.DefaultsArrive` | internal/cliapp/config_commands.go:722-752 | every writable canonical path exists afterwards |
| `ConfigDefaults.DefaultsExactly` | internal/cliapp/config_commands.go:722-762 | at every writable path stands the document's own value, else the fixed default or the canonical value where only mappings are on the way, else nothing |
| `ConfigDefaults.SecretsStayOut` | internal/cliapp/config_commands.go:722-777 | a missing path through a sensitive key stays missing, whatever the canonical tree holds there |
| `ConfigMigrate.AllCleared` | internal/cliapp/config_commands.go:779-787 | after the table every old path is gone and keys stay unique |
| `ConfigMigrate.AllDeliver` | internal/cliapp/config_commands.go:848-858 | a new path ends with its own value or the first legacy source in table order |
| `ConfigMigrate.AllKeepLeaf` | internal/cliapp/config_commands.go:848-869 | values out of the way of the table are unchanged |
| `ConfigTables.TablesAreTidy` | internal/cliapp/config_commands.go:51-68 | the sixteen rows keep apart as the migration needs |
| `ConfigTables.DefaultPathIsPlain` | internal/cliapp/config_commands.go:70-127 | no row touches a reported default path |
| `ConfigUpgrade.CustomListDoes` | internal/cliapp/config_commands.go:795-815 | the list stage leaves no list and changes no other key |
| `ConfigUpgrade.ProfilesDo` | internal/cliapp/config_commands.go:817-846 | the profile stage removes the profiles and restores no legacy key |
| `ConfigProviders.CustomHolds` | internal/cliapp/config_commands.go:795-815 | the collected mapping has an id exactly when some item does, and then every setting of the first such item, name aside |
| `ConfigProviders.AddProfilesBuiltin` | internal/cliapp/config_commands.go:817-846 | a built-in provider keeps its entry, else gets the node of the first profile that resolves to it |
| `ConfigProviders.AddProfilesCustom` | internal/cliapp/config_commands.go:817-846 | a custom provider keeps its entry, else gets the node of the first profile of its id |
| `ConfigProviders.BuiltinAfterMigration` | internal/cliapp/config_commands.go:779-846 | what stands under a provider the table does not name after the whole migration |
| `ConfigProviders.CustomAfterMigration` | internal/cliapp/config_commands.go:779-846 | what stands under every custom id after the whole migration: list item, own entry, profile or nothing |
| `ConfigProviders.ListedProvidersKeepTheirSettings` | internal/cliapp/config_commands.go:795-815 | through the whole upgrade every listed provider keeps all its settings |
| `ConfigUpgrade.UpgradeIsClean` | internal/cliapp/config_commands.go:672-877 | defaults then migrations leave an empty report, the Kimi default aside |
| `ConfigUpgrade.UserValuesStay` | internal/cliapp/config_commands.go:672-877 | every user value outside the legacy paths, provider_profiles and providers.custom itself is unchanged |
| `ConfigUpgrade.LegacyValuesArrive` | internal/cliapp/config_commands.go:779-858 | in the upgraded document a moved path holds what stood there or else the first legacy source in table order |
| `ConfigLegacy.PrimaryModelArrives` | internal/cliapp/config_commands.go:51-68 | primary provider, model and context length come from their own path, else from model, else from agent |
| `ConfigLegacy.ApiKeysArrive` | internal/cliapp/config_commands.go:51-68 | each old API key arrives below its own provider |
| `ConfigLegacy.LegacyPathsGone` | internal/cliapp/config_commands.go:51-68 | none of the sixteen old paths is left, by name |
| `ConfigLegacy.NoEmptySection` | internal/cliapp/config_commands.go:790-793 | no empty agent, model or custom section is left |
| `ConfigLegacy.CredentialsFileDefault` | internal/cliapp/config_commands.go:722-762 | a missing credentials path is written as the portable text whatever the loaded one is |
| `ConfigKimi.KimiDefaultSettled` | internal/cliapp/config_commands.go:678-713 | where the defaults step recognises Kimi, the auxiliary model is the document's own or the Kimi one, and nothing is reported afterwards |
| `ConfigKimi.KimiMissedExactly` | internal/cliapp/config_commands.go:672-713 | for a canonical tree loaded from the document, the upgraded document asks for the Kimi default again exactly when neither has an auxiliary model or shows Kimi where the defaults step looks, and Kimi hides under a profile key that resolves to it, or under agent.provider with no primary provider and a model section that is no mapping |
| `ConfigKimi.ModelAfterDefaults` | internal/platform/config/loader.go:1377-1379 | with Kimi under agent.provider the defaults step fills model.provider exactly when the model section is absent or a mapping, since loading copied it there |
| `ConfigKimi.SpelledKimiIsSeen` | internal/platform/config/loader.go:1338-1359 | a profile that sets something under any spelling of the provider's own name is not missed |
| `ConfigKimi.ProviderAfterMigration` | internal/cliapp/config_commands.go:817-846 | a provider entry exists after the migration exactly when it did before or some profile resolves to it |
| `ConfigKimi.AgentKimiIsMissed` | internal/cliapp/config_commands.go:672-713 | Kimi under agent.provider beside a model section without a value is reported again, for every canonical tree loaded from that document without primary provider, Kimi provider or auxiliary model |
| `ConfigKimi.EmptyModelLoads` | internal/platform/config/loader.go:1377-1379 | such a canonical tree exists |
| `ConfigKimi.AliasedKimiIsMissed` | internal/cliapp/config_commands.go:672-713 | so is a document whose only profile sits under another name of the provider, for every canonical tree loaded from it that has no auxiliary model and names Kimi nowhere else |
| `ConfigKimi.AliasLoads` | internal/platform/config/loader.go:1338-1359 | such a canonical tree exists |
| `ConfigUpgrade.InspectConfigUpgrade` | internal/cliapp/config_commands.go:493-523 | the report names exactly the missing defaults, the old paths to move and the ones to drop, and is empty exactly when clean |
| `ConfigDocument.AddMissingMapping` | internal/cliapp/config_commands.go:722-752 | the recursive loop over canonical entries |
| `ConfigDocument.CollectCustom` | internal/cliapp/config_commands.go:795-815 | the list loop collects, for every id, the settings of its first item without the name |
| `ConfigDocument.FileProfiles` | internal/cliapp/config_commands.go:817-846 | the profile loop |
| `ConfigDocument.Document.ApplyConfigMigrations` | internal/cliapp/config_commands.go:779-793 | the rows, the list, the profiles and the pruning, in order |
| `ConfigDocument.Document.Upgrade` | internal/cliapp/config_commands.go:196-198 | the document the upgrade writes is clean for every upgradable input |

## Left out

- SQL text, locking, schema copying and column alignment: only the table effects are modelled.
- Streaming (`StreamChat`, `observeStream`) and `ChatCompletion` of the provider chain: the same walk over positions with other call shapes.
- The circuit store itself (probe leases, probe times) and provider-call telemetry: a circuit answers arbitrarily and receives effects.
- Output-contract circuit of the analyzer: claiming it is a parameter, opening and closing it after an outcome is not modelled; prompt assembly and decoding are parameters.
- Expansion of auxiliary routes before model-change validation, and the classification of probe failures: they only change which routes and texts enter.
- Building candidate clusters and their similarity, the judge call and the governance report file: clusters and answers are given.
- Resources in the Skill package shape check, and Skill delivery budgets: the main file only.
- The kernel agent loop, event forwarding and task contexts of delegation; a batch is modelled against a root whose tools do not change while it runs, and `Stop` marks the host stopped without modelling the cancelled contexts.
- The default toolset filter of the batch host, which delegation never uses.
- Rendering and installing units and plists, log rotation and the daemon's own health checks.
- Loss or tampering of stored prompt revisions and of the record file, and file permissions: stored files stay as written.
- YAML parsing, comments, anchors and node aliasing: `ConfigDocument` reassigns an ordered tree value instead of editing shared nodes, so aliasing between nodes is not captured.
- The configuration loader beyond what `ConfigKimi.Loaded` states of it.
- Credential staging, backups and the atomic write of the configuration upgrade.
- Floating-point rounding: confidences and strengths are reals.
- CLI dispatch, doctor reports, onboarding screens, HTTP clients and eval commands.

# A model of the kitdev sandboxes installer

This project models the parts of the installer whose correctness depends on order, interruption or arithmetic, and
proves what they promise. `dafny verify dfyconfig.toml` checks all of it.

**The journal and the Stage 05 reconciler.** A host (`Hosts`) holds five directories with their modes, a journal directory and
a config directory. The files of the two are kept as names, inodes and link counts (`Folders`), together with what has changed
since the last fsync and what the published name was bound to since then. Each system call is one step. Each step first
consults a list of faults: it passes, it fails with an I/O error, or the process is killed. `JournalStores` publishes and
replaces a record, `SecureTrees` creates and removes the resources, `Stage05` runs them in order, resumes and rolls back.
`Stage05States.Legal` says which machine states runs can leave; `Execute` and `Rollback` keep it on every exit, so a kill at
any step is covered by their contracts. An `Installation` (`Stage05Runs`) is a machine with the runs made on it so far.

A kill leaves whatever was done. A loss of power is modelled on top of that (`PowerLoss`, `JournalRuns`, `Stage05Runs`): the
published name may come back bound to anything it was bound to since the directory was synced, files not synced may lose
their text, and names or modes not synced may be lost, together with everything below a lost directory. Every step keeps the
record that may come back complete and valid, and the roots above it are synced before the first record is published. Three
claims do not hold in general and are stated exactly:

- A temporary file left half written is never cleaned up (`src/kitdev_sandboxes/journal.py:662-669`,
  `src/kitdev_sandboxes/stage05.py:860-878`). `execute` and `rollback` succeed exactly when there is none
  (`ExecuteConverges`, `RollbackConverges`); `TornBlocks` is such a state.
- A load does not sync the directory again (`src/kitdev_sandboxes/journal.py:482-492`). After a kill between the rename and
  the sync, the record that the next run loads may still be lost with the power (`LoadedMayVanish`); it outlives every loss
  exactly if all the name may come back as is that record (`SurvivesExactly`). So the write-ahead rule, that no resource
  exists unless the journal can only come back saying applying (`AheadExactly`), holds on every exit of `execute` exactly
  unless the run starts `Exposed`: the journal shows applying, a loss of power may still take that back, and either a resource
  is there already, or applying is the last published state with no temporary file beside it, so that nothing syncs the
  directory before the first resource is created. `Execute` and `WritesAhead` prove the rule for every other start,
  `ExposedBreaks` that it is broken from every exposed one, and `ExposedState` is one. A machine without an installation is
  not exposed, and neither is one after a successful run.
- A rollback that is resumed after a kill between a removal and the sync of its parent finds the directory gone and does not
  sync the parent again (`src/kitdev_sandboxes/stage05.py:1440-1481`). Its success outlives every loss of power exactly if it
  found no such removal (`RollbackLasts`, `RemovedStays`); `GoneState` is such a removal, and before the first rollback there
  is none.

**API keys** (`ApiKeys`). One local intent file, one local key file and a server that may apply a request whose reply is lost.
Every local publication is one step, before or after which the process may be killed. The journal only advances, no two live
keys ever carry the journaled name, and a rerun converges. A `Lifecycle` is one request with the runs made for it so far.
One failure does not converge: an error reported after the key file was linked makes the handler revoke the key it has just
published (`LateErrorStrands`). A rerun completes exactly where that has never happened (`CreateConverges`).

**Smaller cores.** Tree fingerprints (`Fingerprints`), backup archives (`Archives`), the configuration language
(`YamlText`, `Yaml`, `YamlGrammar`) and its layers (`ConfigLayers`), firewall sources (`FirewallSources`), identity planning
(`Identity`, `IdentityPlans`, `IdentityExamples`), the bounded process runner (`TerminalText`, `Runner`) and restartable
directory publication (`TreePublication`). Three statements about them turn out to need a condition:

- Merging configuration layers is associative exactly where no middle layer puts a leaf between two mappings of which the first
  adds a key to the last, there or below (`AssociativeExactly`, with `NotAssociative`).
- Planning identities again after a partial creation refuses exactly the services that were created in part, and also a
  service that is exactly as planned if the group id of kvm is not known, because then the expected supplementary groups are
  not known (`Replan`, with `UnknownKvmRefused`).
- A plan that nothing blocks is still not returned if the lxd group was not observed at all: an assertion fails
  (`BuildIdentityPlan`, with `PlanningFails`).

Parameters stand for what is not modelled: the Unicode categories of controls, the decoding of captured bytes, the evaluation
of a quoted Python literal, the classification of a network as public, file digests, and the order in which names are sorted.

## Model

| member | source | states |
|---|---|---|
| `JournalRecords.HistoryShape` | src/kitdev_sandboxes/journal.py:67-81 | in every valid history planned, applying, applied and validated occur only at positions 0 to 3, the rest alternates failed and rolling back, and rolled back is last |
| `JournalRecords.AdvanceValid` | src/kitdev_sandboxes/journal.py:209-219 | a record extended by an allowed state is valid exactly below the transition limit |
| `Folders.AfterLink` | src/kitdev_sandboxes/journal.py:693-714 | linking a complete temporary file publishes it with both names on one inode |
| `Folders.AfterUnlink` | src/kitdev_sandboxes/journal.py:693-714 | removing the temporary name leaves whatever is published |
| `Folders.AfterRename` | src/kitdev_sandboxes/journal.py:716-726 | a rename replaces the published file in one step |
| `Folders.Reads` | src/kitdev_sandboxes/journal.py:585-609 | what the names and link counts of a directory tell about the state of its publication |
| `JournalStores.JournalStore.ValidateLinkedCreate` | src/kitdev_sandboxes/journal.py:507-530 | succeeds where exactly one temporary name shares the published inode and record, and returns that name |
| `JournalStores.JournalStore.RecoverLinkedCreate` | src/kitdev_sandboxes/journal.py:494-505 | brings the link count back to 1 without changing the record |
| `JournalStores.JournalStore.LoadAt` | src/kitdev_sandboxes/journal.py:482-492 | returns the published record, and changes nothing but a doubly linked creation, which it completes |
| `JournalStores.JournalStore.InspectResidue` | src/kitdev_sandboxes/journal.py:532-554 | reports exactly the published record, its link count and the residue beside it, or why not |
| `JournalStores.JournalStore.LoadUnpublished` | src/kitdev_sandboxes/journal.py:562-582 | returns the record of a lone complete temporary file, and nothing else |
| `JournalStores.JournalStore.NewTemp` | src/kitdev_sandboxes/journal.py:611-648 | leaves nothing new, a half-written or a complete temporary file; success means written and synced |
| `JournalStores.JournalStore.CleanupStaleTemps` | src/kitdev_sandboxes/journal.py:650-691 | removes a temporary file exactly where it holds an expected record, and keeps what is published |
| `JournalStores.JournalStore.AtomicCreate` | src/kitdev_sandboxes/journal.py:693-714 | from an empty directory every exit leaves absent, draft, linked or published; success is synced |
| `JournalStores.JournalStore.AtomicReplace` | src/kitdev_sandboxes/journal.py:716-726 | every exit leaves the old record, with or without a temporary file, or the new one |
| `JournalStores.JournalStore.CreateAt` | src/kitdev_sandboxes/journal.py:728-742 | publishes exactly an initial record, into an empty directory or over its own unpublished draft; every exit is one of the listed states |
| `JournalStores.JournalStore.TransitionAt` | src/kitdev_sandboxes/journal.py:791-818 | succeeds exactly on a loadable record of the identity, for an allowed next state and cleanable residue; every exit is the old record, its residue, or the next one |
| `JournalRuns.StepGrows` | src/kitdev_sandboxes/journal.py:728-818 | each operation keeps the store's invariant and grows the history by at most one state |
| `JournalRuns.StoreRuns` | src/kitdev_sandboxes/journal.py:366-837 | over any run from an empty directory the final name is absent or holds one valid record, and each history extends every earlier one |
| `JournalRuns.InvariantOnDisk` | src/kitdev_sandboxes/journal.py:482-530 | at most one temporary file; link count 2 only while it is the same inode and holds the initial record |
| `JournalRuns.Perform` | src/kitdev_sandboxes/journal.py:840-940 | one operation of a session, with what it may leave and that a success is on disk |
| `JournalRuns.Operate` | src/kitdev_sandboxes/journal.py:611-742 | after any operations, each failing or killed anywhere, even a loss of power leaves the final name absent or holding a complete valid record no newer than the current one |
| `JournalRuns.GuardedRecoverable` | src/kitdev_sandboxes/journal.py:636-648 | because a file is synced before it is published, whatever the name may come back as is complete and valid |
| `JournalRuns.LoadedMayVanish` | src/kitdev_sandboxes/journal.py:482-487 | after a kill between rename and sync, a loss of power can bring the old record back |
| `PowerLoss.SurvivesLoss` | src/kitdev_sandboxes/journal.py:693-726 | a guarded directory comes back absent or with a valid record, the current or an earlier one |
| `PowerLoss.PublishedGuarded` | src/kitdev_sandboxes/journal.py:693-726 | linking or renaming a synced file that is not older keeps the guard and the write-ahead rule |
| `PowerLoss.SurvivesExactly` | src/kitdev_sandboxes/journal.py:482-492 | what is published outlives every loss of power exactly if every binding the name may come back with holds it |
| `PowerLoss.AheadExactly` | src/kitdev_sandboxes/journal.py:716-726 | every record that can come back says applying exactly if every kept binding does |
| `SecureTrees.SecureTree.CreateDirectory` | src/kitdev_sandboxes/stage05.py:434-469 | absent, provisional or final, and synced with its parent on success |
| `SecureTrees.SecureTree.ValidateDirectory` | src/kitdev_sandboxes/stage05.py:471-494 | succeeds exactly for a present directory of the mode and, where given, the entries |
| `SecureTrees.SecureTree.SyncDirectory` | src/kitdev_sandboxes/stage05.py:496-539 | changes no entry or mode; success means valid and synced with its parent |
| `SecureTrees.SecureTree.SyncMarker` | src/kitdev_sandboxes/stage05.py:541-573 | changes nothing visible; success means the marker's entry and bytes are synced |
| `SecureTrees.SecureTree.RecoverProvisionalDirectory` | src/kitdev_sandboxes/stage05.py:575-623 | finishes the mode change of a directory that is still provisional, and of no other |
| `SecureTrees.SecureTree.PublishMarker` | src/kitdev_sandboxes/stage05.py:707-763 | every exit leaves absent, draft, linked or published; success is published and durable |
| `SecureTrees.SecureTree.RecoverMarkerTemp` | src/kitdev_sandboxes/stage05.py:765-788 | removes a temporary marker exactly where it is complete and expected |
| `SecureTrees.SecureTree.RecoverMarkerResidue` | src/kitdev_sandboxes/stage05.py:790-797 | the same, where the config directory exists |
| `SecureTrees.SecureTree.RemoveMarker` | src/kitdev_sandboxes/stage05.py:882-902 | removes the exact marker and nothing else |
| `SecureTrees.SecureTree.RemoveDirectory` | src/kitdev_sandboxes/stage05.py:904-926 | removes a directory exactly where it is valid and empty, and on success syncs its parent and forgets no other sync |
| `Stage05.Reconciler.AllocateRoots` | src/kitdev_sandboxes/stage05.py:1055-1091 | from every legal state creates or completes the two roots, and is refused by nothing but an injected error |
| `Stage05.Reconciler.SyncPrefix` | src/kitdev_sandboxes/stage05.py:1097-1109 | changes nothing visible; success makes the whole prefix durable, whoever made it |
| `Stage05.Reconciler.PrefixLength` | src/kitdev_sandboxes/stage05.py:1130-1163 | counts an exact prefix, repairs a provisional config directory where allowed, and refuses a marker in flight |
| `Stage05.Reconciler.LoadExact` | src/kitdev_sandboxes/stage05.py:1175-1193 | returns the published record with one link |
| `Stage05.Reconciler.CreateOrLoad` | src/kitdev_sandboxes/stage05.py:1234-1244 | publishes the planned record from every unpublished legal state without a half-written file |
| `Stage05.Reconciler.PublishPlanned` | src/kitdev_sandboxes/stage05.py:1350-1361 | publishes the planned record only over synced roots, and from every unpublished legal state without a half-written file |
| `Stage05.Reconciler.PrepareExistingRecord` | src/kitdev_sandboxes/stage05.py:1256-1308 | drops exactly residue that holds a possible next state, and returns the record unchanged |
| `Stage05.Reconciler.Transition` | src/kitdev_sandboxes/stage05.py:1310-1320 | legal on every exit where the resources fit the next state; a recorded applying is on disk |
| `Stage05.Reconciler.CreateResources` | src/kitdev_sandboxes/stage05.py:1391-1406 | from any durable prefix creates the rest in order, legal at every kill |
| `Stage05.Reconciler.Apply` | src/kitdev_sandboxes/stage05.py:1391-1416 | records applied and validated only with all four resources exact and synced |
| `Stage05.Reconciler.RecordFailed` | src/kitdev_sandboxes/stage05.py:1484-1496 | records failed only from applying and over a clean prefix, and otherwise leaves the published history alone; undisturbed from a published record it refuses only a half-written marker |
| `Stage05.Reconciler.Execute` | src/kitdev_sandboxes/stage05.py:1337-1421 | on every exit legal with grown history, and written ahead exactly from states that are not exposed; undisturbed it succeeds exactly from forward states without half-written files, and then everything is installed; repeating changes nothing |
| `Stage05.Reconciler.RemoveResources` | src/kitdev_sandboxes/stage05.py:1466-1478 | removes the marker, then the directories in reverse, legal at every kill |
| `Stage05.Reconciler.Unwindable` | src/kitdev_sandboxes/stage05.py:1437-1446 | the prefix to roll back, after recovering residue where the record allows it |
| `Stage05.Reconciler.StartRollingBack` | src/kitdev_sandboxes/stage05.py:1452-1465 | records failed before rolling back from planned, and rolling back from every other state |
| `Stage05.Reconciler.Rollback` | src/kitdev_sandboxes/stage05.py:1423-1482 | on every exit legal with grown history; undisturbed it succeeds exactly where a record is published and nothing is half written, and then nothing is left; repeating changes nothing |
| `Stage05Runs.Installation.Perform` | src/kitdev_sandboxes/stage05.py:1337-1496 | one run with any faults, added to the runs made: legal, grown history, and the exact outcome where nothing disturbs it |
| `Stage05Runs.Operate` | src/kitdev_sandboxes/stage05.py:1337-1496 | every interleaving of failed, killed and finished runs keeps the state legal and only extends the history |
| `Stage05Runs.Installation.ExecuteConverges` | src/kitdev_sandboxes/stage05.py:1337-1421 | after any killed runs, one undisturbed run installs everything exactly if they left no temporary file half written |
| `Stage05Runs.Installation.RollbackConverges` | src/kitdev_sandboxes/stage05.py:1423-1482 | after any mix of runs, one undisturbed rollback removes everything exactly if they published a record and left nothing half written |
| `Stage05Runs.Installation.RollbackRepeats` | src/kitdev_sandboxes/stage05.py:1447-1450 | rolling back again succeeds and changes nothing |
| `Stage05Runs.ResourcesFollowJournal` | src/kitdev_sandboxes/stage05.py:1117-1163 | in every legal state the resources are a prefix of the fixed order, none without applying in the history, all four under applied and validated, a clean prefix under failed |
| `Stage05Runs.TornBlocks` | src/kitdev_sandboxes/journal.py:662-669 | what a kill right after opening the journal's first temporary file leaves is legal, and neither operation can succeed from it |
| `Stage05Runs.AppliedSurvives` | src/kitdev_sandboxes/stage05.py:1093-1109 | once applied is recorded, all four resources and the journal directory outlive a loss of power in their exact form |
| `Stage05Runs.Installation.WritesAhead` | src/kitdev_sandboxes/stage05.py:1379-1406 | a run that does not start exposed, stopped anywhere, then a loss of power: a resource exists only if the journal and its directory come back, saying applying; success leaves the next run unexposed too |
| `Stage05Runs.Installation.ExposedBreaks` | src/kitdev_sandboxes/stage05.py:1384-1403 | from every exposed state the rule is broken at the start, or after some step of this run, if it is left alone |
| `Stage05Runs.ExposedState` | src/kitdev_sandboxes/stage05.py:1384-1403 | a legal forward state with a resource from which the journal can come back with the planned record |
| `Stage05Runs.Installation.RollbackLasts` | src/kitdev_sandboxes/stage05.py:1440-1481 | after a successful rollback a loss of power brings no resource back exactly if it found no removal unsynced; so the first rollback lasts |
| `Stage05Runs.RemovedStays` | src/kitdev_sandboxes/stage05.py:904-926 | where no resource is left, none can come back exactly if the removals of the two outer directories are synced |
| `Stage05Runs.GoneState` | src/kitdev_sandboxes/stage05.py:916-921 | a kill between a removal and the sync of the parent leaves a legal state with an unsynced removal that a rollback accepts |
| `ApiKeys.Manager.Verify` | src/kitdev_sandboxes/api_keys.py:500-526 | undisturbed it succeeds exactly where the key file holds a secret the server accepts |
| `ApiKeys.Manager.IssueKey` | src/kitdev_sandboxes/api_keys.py:668-707 | from a fresh intent the key is complete on success, and every other exit is legal and can be rerun exactly if no linked key was revoked |
| `ApiKeys.Manager.PublishIssued` | src/kitdev_sandboxes/api_keys.py:682-706 | an issued key ends complete, or legally interrupted, or revoked again where its file was not published |
| `ApiKeys.Manager.Create` | src/kitdev_sandboxes/api_keys.py:571-707 | legal and advancing on every exit without ever duplicating the name; undisturbed it completes every state that is not stranded, and only a late error of the key file strands one; a complete key sends no request to issue one |
| `ApiKeys.Manager.RevokeJournaled` | src/kitdev_sandboxes/api_keys.py:1086-1112 | the key file goes only after revoked is recorded and the remote key is gone; undisturbed it succeeds exactly for the journaled key |
| `ApiKeys.Manager.Revoke` | src/kitdev_sandboxes/api_keys.py:1079-1118 | refuses without matching confirmation, and to delete a key file without metadata; without metadata it touches nothing but the one remote key |
| `ApiKeys.AtMostOne` | src/kitdev_sandboxes/api_keys.py:606-613 | in a legal state at most one live key carries the journaled name |
| `ApiKeys.Lifecycle.Perform` | src/kitdev_sandboxes/api_keys.py:571-707 | one run with any events, added to the runs made: legal, no name with two live keys, the journal never goes back |
| `ApiKeys.Operate` | src/kitdev_sandboxes/api_keys.py:571-707 | over any runs the state stays legal and no two live keys ever carry one name |
| `ApiKeys.Lifecycle.CreateConverges` | src/kitdev_sandboxes/api_keys.py:571-707 | after any runs of create one undisturbed run completes the key with at most one request to issue it, and another issues nothing, exactly if no handler revoked a key whose file was linked |
| `ApiKeys.Lifecycle.RevokeConverges` | src/kitdev_sandboxes/api_keys.py:1079-1118 | after any runs one undisturbed revoke of the journaled key leaves neither remote key nor key file |
| `ApiKeys.LateErrorStrands` | src/kitdev_sandboxes/api_keys.py:279-304 | a first run whose key file reports an error after it was linked ends stranded, and a rerun refuses |
| `Fingerprints.FingerprintTree` | scripts/control-plane/backup_manifest.py:62-92 | the stack loop hashes the framed fields of the recursive sorted pre-order and counts its nodes, for any order of names and in whatever order directories are listed |
| `Fingerprints.SortedScan` | scripts/control-plane/backup_manifest.py:88-91 | sorting any listing of a directory gives its name order, for any strict total order of names |
| `Fingerprints.PreorderCounts` | scripts/control-plane/backup_manifest.py:62-92 | the pre-order has as many entries as the tree has nodes |
| `Fingerprints.FramedInjective` | scripts/control-plane/backup_manifest.py:69-84 | 8-byte length prefixes make a list of fields uniquely readable |
| `Fingerprints.DecimalInjective` | scripts/control-plane/backup_manifest.py:69-84 | decimal numbers are uniquely readable |
| `Fingerprints.PathBytesInjective` | scripts/control-plane/backup_manifest.py:69-75 | relative paths are uniquely readable, and the root's dot is no other path |
| `Fingerprints.SameTree` | scripts/control-plane/backup_manifest.py:62-92 | a pre-order of paths and metadata determines the tree |
| `Fingerprints.FingerprintInjective` | scripts/control-plane/backup_manifest.py:62-92 | two trees are hashed from the same bytes exactly if they are the same tree |
| `Archives.SafeNameConfined` | scripts/control-plane/backup_manifest.py:145-153 | following an accepted name component by component leads to the compared place, at or below the expected root |
| `Archives.ValidateArchive` | scripts/control-plane/backup_manifest.py:156-181 | accepts exactly archives within the limit whose members are all admissible and of which one is the root |
| `Archives.AcceptedConfined` | scripts/control-plane/backup_manifest.py:156-181 | no accepted member, and no target of its hard links, lies outside the root |
| `YamlText.FindOutsideQuotes` | src/kitdev_sandboxes/config.py:128-147 | the scan with its quote and escape flags finds the first target outside quotes, or the quote left open |
| `YamlText.ScalarRoundTrip` | src/kitdev_sandboxes/config.py:173-198 | the text of a scalar is read back as that scalar |
| `Yaml.ParseBlock` | src/kitdev_sandboxes/config.py:231-268 | the loop that calls itself computes what the block denotes, and ends |
| `Yaml.Tokenize` | src/kitdev_sandboxes/config.py:209-226 | lines to tokens, with the first error of any line |
| `YamlText.SplitJoined` | src/kitdev_sandboxes/config.py:206-208 | splitting a text into lines gives back lines without breaks that were joined |
| `Yaml.ParseYaml` | src/kitdev_sandboxes/config.py:201-275 | the whole parser, from text with its byte and line limits, computes what the document denotes |
| `YamlGrammar.BlockDenotes` | src/kitdev_sandboxes/config.py:231-268 | a parsed block uses exactly the tokens it spans, each once, under one indentation, with distinct keys in every mapping |
| `YamlGrammar.BlockParsed` | src/kitdev_sandboxes/config.py:231-268 | tokens that denote a value are parsed as that value |
| `YamlGrammar.ParsesTheLanguage` | src/kitdev_sandboxes/config.py:201-275 | a text is accepted for a value exactly if it is within the limits and its lines denote that value |
| `Yaml.LinesBack` | src/kitdev_sandboxes/config.py:209-226 | every printed line is read back as its token |
| `YamlGrammar.LayoutDenotes` | src/kitdev_sandboxes/config.py:231-268 | the printed lines of a value denote it |
| `YamlGrammar.RoundTrip` | src/kitdev_sandboxes/config.py:201-275 | printing a configuration within the depth, line and byte bounds with two-space indentation and parsing the text gives it back |
| `ConfigLayers.MergeMappings` | src/kitdev_sandboxes/config.py:301-311 | the loop over the later layer, in any order, computes the merged mapping |
| `ConfigLayers.LayersRead` | src/kitdev_sandboxes/config.py:301-311 | a leaf is read at a path exactly where the later layer has it, or lacks the key and the earlier one has it |
| `ConfigLayers.MergedTwice` | src/kitdev_sandboxes/config.py:301-311 | merging a layer a second time changes nothing |
| `ConfigLayers.MergedAdds` | src/kitdev_sandboxes/config.py:301-311 | merging over a layer gives back the later one exactly if the earlier one has no key that the later one lacks, there or in mappings both have |
| `ConfigLayers.AssociativeExactly` | src/kitdev_sandboxes/config.py:301-311 | merging three layers is associative exactly where nothing resurfaces |
| `ConfigLayers.NotAssociative` | src/kitdev_sandboxes/config.py:301-311 | three layers for which it is not |
| `FirewallSources.NestedOrDisjoint` | scripts/ingress/firewall_source_state.py:97-98 | two aligned blocks overlap exactly if the longer prefix lies within the shorter |
| `FirewallSources.OverlapMeansShared` | scripts/ingress/firewall_source_state.py:97-98 | the overlap test holds exactly where some address lies in both blocks |
| `FirewallSources.ValidateDocument` | scripts/ingress/firewall_source_state.py:56-107 | accepts exactly canonical sources with the overrides they need, strictly increasing and pairwise disjoint |
| `FirewallSources.CheckBackend` | src/kitdev_sandboxes/firewall_sources.py:196-247 | accepts exactly such sources in nondecreasing order and pairwise disjoint |
| `FirewallSources.ValidatorsAgree` | src/kitdev_sandboxes/firewall_sources.py:196-247 | the two validators accept the same lists |
| `FirewallSources.NeighboursSuffice` | scripts/ingress/firewall_source_state.py:89-98 | in key order, comparing neighbours would find every overlap |
| `FirewallSources.OneSourcePerAddress` | scripts/ingress/firewall_source_state.py:56-107 | an address lies in at most one source of an accepted document |
| `FirewallSources.Candidate` | scripts/ingress/firewall_source_state.py:198-224 | add succeeds exactly if the block is listed or disjoint from all others, remove always; both keep validity and mode, and the result is stated |
| `FirewallSources.SortAppended` | scripts/ingress/firewall_source_state.py:216-223 | sorting a valid list with one more block puts that block at its rank |
| `FirewallSources.SplicedValid` | scripts/ingress/firewall_source_state.py:198-224 | adding a disjoint block keeps a document valid |
| `FirewallSources.WithoutValid` | scripts/ingress/firewall_source_state.py:198-224 | removing keeps a document valid |
| `FirewallSources.AddThenRemove` | scripts/ingress/firewall_source_state.py:198-224 | adding an unlisted block and removing it restores the list |
| `Identity.Allocate` | src/kitdev_sandboxes/identity.py:357-364 | succeeds exactly if enough IDs are free, and gives the least free ones |
| `Identity.LeastFreeUnique` | src/kitdev_sandboxes/identity.py:357-364 | there is only one way to be the least free IDs |
| `Identity.ManifestMapping` | src/kitdev_sandboxes/identity.py:367-410 | refuses exactly the mappings that break the reserved ID contract, and orders the others by service |
| `Identity.MappedUnchanged` | src/kitdev_sandboxes/identity.py:367-410 | a valid mapping in service order passes unchanged |
| `IdentityPlans.Index` | src/kitdev_sandboxes/identity.py:548-569 | the first relevant fact of each name, and exactly the relevant names seen twice |
| `IdentityPlans.CheckServices` | src/kitdev_sandboxes/identity.py:572-622 | reports exactly the services not observed and those that exist otherwise than promised |
| `IdentityPlans.ChooseIds` | src/kitdev_sandboxes/identity.py:637-719 | the manifest's IDs or the least free ones, and exactly what is wrong with them |
| `IdentityPlans.BuildIdentityPlan` | src/kitdev_sandboxes/identity.py:509-754 | every issue is reported exactly under its condition, any issue suppresses all actions, and an unobserved lxd group fails an assertion where nothing blocks |
| `IdentityPlans.FirstFreeMapped` | src/kitdev_sandboxes/identity.py:696-719 | the IDs of a first-free plan are vacant and distinct, and pass the manifest check unchanged |
| `IdentityPlans.Replan` | src/kitdev_sandboxes/identity.py:509-754 | after any accounts and groups of a plan were created as planned, planning with the recorded IDs refuses exactly the services created in part, and is otherwise the same plan |
| `IdentityExamples.PlanningFails` | src/kitdev_sandboxes/identity.py:749-750 | a host on which nothing blocks and planning fails |
| `IdentityExamples.UnknownKvmRefused` | src/kitdev_sandboxes/identity.py:596-622 | a service created exactly as planned that is refused because the group id of kvm is unknown |
| `TerminalText.NormalizeTerminalText` | src/kitdev_sandboxes/runner.py:496-518 | emits the escaped pieces of the longest prefix that fits, and says whether anything was cut |
| `TerminalText.LongestOfAll` | src/kitdev_sandboxes/runner.py:496-518 | no longer prefix would fit |
| `TerminalText.NormalizedSafe` | src/kitdev_sandboxes/runner.py:474-518 | no control character is emitted but newlines that are kept, and the limit holds |
| `TerminalText.NormalizedUnique` | src/kitdev_sandboxes/runner.py:496-518 | the promise determines the result |
| `TerminalText.FixedPoint` | src/kitdev_sandboxes/runner.py:496-518 | normalising again under the same settings changes and cuts nothing |
| `TerminalText.NormalizeArgv` | src/kitdev_sandboxes/runner.py:521-534 | each argument gets what the earlier ones left over, and all of them stay within the total |
| `Runner.StreamAccumulator.Add` | src/kitdev_sandboxes/runner.py:191-195 | keeps the first bytes up to the limit and counts the rest |
| `Runner.StreamAccumulator.Evidence` | src/kitdev_sandboxes/runner.py:200-214 | safe text of what was captured, marked truncated exactly if anything is missing |
| `Runner.CaptureIgnoresChunks` | src/kitdev_sandboxes/runner.py:184-214 | what is captured depends on the bytes, not on how they were cut |
| `Runner.Timers` | src/kitdev_sandboxes/runner.py:340-364 | SIGTERM at the deadline, SIGKILL a grace period later, the hard bound a second after that, each once |
| `Runner.EndPipe` | src/kitdev_sandboxes/runner.py:398-413 | a pipe that ended is dropped, or kept where that fails, and the end of the last one kills the group once |
| `Runner.ReadReady` | src/kitdev_sandboxes/runner.py:385-413 | only this pipe is read; it stays open unless it ended or broke, and only the end of the last output sends SIGKILL |
| `Runner.ReapProcess` | src/kitdev_sandboxes/runner.py:573-589 | a child that has not exited is killed once more, any other is not signalled; an unconfirmed signal or a missing exit code is reported |
| `Runner.Supervise` | src/kitdev_sandboxes/runner.py:339-413 | the loop ends if only the clock advances, either with all pipes closed and the child gone, or at the hard bound |
| `Runner.Classify` | src/kitdev_sandboxes/runner.py:592-610 | success exactly for code 0 without timeout, I/O or cleanup error |
| `Runner.Start` | src/kitdev_sandboxes/runner.py:230-304 | a child is started with fresh pipes, or the inspection or launch that failed is named and nothing is signalled; nothing is launched where the directory is none |
| `Runner.Run` | src/kitdev_sandboxes/runner.py:227-457 | every exit of a started child has sent SIGKILL to its group, SIGTERM was sent exactly on timeout and not before the deadline, every byte read is captured or counted, success means both pipes were read to their end, and a child not started is reported by what was found |
| `TreePublication.Entries` | scripts/control-plane/publish-template-dirs.py:53-65 | the flat map of everything below a directory, or nothing where there is a link or special file |
| `TreePublication.FilesEqual` | scripts/control-plane/publish-template-dirs.py:68-83 | comparing block by block decides equality of contents |
| `TreePublication.SamePathsSameTree` | scripts/control-plane/publish-template-dirs.py:86-111 | trees with the same status and contents at every path are the same tree |
| `TreePublication.TreesEqual` | scripts/control-plane/publish-template-dirs.py:86-111 | the comparison of flat maps and contents is equality of trees of directories and files |
| `TreePublication.Publisher.PublishOne` | scripts/control-plane/publish-template-dirs.py:156-169 | the staged tree is moved, or an equal one was there already; nothing else changes |
| `TreePublication.Publisher.Publish` | scripts/control-plane/publish-template-dirs.py:145-170 | existing targets never change, no staged tree is lost, targets gained were synced before, and undisturbed it succeeds exactly if every name is admissible and publishable |
| `TreePublication.Restart` | scripts/control-plane/publish-template-dirs.py:145-170 | after any stopped publications of the same trees, one left alone succeeds exactly if the first would have, with the same targets |

## Left out

- Ownership, extended attributes, mount ids, ancestry and "changed while read" checks: no outside interference is assumed, and only the modes and link counts that recovery branches on are kept.
- The lock and the closed and shared states of `JournalSession`: one caller at a time is assumed.
- Several installs in one journal directory: the model has one record name.
- Text limits, secret patterns, hashes and the JSON encoding of journal records, and the short writes of a partial write loop: a file is half written or whole.
- JournalRuns.Operate: after a loss of power nothing is said of temporary names, so recovery from several temporary files that came back at once is not modelled.
- Runs after a loss of power: what it may bring back is characterised, but no run of the installer starts from that.
- `refuse_production`, its unit and socket probes: any of them may refuse, with no reason modelled.
- `observe`, `validate_marker_residue` and shared loads of Stage 05, which only look and change nothing.
- ApiKeys.Manager.Create: a stop between the link and the unlink of a local publication is not modelled, because each local publication is one step.
- Limits on key listings, malformed replies and the mask fields of a key.
- Fingerprints.FingerprintInjective: speaks of the bytes that are hashed, not of SHA-256, and of fields shorter than 2^64 bytes.
- The error reasons of unreadable tar files in `validate_archive`.
- YamlGrammar.RoundTrip: strings are printed in single quotes, without quotes, backslashes, line breaks or NUL, as far as the literal evaluator reads those back; Python's limit on integer digits is not modelled.
- Validation of the merged configuration against its schema.
- The parsing of CIDR text: a source is the canonical text of a network, another spelling, or garbage.
- Reading, writing and locking of the firewall source file, and the rest of the backend's reply.
- The order, wording and hash of identity plans: issues are a set, actions are in the order they are built.
- Discovery of identity facts from the account databases.
- Runner.Run: times are whole nanoseconds of a clock that advances whenever it is read; the duration and the wording of messages are left out.
- Short reads of regular files and errors while comparing trees in `TreePublication.TreesEqual`, and the slashes that join the keys of its flat map.
- Loss of power during directory publication; only which trees were synced before they were renamed is tracked.
- The control-plane state machine for template publication, stage 10 commands, collectors, preflight text, rendering and the command line.

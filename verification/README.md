# Lanverse backend: a verified model

Lanverse is a workspace for producing drama series. Its Go backend keeps a project's story bible, canvas documents,
media library, budgets and native media jobs, and can copy a whole project into another one. This project models
six parts of that backend in Dafny and proves what their design depends on.

* **Story bible** (`Bible*.dfy`). Characters, locations and props are entries with an immutable chain of versions,
  confirmations, merge redirects and splits. `BibleCommands` says what each change does to the recorded history,
  `BibleStore` does it step by step in a transaction, `BibleInvariant` and `BibleRuns` carry one invariant through
  every run of commands, `BibleEffects` says what no run ever does to what was recorded, and `BibleMerges` and
  `BibleLongChain` how long redirect chains get. `BibleOutcomes` tells, field by field, what each action leaves and
  what its receipt answers, and `BibleGuards` exactly when it succeeds and which error it gives otherwise.
  `BibleValidator` is the closed-world check that a history has to pass before it is copied; `BibleRename`,
  `BibleRemap`, `BibleScopes` and `BibleManifest` copy it into another project under new identities, `BibleCopied`
  tells the copy field by field, and `BibleCharacters` reads it.
* **Canvas** (`Canvas*.dfy`). A document is a graph of nodes, edges, a forest of groups and references held inside
  timeline, director and batch-table configurations. `CanvasChecks` holds the validators and `CanvasCommands` the
  commands as functions on values. In `CanvasHeap` configurations are objects with arrays that documents may share, and
  `CanvasDraft` applies commands to a working copy of such a document without writing to anything the document refers
  to. `CanvasOutcomes` tells what each command leaves and `CanvasRefusals` which are refused; `CanvasGraph`,
  `CanvasDelete`, `CanvasRuns` and `CanvasUndo` say what commands keep. `CanvasCopy`, `CanvasCopied`, `CanvasRebuild`
  and `CanvasProjectCopy` treat the copy of a whole document.
* **Object transfer and purge** (`Transfer*.dfy`, `Purge.dfy`). Bytes move between keys of an object store, and leave
  it, under durable receipts. Every call to the store or to the receipts may fail before or after taking effect, or be
  the last one before a crash; writes and removals without an answer may land later, and bytes of other origin may sit
  at a target or appear there at any time. `TransferWorld` has the state and its invariant, `TransferPorts` the calls,
  `TransferObject`, `TransferItem`, `TransferCleanup` and `TransferWorker` the worker, and `TransferRuns` what holds over
  any number of runs. The flag `smooth` of a world says that nothing failed so far, and the same contracts say what must
  then come out.
* **Depth jobs** (`Depth.dfy`). The execution fence that keeps one native process per job.
* **Budgets** (`Budget.dfy`). 64-bit money, reservations, and a ledger that states what they conserve.
* **Smaller cores** (`Library*.dfy`, `PackagePlan.dfy`, `Voices.dfy`, `LoginGuard.dfy`). The folder forest and its copy,
  the closure of a package plan, paging through voices, and the login failure window.

`Common.dfy` holds options and results, identities, and tables of rows by identity.

Conventions. An identity is a natural number and 0 is the nil one. Identities derived by name (section 5.5 of RFC 9562)
are injective functions that never give nil, and hashes are injective. Methods follow the loops and updates of the
source and are proved equal to a function or equivalent to a declarative predicate; the lemmas are about those. The
identities of a command and the answers of other services during it are parameters, as is the clock.

Four results show where the code does not do what one might expect, each with the exact condition:

* A merge sets no bound on redirect chains but the copy validator rejects chains over 32 steps: merging n characters in
  a row always works, and can be copied exactly if n is at most 32 (`BibleLongChain.LongMergeRun`). After any run a
  history is accepted exactly when no chain is longer (`BibleRuns.RunAccepted`), which is when every merge had room
  (`BibleMerges.AcceptedIffRoom`).
* Scope mappings that send two scopes of a look to one target are accepted by themselves but fail the copy
  (`BibleScopes.AcceptedScopesCollide`). It succeeds exactly when they stay apart (`BibleManifest.RenamedValidIff`),
  which the mappings of the script module always do (`BibleScopes.PlannedScopesKept`): only another implementation of
  that port can give such mappings.
* `Apply` allows 4000 edges, a document copy only 2000. Every graph of user content alone is the result of one `Apply`
  (`CanvasRebuild.UserGraphDrawn`), and with its viewport in range can be copied exactly within the lower bound
  (`CanvasRebuild.UserGraphCopied`).
* A removal that got no answer may land after a later run has published the object, which then loses its bytes
  (`TransferRuns.PublishedBytesLost`). Published bytes stay exactly if no such removal is outstanding
  (`TransferRuns.PublishedStaysIff`).

`dafny verify dfyconfig.toml` checks everything.

## Model

| member | source | states |
|---|---|---|
| BibleValidator.ValidateCopyHistory | backend/internal/bible/application/project_copy_history.go:105-260 | accepts exactly the histories that are valid as a closed world (unique non-nil identities over six tables, contiguous version chains, look ownership, confirmation closure, recorded and short redirect chains, splits), and the counts it returns are the row-by-row tallies |
| BibleValidator.CheckChain | backend/internal/bible/application/project_copy_history.go:176-195 | sorting an entry's versions by number and checking neighbours accepts exactly the gap-free chains that lead from version 1 to the current version within the revision |
| BibleValidator.LinkedIsChain | backend/internal/bible/application/project_copy_history.go:176-195 | a list of an entry's versions in which each position links to the one before is a chain in the order-free sense: one version per number, previous links one number down, current the last |
| BibleValidator.ChainIsLinked | backend/internal/bible/application/project_copy_history.go:176-195 | conversely every chain, sorted by number, passes the neighbour-by-neighbour check |
| BibleValidator.CheckRedirectChain | backend/internal/bible/application/project_copy_history.go:240-248 | following redirects with a set of visited entries fails exactly when the chain from the start does not end within 32 steps; the visited set never rejects a chain that ends |
| BibleValidator.CycleNeverStops | backend/internal/bible/application/project_copy_history.go:240-248 | a redirect cycle does not end within any number of steps |
| BibleValidator.CheckConfirmations | backend/internal/bible/application/project_copy_history.go:196-216 | confirmations are accepted exactly when each is of a recorded version of its entry, no (entry, revision) pair repeats, and identities are new |
| BibleValidator.CheckVersions | backend/internal/bible/application/project_copy_history.go:144-172 | versions are accepted exactly when each is valid, belongs to a head of its kind and only uses looks that its entry owns; the used looks and counts are those of the rows |
| BibleHistory.ValidReordered | backend/internal/bible/application/project_copy_history.go:30-92 | validity does not depend on the order of rows in any table |
| BibleHistory.CountsReordered | backend/internal/bible/application/project_copy_history.go:30-92 | counts do not depend on the order of rows |
| BibleRemap.CanonicalValid | backend/internal/bible/application/project_copy_history.go:30-92 | the canonical order of a history is valid exactly when the history is, with the same counts |
| BibleRemap.CanonicalUnique | backend/internal/bible/application/project_copy_history.go:30-102 | two histories with the same rows in any order have the same canonical form, so the order of rows in the database never shows |
| BibleContent.ValidateCharacter | backend/internal/bible/domain/content.go:236-287 | a character is accepted exactly when its labels, every look, look identities, the single default look and the voice obey their declarative rules |
| BibleContent.ValidateLooks | backend/internal/bible/domain/content.go:241-282 | the default counter and seen map accept exactly lists with distinct look identities and one default |
| BibleContent.ValidateScopes | backend/internal/bible/domain/content.go:261-278 | scopes are distinct as (episode, scene) pairs with absent scenes keyed as nil, and no identity is nil |
| BibleContent.ValidateReferences | backend/internal/bible/domain/content.go:254-260 | references are accepted exactly with known, distinct roles and valid image facts |
| BibleContent.ValidateLabels | backend/internal/bible/domain/content.go:216-233 | aliases are bounded in number and distinct |
| BibleContent.ValidateVersion | backend/internal/bible/domain/version.go:65-100 | a version is valid exactly when its one content fits its kind, its recorded hash is the hash of that content, and its provenance matches its origin |
| BibleStore.Store.Change | backend/internal/bible/application/service.go:25-148 | one transaction: a replay returns the recorded receipt and changes nothing, a reused key with other content is refused, a failure leaves every table as it was, and a success records the history and receipt that EditOutcome, CreationOutcome, RecordsOutcome, SplitOutcome and ReceiptOutcome tell field by field; SucceedsIff says when |
| BibleStore.Store.ChangeEntry | backend/internal/bible/application/service.go:54-147 | loading, revision check, branching by action and the head update together produce the specified history or the specified error |
| BibleStore.Store.Create | backend/internal/bible/application/service.go:46-98 | creation inserts the head, its first version and the rows of its looks, or refuses invalid content and looks of other entries |
| BibleStore.Store.Publish | backend/internal/bible/application/service.go:75-98 | an edit is published only if its dependencies hold, its content is valid and its looks are its own |
| BibleStore.Store.InsertVersion | backend/internal/bible/adapter/postgres/versions.go:107-173 | a version is inserted exactly if it is valid and no look of it belongs to another entry; a row is added for each look identity that appears for the first time |
| BibleStore.Store.UpdateHead | backend/internal/bible/adapter/postgres/store.go:173-183 | the head is replaced exactly if it still has the expected revision |
| BibleStore.Store.MergeCharacter | backend/internal/bible/application/identity_changes.go:13-36 | a merge needs both characters confirmed at their current versions and the target live at the expected revision; it records one redirect |
| BibleStore.Store.SplitCharacter | backend/internal/bible/application/identity_changes.go:38-60 | a split creates a character with its own first version and default look and records where it came from |
| BibleStore.Store.ChangeStatus | backend/internal/bible/application/service.go:99-117 | confirm, delete and restore do what their head and confirmation rows say, and restore needs a deleted entry |
| BibleStore.ChangeVersion | backend/internal/bible/application/service.go:185-335 | the in-place edits of labels, looks, references and voice give the specified content or error |
| BibleStore.EditCharacter | backend/internal/bible/application/service.go:185-290 | the look and voice actions, step by step on a copy of the character, give the content that CharacterEdited tells field by field (EditOutcome), or the error of EditRefused |
| BibleStore.Resolve | backend/internal/bible/application/service.go:236-250 | references resolve in order and the first failure decides the error |
| BibleInvariant.EntryAddedInv | backend/internal/bible/application/service.go:46-98 | inserting a head with its first version keeps the history invariant |
| BibleInvariant.VersionAddedInv | backend/internal/bible/application/service.go:62-98 | publishing a further version keeps the history invariant, including chain contiguity and look ownership |
| BibleInvariant.ConfirmationAddedInv | backend/internal/bible/application/service.go:100-107 | a confirmation keeps confirmation closure and one confirmation per revision |
| BibleInvariant.RedirectAddedInv | backend/internal/bible/application/identity_changes.go:13-36 | a merge keeps redirects recorded, confirmed at both ends and ordered so that no cycle can arise |
| BibleInvariant.SplitAddedInv | backend/internal/bible/application/identity_changes.go:38-60 | a split record keeps the invariant |
| BibleInvariant.MovedOnInv | backend/internal/bible/application/service.go:62-63 | raising a revision keeps the invariant |
| BibleRuns.ChangeKeepsInv | backend/internal/bible/application/service.go:25-148 | every successful change, whatever its action, keeps the invariant, given fresh identities and a clock that does not go back |
| BibleRuns.RunKeepsInv | backend/internal/bible/application/service.go:25-148 | so does every run of commands from the empty history, failures and requests under keys that were answered before included |
| BibleRuns.RunAccepted | backend/internal/bible/application/project_copy_history.go:105-260 | the history after any run is accepted for copying if and only if no redirect chain takes more than 32 steps |
| BibleRuns.RunChainsStop | backend/internal/bible/application/identity_changes.go:13-36 | after any run redirects have no cycle, and with at most 32 merges the history is always accepted |
| BibleMerges.MergeKeepsShort | backend/internal/bible/application/identity_changes.go:13-36 | a successful merge command keeps every chain within the bound exactly if all were before and none of 32 redirects leads to the merged entry, which can be checked before merging |
| BibleMerges.AcceptedIffRoom | backend/internal/bible/application/identity_changes.go:13-36 | the history after a run is accepted for copying if and only if every merge of the run that took effect had that room when it ran |
| BibleLongChain.LongMergeRun | backend/internal/bible/application/project_copy_history.go:240-248 | for every n a run of requests, each of which takes effect under a key of its own, merges n characters in a row; its history has n redirects and is accepted exactly if n is at most 32 |
| BibleEffects.ChangeAppends | backend/internal/bible/application/service.go:25-148 | a change only appends to versions, looks, confirmations, redirects and splits, touches no other entry, and moves its own entry on by one revision in the one field its action names |
| BibleEffects.EditFollows | backend/internal/bible/application/service.go:62-98 | an edit publishes one version that names the former current one as previous, has the next number, the edited content and the actor, and becomes current |
| BibleEffects.DeleteThenRestore | backend/internal/bible/application/service.go:108-117 | a deleted entry can be restored, which gives the history back as it was but for the revision and the time of the entry |
| BibleEffects.DeletedRefuses | backend/internal/bible/application/service.go:59-61 | a deleted entry refuses every command but restore |
| BibleEffects.RunOnward | backend/internal/bible/application/service.go:25-148 | through any continuation of any run recorded rows stay in place unchanged and no entry goes back a revision |
| BibleEffects.OneWinner | backend/internal/bible/application/service.go:55-63 | of two commands that expect the same revision of an entry at most one ever succeeds, whatever happens between them |
| BibleEffects.StaleNeverSucceeds | backend/internal/bible/application/service.go:55-63 | a command that expects an outdated revision never succeeds at any later time |
| BibleEffects.MergedStays | backend/internal/bible/application/service.go:55-63 | a merged entry keeps its redirect, version and revision for ever |
| BibleOutcomes.EditOutcome | backend/internal/bible/application/service.go:62-98 | an edit publishes content that differs from the current one exactly as its action says: Update and AdoptResult give the labels, VoiceBind and VoiceUnbind the voice, LookCreate appends one look without references, LookUpdate gives the four fields of one look and keeps its references, LookDelete drops one look, LookDefault moves the default flag, References gives the roles and assets of one look in request order; everything else is as it was, and the look rows are those of the new looks |
| BibleOutcomes.CreationOutcome | backend/internal/bible/application/service.go:46-53 | a creation adds one new head with its first version, which has the given labels or those of the named result and, for a character, one empty default look; nothing else changes but look rows |
| BibleOutcomes.RecordsOutcome | backend/internal/bible/application/identity_changes.go:13-60 | a confirmation, redirect or split is recorded by its own action only, with the identities, the version, the revision, the actor and the time that it is about |
| BibleOutcomes.SplitOutcome | backend/internal/bible/application/identity_changes.go:38-60 | a split adds one new character with its own first version and empty default look |
| BibleOutcomes.ReceiptOutcome | backend/internal/bible/application/service.go:139-147 | the receipt of a success tells of its entry the revision, current version, number, digest, confirmed version and redirect that the new history has, and the entry and version that a split created, if and only if it was one |
| BibleGuards.EditedOnce | backend/internal/bible/application/service.go:185-335 | what an action asks of an edit can be met by one content only |
| BibleGuards.SucceedsIff | backend/internal/bible/application/service.go:25-148 | in a history of the invariant a command succeeds if and only if a condition on the tables and answers holds: its entry is there at the expected revision and in a state for the action, what it names exists, dependencies and impact allow it, and the edit it asks for is possible and valid |
| BibleGuards.EntryRefused | backend/internal/bible/application/service.go:25-63 | which of invalid content, not found and conflict is given, by the shape of the command and the state of its entry |
| BibleGuards.StatusRefused | backend/internal/bible/application/service.go:99-117 | which error confirm, delete, restore, merge and split give, in the order of their checks |
| BibleGuards.EditRefused | backend/internal/bible/application/service.go:62-98 | which error an edit gives: that of what it names if the edit is impossible, unavailable if its dependencies fail, and else invalid content |
| BibleRemap.CopyReferenceMap | backend/internal/bible/application/project_copy_remap.go:205-226 | reference mappings are accepted exactly when they are one row per media fact the history uses, with distinct sources, other targets and the same bytes |
| BibleRemap.CopyScopeMap | backend/internal/bible/application/project_copy_remap.go:228-250 | scope mappings are accepted exactly when they are one row per scope the history uses, with distinct sources and a scene exactly where the source has one |
| BibleRename.ValidRenamed | backend/internal/bible/application/project_copy_remap.go:85-203 | renaming every identity of a valid history injectively into another project gives a valid history, if its content carries over |
| BibleRename.VersionRenamed | backend/internal/bible/application/project_copy_remap.go:128-154 | a renamed version is valid exactly when the scopes of each of its looks stay distinct |
| BibleRename.ChainRenamed | backend/internal/bible/application/project_copy_remap.go:128-154 | version chains survive renaming |
| BibleRename.StopsRenamed | backend/internal/bible/application/project_copy_remap.go:166-173 | redirect chains have the same length after renaming |
| BibleRename.CountsRenamed | backend/internal/bible/application/project_copy_remap.go:182-189 | renaming leaves all fifteen counts as they are |
| BibleManifest.RenamedValidIff | backend/internal/bible/application/project_copy_remap.go:85-203 | with accepted mappings the renamed history is valid if and only if the scope mapping keeps the scopes of each look apart, which copyScopeMap itself does not ask for |
| BibleScopes.AcceptedScopesCollide | backend/internal/bible/application/project_copy_remap.go:228-250 | a valid history, with one look worn in two episodes, and accepted mappings that send both to one, so that its copy is refused whatever the new identities are |
| BibleScopes.PlannedScopesKept | backend/internal/script/application/project_copy_scopes.go:45-56 | scopes mapped by names derived from the job, as the script module does, stay apart in every look of a valid history, so no copy is refused over them |
| BibleManifest.CopyValid | backend/internal/bible/application/project_copy_remap.go:85-203 | the same for the canonical target, with counts equal to the source's |
| BibleManifest.CopyHistory | backend/internal/bible/application/project_copy_remap.go:105-181 | the indexed loops that overwrite identities compute the renaming, and list every head and version with its new identity, unless renamed content is refused |
| BibleManifest.CopyVersions | backend/internal/bible/application/project_copy_remap.go:128-154 | versions, their previous links, looks, references, scopes, sample voices and hashes are renamed together; it stops exactly if some renamed content is not valid |
| BibleManifest.ContentsIff | backend/internal/bible/application/project_copy_remap.go:147-153 | for a valid source renamed content is refused exactly when two scopes of one look are mapped to the same scope |
| BibleManifest.ManifestIgnoresOrder | backend/internal/bible/application/project_copy_remap.go:85-203 | the manifest does not depend on the order in which the source rows were read |
| BibleManifest.RemapProjectHistory | backend/internal/bible/application/project_copy_remap.go:85-203 | succeeds exactly on a valid source with accepted mappings that keep scopes apart; its target is then the renamed history in canonical order, whose fields ManifestOutcome tells one by one, and valid for the target project; the error tells a bad request, a corrupt source and refused content apart, each exactly |
| BibleCopied.ManifestOutcome | backend/internal/bible/application/project_copy_remap.go:105-181 | the source of a manifest has the rows that were read, and its target one row for each: kinds, revisions, deleted flags, times, actors, numbers, origins, results, labels, look texts, default flags, roles and voice settings are equal, every identity is the mapped one, media and scopes are the mapped ones, and both are in order |
| BibleCopied.CountsAre | backend/internal/bible/application/project_copy_history.go:105-175 | what each of the fifteen counts counts: heads, versions and confirmations by kind, look rows, looks, references, sample voices, redirects and splits |
| BibleCharacters.ResolveCopyCharacters | backend/internal/bible/application/project_copy_characters.go:20-71 | succeeds exactly when the source is valid and every requested pin is distinct and known; the answers keep the order of the requests |
| BibleCharacters.PinIsRenamed | backend/internal/bible/application/project_copy_characters.go:20-71 | for a manifest made by remapping, a pin is accepted exactly if it names a character (and a confirmed version of it) in the source, and its answer is the renamed pin |
| BibleCharacters.ResolvedInTarget | backend/internal/bible/application/project_copy_characters.go:20-71 | every answer names a character of the target and a confirmed version that belongs to it; nil versions stay nil |
| BibleCharacters.FollowThenRename | backend/internal/bible/application/project_copy_characters.go:20-71 | following redirects in the source and then renaming gives the same character as renaming and then following them in the target |
| BibleCharacters.ChainEndRenamed | backend/internal/bible/application/project_copy_remap.go:166-173 | each step of a redirect chain commutes with renaming |
| CanvasChecks.ValidTimeline | backend/internal/canvas/domain/timeline.go:80-132 | a timeline is accepted exactly when tracks and clips have distinct identities, each clip is on a track of its kind, timing rules hold and no two clips of a track overlap |
| CanvasChecks.CheckLanes | backend/internal/canvas/domain/timeline.go:114-129 | sorting each track by start and comparing neighbours detects exactly the overlaps between any two clips |
| CanvasChecks.SortedApart | backend/internal/canvas/domain/timeline.go:114-129 | in a list sorted by start all pairs are apart if and only if neighbours are |
| CanvasChecks.ValidDirector | backend/internal/canvas/domain/director.go:226-279 | a scene is accepted exactly when objects, cameras, lights and shots have distinct identities, cameras follow and look at objects of the scene, and shots use its cameras |
| CanvasChecks.ValidShots | backend/internal/canvas/domain/director_outputs.go:60-82 | screenshot identities are distinct over all shots together and bounded in number |
| CanvasChecks.ValidBatch | backend/internal/canvas/domain/batch_table.go:41-68 | columns and rows have distinct identities and every row has one slot per column |
| CanvasChecks.ValidGeneration | backend/internal/canvas/domain/generation.go:29-40 | inputs are bounded, named and refer to an asset each |
| CanvasChecks.ValidConfig | backend/internal/canvas/domain/document.go:371-400 | a node has exactly the configuration of its kind, and that one is valid |
| CanvasChecks.ValidToolReferences | backend/internal/canvas/domain/batch_table.go:91-119 | accepted exactly when every node reference in every configuration resolves to a media node of the right kind and agrees with the asset beside it |
| CanvasChecks.Visit | backend/internal/canvas/domain/document.go:406-425 | the coloured recursion answers whether the chain of parents from a node ends, blackens what it finished, and terminates because every call colours one more node |
| CanvasChecks.ValidParents | backend/internal/canvas/domain/document.go:401-432 | true exactly when every parent is a resource group of the document and no chain of parents is cyclic |
| CanvasChecks.CycleNotRooted | backend/internal/canvas/domain/document.go:406-425 | a node on a cycle of parents reaches no root in any number of steps |
| CanvasDraft.Apply | backend/internal/canvas/domain/document.go:138-154 | the whole batch succeeds with what CommandOutcome tells of each command in turn, or fails with the error and index of RefusedIff and FailureIndex; no object that existed before is written, so the input document with the timelines, scenes and tables it refers to keeps its value, and so do the commands |
| CanvasDraft.Draft.ApplyOne | backend/internal/canvas/domain/document.go:155-337 | each command leaves the working copy in exactly the specified state or gives the specified error |
| CanvasOutcomes.CommandOutcome | backend/internal/canvas/domain/document.go:155-337 | what each command leaves, attribute by attribute: added nodes and edges as given, a move with the position it gives, a rename, resize, layer or parent with that attribute, an update with the configuration it gives, the viewport as set, a deletion without the named nodes and what referred to them; every other attribute, node and edge stays |
| CanvasRefusals.RefusedIff | backend/internal/canvas/domain/document.go:155-337 | a command is refused with a given error if and only if its size, its first faulty row or the graph it would give says so |
| CanvasRefusals.FailureIndex | backend/internal/canvas/domain/document.go:138-154 | the index of a failing batch is that of the first command that is refused or leaves an unsound graph, after all before it took effect |
| CanvasDraft.Draft.Delete | backend/internal/canvas/domain/document.go:270-297 | reference clearing, filtering, the checks for business edges and protected children, and detaching together give the specified deletion, writing to new configurations only |
| CanvasDraft.RemoveNodes | backend/internal/canvas/domain/document.go:283-296 | the passes over timelines, scenes, tables and parents, each on new configurations, leave exactly the nodes that the deletion specifies, or stop at a protected child |
| CanvasDraft.DeletedInSteps | backend/internal/canvas/domain/document.go:283-296 | clearing in three passes, filtering and detaching in sequence is the one-step deletion of each node |
| CanvasDraft.Draft.Edit | backend/internal/canvas/domain/document.go:187-260 | the five row commands edit each named, unprotected node once and refuse a batch with any other row |
| CanvasDraft.Draft.Join | backend/internal/canvas/domain/document.go:298-313 | edges are joined only between editable nodes of the document and under new identities |
| CanvasDraft.Draft.Cut | backend/internal/canvas/domain/document.go:314-329 | only annotation edges are cut |
| CanvasDraft.ClearClips | backend/internal/canvas/domain/timeline.go:155-176 | written in place into the given array: a clip whose node goes away keeps the asset the node stood for |
| CanvasDraft.ClearedTimeline | backend/internal/canvas/domain/timeline.go:155-176 | the cleared timeline is a new object with a new array of clips; nothing that existed, such as the timeline the input document shares, is written |
| CanvasDraft.ClearObjects | backend/internal/canvas/domain/director.go:351-372 | written in place into the given array: an object whose node goes away keeps the asset the node stood for |
| CanvasDraft.ClearedDirector | backend/internal/canvas/domain/director.go:351-372 | the cleared scene is a new object with a new array of objects; nothing that existed is written |
| CanvasDraft.ClearSlots | backend/internal/canvas/domain/batch_table.go:121-138 | written in place into the given array: slots of removed nodes become empty, all other slots stay |
| CanvasDraft.ClearedBatch | backend/internal/canvas/domain/batch_table.go:121-138 | the cleared table is a new object; nothing that existed, the rows of the old table and their slots included, is written |
| CanvasUndo.EditRowsEffect | backend/internal/canvas/domain/document.go:187-260 | a batch of edits changes exactly the named nodes, each by the one edit that names it (told by attribute in CommandOutcome), so the order of the edits makes no difference |
| CanvasUndo.AddThenDelete | backend/internal/canvas/domain/document.go:174-297 | on a valid graph deleting the nodes that a command just added gives back the graph as it was |
| CanvasUndo.JoinThenCut | backend/internal/canvas/domain/document.go:298-329 | disconnecting the edges that a command just connected gives back the graph as it was |
| CanvasUndo.ApplyInTwo | backend/internal/canvas/domain/document.go:138-154 | applying two lists of commands in turn is applying their concatenation, with failures counted through |
| CanvasGraph.AddRowsKeep | backend/internal/canvas/domain/document.go:174-186 | added nodes keep identities distinct and content valid, and leave all others untouched |
| CanvasGraph.EditRowsKeep | backend/internal/canvas/domain/document.go:187-260 | edits keep identities, faces and content rules |
| CanvasGraph.ConnectRowsKeep | backend/internal/canvas/domain/document.go:298-313 | new edges are distinct and live |
| CanvasGraph.CutKeeps | backend/internal/canvas/domain/document.go:314-329 | cutting keeps edges live and every business edge in place |
| CanvasDelete.RemovedGraphOk | backend/internal/canvas/domain/document.go:270-297 | deleting editable nodes from a valid graph leaves a valid graph: forest, tool references, configurations and edges included |
| CanvasDelete.DeletedIff | backend/internal/canvas/domain/document.go:270-297 | a deletion is allowed exactly when the nodes are distinct, editable, without business edges and without protected children that stay |
| CanvasDelete.DeletionNeverRejected | backend/internal/canvas/domain/document.go:138-154 | on a valid graph the check after the command never rejects an allowed deletion |
| CanvasRuns.DeletionKeepsSurvivors | backend/internal/canvas/domain/document.go:270-297 | after a deletion that Apply accepts, every node that was not named is there with its face and layout, its parent dropped exactly if removed; each clip and object resolves to the same asset as before, a reference is emptied if and only if it named a removed node, and exactly the edges that touch no removed node stay |
| CanvasRuns.StepKeeps | backend/internal/canvas/domain/document.go:155-337 | every command keeps the graph well formed, protected nodes with identity, layout, parent and references unchanged, their media meaning, and all business edges |
| CanvasRuns.ApplyKeeps | backend/internal/canvas/domain/document.go:138-154 | so does every successful batch, and the result satisfies the whole graph invariant with its bounds |
| CanvasProjectCopy.AssetNames.AssetID | backend/internal/canvas/domain/project_copy.go:63-74 | the mapping closure records what was asked for and detects missing assets and targets shared by two sources |
| CanvasProjectCopy.CopyNodes | backend/internal/canvas/domain/project_copy.go:75-114 | the nested loops rename every identity and reference of every node under its own scope |
| CanvasProjectCopy.CopyScene | backend/internal/canvas/domain/project_copy.go:151-205 | objects, bones, cameras, lights, shots, screenshots and the cover of a scene are renamed together |
| CanvasProjectCopy.CopyProjectDocument | backend/internal/canvas/domain/project_copy.go:26-129 | succeeds exactly on an unscoped document of supported nodes that can be rebuilt, with an asset map that covers the used assets and is injective on them; the result carries every field of the source (the graph as GraphIsCarried tells), and it can be rebuilt in turn |
| CanvasProjectCopy.CopyOutcome | backend/internal/canvas/domain/project_copy.go:26-129 | the copied document has the new identity, the target project, the name and kind of scope of the source, revision one, a graph carried field by field, and the number of operation bindings that were cleared |
| CanvasCopied.GraphIsCarried | backend/internal/canvas/domain/project_copy.go:75-205 | in a copied graph every slot, clip and object node, camera follow and look-at, shot camera, active shot and motion, cover and track is absent exactly if the source's is and else names the new identity of what the source names; assets are the mapped ones; titles, layout, texts, captions, prompts, times and settings are equal |
| CanvasProjectCopy.ValidateCopiedGraph | backend/internal/canvas/domain/project_copy.go:137-149 | replaying a graph as commands on an empty document succeeds exactly on rebuildable graphs |
| CanvasRebuild.RebuildIff | backend/internal/canvas/domain/project_copy.go:137-149 | replaying succeeds if and only if the graph is valid, has only editable nodes and annotations, and at most 2000 edges, and then gives the graph itself |
| CanvasRebuild.RebuildableCopied | backend/internal/canvas/domain/project_copy.go:26-149 | the copy of a rebuildable graph is rebuildable, so the final validation of a copy cannot fail |
| CanvasRebuild.CopyIsIsomorphic | backend/internal/canvas/domain/project_copy.go:26-129 | nodes, parents and edges of the copy correspond one to one to those of the source |
| CanvasRebuild.CopiedClipPlays | backend/internal/canvas/domain/project_copy.go:99-110 | a copied clip resolves to the copy of the asset that the clip resolved to |
| CanvasRebuild.CopiedObjectPlays | backend/internal/canvas/domain/project_copy.go:163-182 | a copied object resolves to the copy of the asset that the object resolved to |
| CanvasRebuild.UserGraphCopied | backend/internal/canvas/domain/project_copy.go:137-149 | a graph of user content alone can be rebuilt, and so copied, if and only if it has at most 2000 edges and its viewport is in range |
| CanvasRebuild.UserGraphDrawn | backend/internal/canvas/domain/document.go:138-154 | every such graph, with up to 4000 edges, is the result of one Apply on an empty canvas |
| CanvasRebuild.BusyGraphNotCopied | backend/internal/canvas/domain/project_copy.go:142-148 | a graph with more than 2000 edges that one Apply on an empty canvas draws cannot be copied |
| CanvasCopy.ForestCopied | backend/internal/canvas/domain/project_copy.go:75-79 | the parent forest survives copying |
| CanvasCopy.ToolsCopied | backend/internal/canvas/domain/project_copy.go:75-114 | tool references still resolve after copying |
| CanvasCopy.DirectorCopied | backend/internal/canvas/domain/project_copy.go:151-205 | a valid scene stays valid under scoped identities |
| CanvasCopy.TimelineCopied | backend/internal/canvas/domain/project_copy.go:99-110 | a valid timeline stays valid under scoped identities |
| TransferWorld.StoredMatchesDigest | backend/internal/media/application/private_transfer.go:22-73 | in every reachable state the worker's own bytes at a target are exactly those whose digest was recorded from the source |
| TransferWorld.VerifiedMeansStored | backend/internal/media/application/private_transfer.go:22-73 | in every reachable state, of whatever item and after any crash, a verified object is there with exactly the bytes whose digest was recorded from the source, unless the worker asked for its removal |
| TransferWorld.StaysIff | backend/internal/media/application/transfer_worker.go:104-109 | whatever happens without the worker, what is at a key stays exactly if no unanswered removal of the key is outstanding |
| TransferWorld.ItemOutcomes | backend/internal/media/application/transfer_worker.go:64-206 | every object of a published item is verified and holds the recorded bytes unless a removal of it went unanswered; of a failed or cancelled item nothing of the worker is left, now or by a write that lands later, unless foreign bytes equal to its own were met |
| TransferWorld.ObjectChanged | backend/internal/media/application/transfer_worker.go:64-117 | a step on one object keeps the invariant of all items |
| TransferPorts.World.PutIfAbsent | backend/internal/media/application/private_transfer.go:52-65 | a write is only asked for with a durable digest and intent and never twice for a key; bytes that are there, of whatever origin, stay and are reported; else it may land now, later or never; every other key is left alone |
| TransferPorts.World.RecordDigest | backend/internal/media/adapter/postgres/transfer_objects.go:73-87 | a digest is recorded only before the write intent and only unchanged if there was one; nothing else of the state changes |
| TransferPorts.World.BeginWrite | backend/internal/media/adapter/postgres/transfer_objects.go:90-101 | a write intent needs a recorded digest and is taken at most once |
| TransferPorts.World.ConfirmObject | backend/internal/media/adapter/postgres/transfer_objects.go:104-115 | only a target that was read back with the recorded digest is confirmed |
| TransferPorts.World.AuthorizeRemoval | backend/internal/media/adapter/postgres/transfer_objects.go:118-130 | objects of a published item are never released for removal |
| TransferPorts.World.ConfirmRemoval | backend/internal/media/adapter/postgres/transfer_objects.go:133-144 | a removal is confirmed only once the target is absent for good |
| TransferPorts.World.Remove | backend/internal/media/application/transfer_worker.go:104-109 | one exact key, never one of a published item, is removed with whatever came to be there since it was read; without an answer that may take effect now, later or never |
| TransferPorts.World.StartItem | backend/internal/media/adapter/postgres/transfer_worker.go:213-233 | an item is started from an open state only; a published one is reported as done, whatever changed since, and stays published |
| TransferPorts.World.PublishItem | backend/internal/media/adapter/postgres/transfer_publish.go:39-114 | an item is published only when running with every object verified |
| TransferPorts.World.FailItem | backend/internal/media/adapter/postgres/transfer_worker.go:249-276 | a failure is recorded as completed only when nothing was left behind, otherwise as unknown; published items cannot fail |
| TransferObject.CopyObjectBytes | backend/internal/media/application/project_copy_transfer.go:70-88 | succeeds exactly on bytes of allowed size that meet the expected size and digest, with their true size and digest, though it reads at most one byte past the limit |
| TransferObject.VerifyTransferred | backend/internal/media/application/private_transfer.go:10-20 | succeeds only if the target has the recorded bytes, and then always does when no call fails |
| TransferObject.RecordAndBegin | backend/internal/media/application/private_transfer.go:52-61 | digest and intent are durable, in that order, before anything is written |
| TransferObject.ReadBackAndConfirm | backend/internal/media/application/private_transfer.go:32-71 | a write of unknown outcome is settled by reading it back, never by writing again |
| TransferObject.TransferPrivateObject | backend/internal/media/application/private_transfer.go:22-73 | over any number of attempts at most one write; success means the target is present and verified; without failing calls an object in no doubt is copied exactly if its source is readable and matches what was recorded |
| TransferItem.TransferObjects | backend/internal/media/application/transfer_worker.go:64-81 | the objects of an item are transferred in order, leaving all other items' objects alone; success means that each holds its recorded bytes and none is blocked by foreign ones; without failing calls it succeeds exactly if every object is ready (also ProjectCopyTransfer.Transfer at project_copy_transfer.go:110-124) |
| TransferItem.CopyItem | backend/internal/media/application/transfer_worker.go:64-83 | success means the item is published and no target held foreign bytes; its objects are then safe for good if no unanswered removal of them was outstanding before |
| TransferCleanup.CleanupObject | backend/internal/media/application/transfer_worker.go:90-114 | an object is confirmed removed only after its target was seen without the worker's bytes; foreign bytes that do not match are never removed and make it fail; without failing calls it succeeds whenever the object is there or its absence is no riddle |
| TransferCleanup.Cleanup | backend/internal/media/application/project_copy_transfer.go:128-163 | success means that every object of the item is durably removed; on a published item it changes nothing; for the worker and for the project copy, which differ in when absence is unknown and in what they report |
| TransferCleanup.CleanedIsGone | backend/internal/media/application/transfer_worker.go:85-117 | after a cleanup nothing of the worker is left of the item and no write of it can land any more, unless foreign bytes equal to its own were met |
| TransferWorker.TransferFailure | backend/internal/media/application/transfer_worker.go:119-138 | an outcome is unknown exactly when a reconciliation error says so, and cancelled exactly when the work was called off |
| TransferWorker.SettleFailure | backend/internal/media/application/transfer_worker.go:194-202 | a failed item is recorded as having left nothing only after a complete cleanup, otherwise as unknown; an item met by foreign bytes ends as unknown, and one is only cancelled if the work was called off |
| TransferWorker.ProcessItem | backend/internal/media/application/transfer_worker.go:183-205 | every recorded outcome is true: copied, left nothing, or unknown; without failing calls an item in no doubt is published exactly if all its objects are ready, and otherwise fails and leaves nothing |
| TransferWorker.Execute | backend/internal/media/application/transfer_worker.go:142-206 | published items are never touched again; every item before the one it stops at is settled truthfully and none after it is touched; a stop in doubt leaves that item marked for reconciliation, and one for an interruption only follows a cleaned failure; once the lease is lost at most one more item is given up before it stops; secure bytes stay; without failing calls every item is settled, those with ready objects as published and the others as failed |
| TransferRuns.OneWrite | backend/internal/media/application/private_transfer.go:22-73 | over any number of runs a target is written with one content only |
| TransferRuns.PublishedStaysIff | backend/internal/media/application/transfer_worker.go:142-206 | a published object keeps its very bytes through any later runs, failures and crashes if and only if no unanswered removal of it is outstanding |
| TransferRuns.AnsweredIsSecure | backend/internal/media/application/transfer_worker.go:104-109 | so it does for good if every removal of its key got an answer |
| TransferRuns.ForeignBytesStay | backend/internal/media/application/private_transfer.go:62-68 | over any number of runs, bytes of other origin that never match the recorded digest are neither replaced nor removed, unless a removal of the key was outstanding to begin with |
| TransferRuns.PublishedBytesLost | backend/internal/media/application/transfer_worker.go:64-117 | a run of allowed calls whose last step takes away the bytes of a published item: the cleanup's removal gets no answer, the next run publishes, then the removal lands |
| Purge.RemovePurgeObjects | backend/internal/media/application/purge_objects.go:43-115 | no removal is asked for before every object of the set was read and checked or seen absent under its earlier intent; success means all keys are absent and confirmed, though removals may land late; nothing without a row goes away and no row loses what it has on record; without failing calls it succeeds exactly on well-formed sets whose unstarted objects have the expected bytes, and else removes nothing |
| Purge.CheckAll | backend/internal/media/application/purge_objects.go:49-85 | the first phase removes nothing and ends with every object verified; it refuses repeated or empty keys and other bytes |
| Purge.CheckObject | backend/internal/media/application/purge_objects.go:51-84 | one object is checked by its bytes, or by its absence under an earlier intent |
| Purge.RemoveObject | backend/internal/media/application/purge_objects.go:86-113 | an object is confirmed removed only after its absence was observed, and removed only under its durable intent; once a removal was asked for, the only error is that its outcome is unknown |
| Purge.LateRemovals | backend/internal/media/application/purge_objects.go:43-115 | every removal in the log of a call comes after the whole set was settled |
| Purge.MissingOnlyUnderIntent | backend/internal/media/application/purge_objects.go:43-115 | at any moment, also after a crash, an object is missing only under its own durable intent with its digest on record |
| Purge.PurgeWorld.RecordDigest | backend/internal/media/adapter/postgres/purge_objects.go:85-95 | a digest is recorded only as it was just read, and, when nothing fails, exactly if it agrees with what is on record |
| Purge.PurgeWorld.BeginRemoval | backend/internal/media/adapter/postgres/purge_objects.go:98-124 | a removal intent is taken once, with the whole item verified; without failure or cancellation it is always given then |
| Purge.PurgeWorld.ConfirmRemoval | backend/internal/media/adapter/postgres/purge_objects.go:127-134 | absence is confirmed only under an intent |
| Depth.DepthExecution.Claim | backend/internal/mediatool/domain/depth.go:105-133 | a claim succeeds exactly for an unowned, confirmed job that is queued or being cancelled without a running process, or, reconciling, failed with an ended one; a refusal changes nothing |
| Depth.DepthExecution.StartProcess | backend/internal/mediatool/domain/depth.go:136-143 | only the owning worker of a running, uncancelled job without a process may start one; a refusal changes nothing |
| Depth.DepthExecution.EndProcess | backend/internal/mediatool/domain/depth.go:146-154 | an owner's acknowledgement ends the process and clears the doubt |
| Depth.DepthExecution.Interrupt | backend/internal/mediatool/domain/depth.go:157-171 | an interruption by the owner puts any process not known to have ended in doubt, keeps the worker and asks for reconciliation |
| Depth.DepthExecution.RequestCancel | backend/internal/mediatool/domain/depth.go:174-187 | a cancel request is taken for every job that is not yet succeeded or cancelled, and changes the status only if no reconciliation is due |
| Depth.DepthExecution.FinishCancelled | backend/internal/mediatool/domain/depth.go:190-202 | cancellation finishes only for the owner, after a request, with no process that may run |
| Depth.DepthExecution.Retry | backend/internal/mediatool/domain/depth.go:205-220 | a retry starts the next attempt, with a clean state, of a failed or cancelled job that is retryable, unowned and in no doubt, up to the hundredth |
| Depth.StepKeeps | backend/internal/mediatool/domain/depth.go:105-220 | every step of the machine and its surroundings keeps the fence |
| Depth.RunKeeps | backend/internal/mediatool/domain/depth.go:105-220 | so does every run |
| Depth.OneProcess | backend/internal/mediatool/domain/depth.go:105-220 | in every run at most one native process is alive, each attempt starts at most one, and while one is alive claim, start, finish, retry and release are all refused |
| Depth.UnprovedExitHolds | backend/internal/mediatool/domain/depth.go:105-220 | a started or unknown process implies an owning worker and no retry, and the unconfirmed flag holds exactly while the process is unknown |
| Depth.RevisionCounts | backend/internal/mediatool/domain/depth.go:105-220 | the revision counts the successful steps, and attempts stay within the limit |
| Depth.EndsWithoutStart | backend/internal/mediatool/domain/depth.go:146-154 | EndProcess accepts a worker whose process never started, after which no start is possible in that claim |
| Depth.CancelKeepsClaims | backend/internal/mediatool/domain/depth.go:105-187 | a request to cancel takes no claim away: a job that may be claimed, for execution or for reconciliation, still may be |
| Depth.CancellationCompletes | backend/internal/mediatool/domain/depth.go:105-202 | any job that may be claimed can be asked to cancel, claimed, finished as cancelled, and then retried and claimed again if attempts are left |
| Depth.InterruptionRecovers | backend/internal/mediatool/domain/depth.go:146-220 | an interrupted process that is seen to end leaves a job that can be released, claimed by any worker for reconciliation, and committed |
| Depth.JobRunsThrough | backend/internal/mediatool/domain/depth.go:105-154 | a job that may be claimed for execution can be claimed, started, ended, committed and approved |
| Budget.Budget.Validate | backend/internal/billing/domain/budget.go:38-50 | accepts exactly the valid balances, without an overflow on any input |
| Budget.Budget.AvailableMicros | backend/internal/billing/domain/budget.go:53-58 | the exact, possibly negative, difference, never overflowing |
| Budget.Budget.LowBalance | backend/internal/billing/domain/budget.go:63-72 | true exactly when less than a fifth of a positive limit is left, without multiplying |
| Budget.Budget.ChangeLimit | backend/internal/billing/domain/budget.go:76-94 | succeeds exactly for the same limit or one that covers what is committed; returns the exact difference; failures change nothing |
| Budget.Budget.Reserve | backend/internal/billing/domain/budget.go:99-116 | holds an amount exactly when it is available and the budget is not overrun |
| Budget.Budget.Settle | backend/internal/billing/domain/budget.go:122-142 | moves a held amount into a charge exactly when the result fits 64 bits; a mismatch is reported exactly when more is released than held |
| Budget.Reservation.Settle | backend/internal/billing/domain/reservation.go:70-95 | cost is charge plus overage, the uncharged rest is released, a capped charge never exceeds the hold, and a reservation closes once |
| Budget.Ledger.ChangeLimit | backend/internal/billing/domain/budget.go:76-94 | over any run the limit is the opening limit plus all deltas |
| Budget.Ledger.Reserve | backend/internal/billing/domain/budget.go:99-116 | over any run the reserved money is the sum of the amounts still held |
| Budget.Ledger.Settle | backend/internal/billing/domain/reservation.go:70-95 | over any run the settled money is the sum of charges and cost is charges plus overages; a mismatch never fires; with charges within their holds there is no overrun; it succeeds exactly when hold, time, revision and 64-bit range allow |
| Budget.OutstandingReplaced | backend/internal/billing/domain/reservation.go:70-95 | closing one reservation lowers the outstanding sum by its amount |
| Budget.OneOfOutstanding | backend/internal/billing/domain/budget.go:122-142 | a single held amount never exceeds the reserved total |
| LoginGuard.LoginGuard.KeepRecent | backend/internal/identity/domain/auth.go:43-49 | the in-place filter keeps exactly the failures inside the window, in order |
| LoginGuard.LoginGuard.Fail | backend/internal/identity/domain/auth.go:35-54 | one failure changes the guard as specified: ignored while locked, filtered, appended, and locked at the limit |
| LoginGuard.RunKnows | backend/internal/identity/domain/auth.go:35-54 | after any run at nondecreasing times the guard knows exactly the failures that still matter |
| LoginGuard.AtMostFive | backend/internal/identity/domain/auth.go:35-54 | at most five failures are recorded in any half-open 15-minute window of any run |
| LoginGuard.LocksAtFifth | backend/internal/identity/domain/auth.go:50-53 | a lock is set exactly when the fifth failure of a window lands, for 15 minutes |
| LoginGuard.ForgetsOutside | backend/internal/identity/domain/auth.go:39-42 | the reset after a lock discards only failures that are outside the window anyway |
| Voices.List | backend/internal/catalog/application/voice_catalog.go:163-211 | the page is the first limit pairs after the cursor in (model, voice) order, and a next cursor is given exactly when more remain; it is refused exactly on invalid input and unavailable exactly if an unacceptable model comes up before the page is known to be full |
| Voices.Fields | backend/internal/catalog/application/voice_catalog.go:225-251 | a model's voices are read, sorted, exactly if it passes validation, which keeps options distinct, and has at most one voice field, of the right name and type, whose options are all names; otherwise it is unavailable |
| Voices.OptionNames | backend/internal/catalog/application/voice_catalog.go:241-247 | the options of a field are read in order exactly if all are names that are not blank |
| Voices.NextModels | backend/internal/catalog/application/voice_catalog.go:175-210 | each turn of the loop reads further models, so it ends |
| Voices.TakeModels | backend/internal/catalog/application/voice_catalog.go:186-205 | the models of one read are taken in order until the page is full or a model is not acceptable |
| Voices.PageThenRest | backend/internal/catalog/application/voice_catalog.go:163-211 | a page followed by what remains after its cursor is all that remained before it, with no loss or repetition |
| Voices.PageOutcome | backend/internal/catalog/application/voice_catalog.go:163-211 | told by the models alone: a page holds, in order and up to the limit, exactly the choices that fit models offer after the cursor and up to the next one; there is a next one, at the last choice of a full page, only if some choice lies beyond it |
| Voices.NextIsAccepted | backend/internal/catalog/application/voice_catalog.go:163-174 | every cursor that List gives is one that List accepts |
| Voices.FollowedIff | backend/internal/catalog/application/voice_catalog.go:163-211 | calling List again and again with the cursor it gave succeeds throughout if and only if every model ahead is acceptable, and then reads all that remained |
| Voices.WholeCatalog | backend/internal/catalog/application/voice_catalog.go:163-211 | so from the start the calls succeed exactly if the whole catalog is acceptable, and then read every voice that some model offers, with its model, version and display name, once and in strict order, and nothing else |
| Library.ValidateFolderPlacement | backend/internal/media/domain/library.go:98-144 | accepts exactly when the folder is valid, the others are distinct folders of its library, and with it they form a forest of depth at most eight with sibling names distinct up to case |
| Library.CheckDepth | backend/internal/media/domain/library.go:127-141 | the walk over ancestors with a seen map accepts exactly when a root is reached within eight steps |
| Library.CheckTree | backend/internal/media/domain/library.go:116-143 | all walks together accept exactly the forests |
| Library.CycleNeverReaches | backend/internal/media/domain/library.go:127-141 | a cycle of parents never reaches a root |
| LibraryCopy.PrepareProjectLibraryCopy | backend/internal/media/application/library_copy.go:25-103 | succeeds exactly on a valid source whose items can be carried and keep distinct identities; the result carries every folder and item, field by field, with the placement of the source, and is a valid copy; an empty library gives none |
| LibraryCopy.CopyCarries | backend/internal/media/application/library_copy.go:44-95 | item for item and folder for folder: a copied item is in the copy of the folder that the source item is in, and at the root exactly if that is; its text, tags, state, times, position and details are equal and its asset is the mapped one; a folder keeps name, look and position, and its parent is the copy of the source parent |
| LibraryCopy.ApartIff | backend/internal/media/application/library_copy.go:67-95 | the new item identities are distinct if and only if no two items get the same mapped asset or derived text identity |
| LibraryCopy.ForestCopied | backend/internal/media/application/library_copy.go:44-66 | the copied folders form a forest exactly if the source folders do |
| LibraryCopy.FoldersCopied | backend/internal/media/application/library_copy.go:44-66 | valid folders stay valid in the target library |
| LibraryCopy.CopyValidIff | backend/internal/media/application/library_copy.go:25-132 | a prepared copy is valid if and only if the new item identities are distinct |
| LibraryCopy.CopiedItemsDistinct | backend/internal/media/application/library_copy.go:67-95 | they are distinct if the asset map is injective and meets no derived text identity |
| LibraryCopy.ValidateCopy | backend/internal/media/application/library_copy.go:106-132 | accepts exactly the valid copies for the binding |
| LibraryCopy.CopyItems | backend/internal/media/application/library_copy.go:67-95 | the items that are unshared, of the library, in a known folder and with a mapped asset are carried in order with their folder placement (told in CopyCarries); any other stops the copy |
| LibraryCopy.ValidateItem | backend/internal/media/domain/library.go:172-192 | the item rules, with tags distinct by the seen map |
| PackagePlan.Validate | backend/internal/media/application/package_plan.go:14-145 | accepts exactly the plans that satisfy every declarative rule, though it consumes objects from a map step by step |
| PackagePlan.ObjectsMatchUses | backend/internal/media/application/package_plan.go:35-129 | in an accepted plan the object intents are, one for one, the archive, all assets and all renditions: no orphan and no sharing |
| PackagePlan.AssetsComplete | backend/internal/media/application/package_plan.go:94-143 | each asset of an accepted plan has exactly the renditions of its kind and exactly one item |
| PackagePlan.CheckObjects | backend/internal/media/application/package_plan.go:35-46 | objects are accepted exactly with distinct keys and a total size within the bound, at every prefix |
| PackagePlan.CheckAssets | backend/internal/media/application/package_plan.go:52-93 | each asset uses up the one object with its key, type, digest and size |
| PackagePlan.CheckItems | backend/internal/media/application/package_plan.go:94-109 | each asset is used by one item and folders are known |
| PackagePlan.CheckRenditions | backend/internal/media/application/package_plan.go:110-129 | each rendition uses up its own object, one of each kind per asset |
| PackagePlan.CheckKinds | backend/internal/media/application/package_plan.go:130-143 | the kinds seen are exactly those required, by size and inclusion |

## Left out

- BibleContent.ValidateCharacter: leaves out text lengths, UTF-8, trimming beyond blank names, and voice parameter ranges; they are single comparisons.
- BibleValidator.ValidateCopyHistory: a head that redirects to the nil identity without a redirect row is refused here, while the source reads the missing row as nil and accepts it (project_copy_history.go:236-239); foreign keys keep such a head out of the database.
- BibleContent.ValidateVersion: hashes stand for content one to one, so encoding and its size limits are not modelled; absent content fields are excluded by the closed union of bodies.
- BibleStore.Store.Change: leaves out the project revision, actor roles, audit rows and the truncation of the clock to microseconds.
- BibleManifest.RemapProjectHistory: leaves out the manifest hash, the JSON order of its reference and scope lists, and encoding errors.
- BibleLongChain.LongMergeRun: its requests come from one actor at one time, each with a key of its own.
- CanvasChecks.ValidDirector: leaves out numeric ranges, vectors, quaternions and enumerations of a scene; only identities and references are checked.
- CanvasChecks.ValidTimeline: leaves out colours, fades, volumes and crop sizes, which are kept as opaque settings.
- CanvasDraft.Draft.ApplyOne: a command with missing or surplus fields is one constructor, and the five row commands that edit one attribute are one command with a row type.
- CanvasDraft.Apply: generation configurations are values, since no command writes into one; not-a-number coordinates and the size limit of an encoded document are not modelled.
- CanvasProjectCopy.CopyProjectDocument: leaves out the encoding that clones the document, and gives all texts and settings unchanged.
- TransferPorts.World.StartItem: changes of the saved source or target folder are an arbitrary refusal.
- TransferPorts.World.PublishItem: registers the status of an item; the library and asset rows that are inserted with it are not modelled.
- TransferWorker.Execute: models one worker under a lease that is live or lost; claiming, two workers at once, heartbeats between calls, ending the physical run and the status of the whole job are left out.
- TransferCleanup.Cleanup: for the project copy, finishing the cleanup of the whole binding is left out.
- TransferObject.TransferPrivateObject: temporary files, with their failures, and content types are left out.
- Purge.RemovePurgeObjects: leaves out the length limit of keys; retiring the catalog row afterwards is not part of it.
- Depth.OneProcess: the steps that the job store takes around the methods (release, review, success) are reduced to what they do to the job, and a caller ends a process only after it saw it end.
- Depth.RevisionCounts: the revision is unbounded where the source has 64 bits.
- Library.ValidateFolderPlacement: folds case for ASCII letters only, where the source uses full Unicode lower-casing; the text rules of names are reduced to blankness and length.
- LibraryCopy.PrepareProjectLibraryCopy: leaves out encoded size and the truncation of the clock.
- PackagePlan.Validate: object paths are structured keys, and moderation, file naming, request and rendition metadata checks are flags of the plan.
- Voices.List: model and voice names are numbers in their byte order, with 0 for a blank one; JSON syntax and the rules of model validation other than distinct options are a flag of the model, and authorization is left out.
- Dependency and impact checks of the story bible, media lookups and voice lookups are answers given with each command.
- HTTP, SQL, queues and workflow plumbing, and the frontend: they move data to and from the parts modelled here.
- Operation settlement, audit events and the export, transcription and depth object writers: they repeat the intent and read-back pattern of transfer and purge, or only assemble payloads.
- Catalog administration, list queries, login normalization and password policy: each is a check of one value or one query, with no state or second operation that a property could relate it to.

# A model of nah's reconciliation core

nah is a controller framework for Kubernetes. This project models its hard parts and proves what they promise, in Dafny 4.11.
`dafny verify dfyconfig.toml` checks everything.

**The apply engine** (`Json`, `ThreeWay`, `Prune`, `Sanitize`, `Kinds`, `ApplyPatch`, `ObjectSet`, `Normalize`, `Ownership`,
`Process`, `Safety`, `Convergence`, `WholeApply`, `Apply`, `Pruning`, `Rights`). The API server is a map from kind and key to
a JSON document, with a log of what was done and a "weather" that decides which calls fail and which deletions linger. The
loops of the code are methods and classes here; each is proved equal to a function or against a property, and the theorems are
about those: the three-way patch does what it is designed for, the shortened record and the sanitized patch keep its meaning,
no pass touches what belongs to someone else, and an error-free apply converges and then stays quiet. What a pass may do and
must leave alone is also said in the labels and annotations themselves (`Rights`), apart from the tests that the code makes.

**Triggers** (`Matcher`, `Triggers`, `TriggerWorker`). The three-level registry, one pass over a batch with all its maps ranged
over in arbitrary order, and the pending map with its one background worker as a state machine over atomic steps.

**Rate limiting** (`RateLimit`). The token bucket and the waiting set of `checkDelay`, over real time.

**Watching** (`Watcher`). The two nested retry loops against a server that may do anything a watch may do.

**Caching** (`Versions`, `Cached`). The comparison of resource versions, and the overlay of recent writes over a lagging
informer, with runs of writes, reads, purges and time.

**Controllers** (`Keys`, `Controller`, `Workers`). Key encodings, the buffer of keys before the first run, and the semaphores
of the workers.

**Finalizers** (`Finalizer`, `Release`, `FinalizerHandler`). Any number of handlers interleaved with each other and with other
writers, against a server that refuses stale updates: what never leaves the list, and what does.

State machines name their steps in a `Move` datatype; `Leads(s, moves, t)` says that a run goes from `s` to `t`, and a theorem
about "every reachable state" is about every such run. Classes hold the fields of the Go structs, and each method is proved to
take the step of the same meaning.

Things that turned out otherwise than one would expect are theorems too:

- The guide says that a field changed by a user is preserved (docs/guides/apply.md:505). The three-way patch sets it back
  (`ThreeWay.GuideRowUserModified`); the model follows the code.
- As a function, pruneValues changes a deletion where the wanted document says null and the last-applied object held a
  []byte, and only there (`Prune.PruneKeepsDeletions`). The engine never gives it a []byte: typed objects pass through
  JSON, and the deep copy of an unstructured one does not take a []byte (pkg/apply/desiredset_apply.go:145-150).
- `emptyMaps` takes an annotation literally named `__invalid_key__` for nothing, so a patch of only that is dropped
  (`Sanitize.InvalidKeyIsDropped`); besides the applied annotation it is the only thing that sanitizing can lose
  (`Sanitize.SanitizedKeepsMeaningIff`).
- Owners are told apart by a hash of texts run together. Different owners share it exactly when those texts come out the
  same (`Ownership.OwnersShareALabelIff`, for one kind `Ownership.OwnersOfOneKindShareALabelIff`, with an instance in
  `Ownership.DistinctOwnersCanShareAHash`), and then one prunes the objects of the other
  (`Pruning.OthersObjectIsPrunedIff`, `Pruning.OthersObjectGoes`).
- `clearNamespace` can depend on the order of a map (`Normalize.ClearOrderMattersIff`).
- An object moved into its owner's namespace can be pruned by the pass of another version of its kind; exactly when is
  `Pruning.MovedObjectIsPrunedIff`, `Pruning.MovedObjectGoes` gives an apply that deletes what it has just created, and
  `Apply.HiddenNeverRests` says that such applies do not come to rest.
- Versions of one kind that want one object differently undo each other: such an apply is never quiet
  (`Apply.RivalsNeverRest`). When a repeated apply is quiet is `Apply.ApplyingTwiceIff`.
- A patch carries no version, since sanitizing takes the resource version out of it: the server merges it into whatever
  is there (pkg/apply/desiredset_compare.go:132-149, `Sanitize.SanitizedByName`). That this is always an object which may be
  written is `Rights.EveryWriteIsRightful`.
- `newer` is wrong for some versions of 2^63 and above (`Versions.NewerIsRightIff`).
- On NotFound, `Get` looks the overlay up under the output object's key (`Cached.NotFoundServesNamedKey`).
- `KeyParse` does not recover the object of a replay (`Keys.KeyParseIsRightIff`).
- The comment at pkg/router/handler.go:219 says one event in 15 seconds; the code allows one in 5, and so does the model.

## Model

| member | source | states |
|---|---|---|
| ThreeWay.PatchMeansExpected | pkg/apply/desiredset_compare.go:407-430 | applying the three-way patch to the current document gives, key by key, the result the merge is designed for (`Expected`), for all last-applied, wanted and current documents |
| ThreeWay.ExpectedAddsNothing | pkg/apply/desiredset_compare.go:407-430 | on the expected document, the same wanted document asks for no addition and no change |
| ThreeWay.WantedLeavesLand | pkg/apply/desiredset_compare.go:407-430 | every leaf the wanted document states that is not null is on the server afterwards |
| ThreeWay.UnclaimedLeavesStay | pkg/apply/desiredset_compare.go:407-430 | what neither the last-applied nor the wanted document mentions keeps its value |
| ThreeWay.GuideRowUserModified | docs/guides/apply.md:505 | the guide's row "user modified: preserve" is false of the code: the wanted value wins |
| Prune.PruneKeepsDeletions | pkg/apply/desiredset_compare.go:340-384 | shortening the record leaves the deletions of the three-way merge as they are if and only if the wanted document nowhere says null where the last-applied object held a []byte |
| Prune.PruneShortens | pkg/apply/desiredset_compare.go:355-384 | every map key and every value's kind stays; strings over 64 bytes become 64 bytes and 8 hex digits, except under the merge keys of list elements, which stay whole |
| Prune.PruneListShortens | pkg/apply/desiredset_compare.go:340-353 | the same for lists, element by element and in order |
| Prune.TextsAreCut | pkg/apply/desiredset_compare.go:340-384 | by name: in a list element the texts under the ten merge keys stay whole, in a plain list every text does, and all others over 64 bytes get their hash in the place of the rest |
| Sanitize.EmptyMaps | pkg/apply/desiredset_compare.go:96-116 | true exactly when every map along the keys is empty or holds only the next key |
| Sanitize.RemoveMetadataFields | pkg/apply/desiredset_compare.go:270-286 | the five server-owned metadata fields (by name in `SanitizedByName`) go, all others stay, and the result says whether one went |
| Sanitize.RemovePrefixed | pkg/apply/desiredset_compare.go:151-159 | deleting while ranging, in any order, removes exactly the annotations with the apply prefix |
| Sanitize.RemoveServerFields | pkg/apply/desiredset_compare.go:132-149 | kind, apiVersion, status and the server-owned metadata go; the flag tells whether the patch changed |
| Sanitize.RemoveObjectSetAnnotations | pkg/apply/desiredset_compare.go:151-166 | apply annotations go, and with them annotations and metadata that end up empty in a modified patch |
| Sanitize.SanitizePatch | pkg/apply/desiredset_compare.go:124-182 | the whole of sanitizePatch computes `Sanitized`, and fails exactly on JSON that is neither an object nor null |
| Sanitize.SanitizeTwice | pkg/apply/desiredset_compare.go:124-182 | sanitizing a sanitized patch changes nothing, for every patch |
| Sanitize.SanitizedSparesServerFields | pkg/apply/desiredset_compare.go:132-149 | applied to any document (section 2 of RFC 7396), the sanitized patch leaves kind, apiVersion, status and the server-owned metadata as they are |
| Sanitize.SanitizedByName | pkg/apply/desiredset_compare.go:132-149 | by name: kind, apiVersion, status and metadata's creationTimestamp, generation, resourceVersion, uid and managedFields are in no sanitized patch; every other field at the top and in metadata is as in the raw patch |
| Sanitize.ServersFieldsStay | pkg/apply/desiredset_compare.go:132-149 | and those, down to every leaf, keep their value on any document the patch is applied to |
| Sanitize.SanitizedAnnotations | pkg/apply/desiredset_compare.go:151-166 | with the flag no annotation that begins with `apply.acorn.io/` is left and those of the document stay; the others are as in the raw patch unless a lone bookkeeping annotation is dropped |
| Sanitize.NothingEmptyIsLeft | pkg/apply/desiredset_compare.go:151-166 | with the flag, a patch that had something taken out is left with neither empty annotations nor empty metadata |
| Sanitize.SanitizedKeepsMeaning | pkg/apply/desiredset_compare.go:124-182 | everywhere else it leaves the same leaves as the raw patch, except that a patch cleaned down to a single annotation, the applied one (not an object with content) or one named `__invalid_key__`, becomes {} and loses it |
| Sanitize.SanitizedKeepsMeaningIff | pkg/apply/desiredset_compare.go:96-182 | raw and sanitized patch leave the same on every document if and only if the cleaned patch is not a single annotation of one of those two names |
| Sanitize.DroppedIff | pkg/apply/desiredset_compare.go:96-116 | what the two calls of emptyMaps drop, in plain terms: a patch that says nothing, or only that one annotation |
| Sanitize.InvalidKeyIsDropped | pkg/apply/desiredset_compare.go:96-116 | a patch of one annotation named `__invalid_key__` asks for that annotation, and is dropped |
| Sanitize.OneAnnotationIsDroppedIff | pkg/apply/desiredset_compare.go:96-182 | a patch of one text annotation is dropped if and only if it is named `apply.acorn.io/applied` or `__invalid_key__`, or has the apply prefix and the flag is given |
| ApplyPatch.SecondCompareIsQuiet | pkg/apply/desiredset_compare.go:184-268 | after the patch of one compare is applied to an object, comparing again with the same wanted object finds nothing to send |
| ApplyPatch.CompareAfterCreateIsQuiet | pkg/apply/desiredset_compare.go:46-94 | comparing an object just created with the object it was created from finds nothing to send |
| ApplyPatch.PreparedForgets | pkg/apply/desiredset_compare.go:46-64 | a prepared copy has neither uid nor creationTimestamp; an object prepared in place keeps both |
| ApplyPatch.ComparableIff | pkg/apply/desiredset_compare.go:288-315 | comparing fails exactly on an applied annotation that is there and cannot be read |
| ApplyPatch.RecordDeletesServerFieldsOnly | pkg/apply/desiredset_compare.go:288-315 | measured against the record the object itself carries, a wanted object asks for no deletion but of server-owned fields |
| ApplyPatch.WantedIsOnServer | pkg/apply/desiredset_compare.go:184-249 | after the patch, every wanted leaf outside the server's own fields and the bookkeeping annotation is on the server |
| ApplyPatch.UnclaimedStaysOnServer | pkg/apply/desiredset_compare.go:184-249 | after the patch, every leaf neither the record nor the wanted object names has its old value |
| ObjectSet.ObjectSet.Add | pkg/apply/objectset/objectset.go:88-108 | an object joins both indexes and the history; nil is ignored and an unknown kind is an error that changes nothing |
| ObjectSet.ObjectSet.AddAll | pkg/apply/objectset/objectset.go:79-86 | objects are added in order up to the first of unknown kind, which is the error |
| ObjectSet.ObjectSet.Contains | pkg/apply/objectset/objectset.go:70-73 | a kind contains a key exactly when some version of the kind has it in the other index |
| ObjectSet.ObjectSet.GVKOrder | pkg/apply/objectset/objectset.go:118-133 | every version added or known comes exactly once: those added first, in order of first addition, then the others sorted by text |
| ObjectSet.IndexesAgree | pkg/apply/objectset/objectset.go:98-99 | after any additions, the index by kind and the index by version agree on keys, and the kind index holds the object last added |
| ObjectSet.IndexesAreAgreeing | pkg/apply/objectset/objectset.go:70-108 | so a kind's keys are exactly those of its versions together |
| ObjectSet.LastAddedStays | pkg/apply/objectset/objectset.go:88-108 | an object stays in the set, under its version and its kind, until one is added that takes its place |
| ObjectSet.FirstSeenEnumerates | pkg/apply/objectset/objectset.go:101-105 | the order of versions lists exactly the versions added, without repetition |
| ObjectSet.FirstSeenKeepsOrder | pkg/apply/objectset/objectset.go:101-105 | later additions never change the order of versions already listed |
| Kinds.SortByText | pkg/apply/desiredset_process.go:424-428 | sorting rearranges the keys and leaves none before one with a smaller text |
| Kinds.BelowIsTotal | pkg/apply/desiredset_process.go:424-428 | byte order on texts is a strict total order |
| Normalize.ObjectByKey.AssignOwnerReference | pkg/apply/desiredset_process.go:26-104 | whatever the visiting order and whichever inserted entries are visited again, the loop ends in one map, `Owned`; the error cases change nothing |
| Normalize.ObjectByKey.VisitForOwner | pkg/apply/desiredset_process.go:43-101 | one turn of the loop: reference, namespace and key of one entry |
| Normalize.ObjectByKey.AdjustNamespace | pkg/apply/desiredset_process.go:106-120 | again one result for every order and every choice of revisits |
| Normalize.ObjectByKey.ClearNamespace | pkg/apply/desiredset_process.go:122-135 | the result is that of the visiting order taken, `ClearIn` |
| Normalize.NormalizedAgrees | pkg/apply/desiredset_process.go:26-120 | after both loops with a non-empty default namespace, every key is the namespace of its object, none is empty, and no key written out is lost |
| Normalize.ReferencesAreLegal | pkg/apply/desiredset_process.go:44-92 | the owner is added at most once, only where missing, never to an object that opted out of pruning, across namespaces, or from a cluster-scoped child to a namespaced owner; other references stay |
| Normalize.ReferenceIsAdded | pkg/apply/desiredset_process.go:75-92 | within reach, and unless pruning is declined, the reference is there afterwards |
| Normalize.ReferenceSays | pkg/apply/desiredset_process.go:75-92 | the reference names the owner by name, kind, version and uid, as controller and as blocking its deletion |
| Normalize.ClearOrderMattersIff | pkg/apply/desiredset_process.go:122-135 | two visiting orders of clearNamespace can give different results if and only if two entries lose different namespaces under one name and differ otherwise |
| Normalize.LastOneWins | pkg/apply/desiredset_process.go:122-135 | any entry that loses its namespace can be the one that ends up under the bare name |
| Ownership.DistinctOwnersCanShareAHash | pkg/apply/desiredset_apply.go:183-189 | two owners in different namespaces, with different annotations and one hash label, whatever the hash function |
| Ownership.OwnersShareALabelIff | pkg/apply/desiredset_apply.go:183-189 | with an injective hash, two owners with any subcontexts get one label if and only if subcontext, kind, name and namespace run together are the same text; with any hash that is enough |
| Ownership.OwnersOfOneKindShareALabelIff | pkg/apply/desiredset_apply.go:183-189 | for owners of one kind and subcontext: if and only if name and namespace run together are the same |
| Ownership.StampIsConsistent | pkg/apply/desiredset_apply.go:104-181 | a stamped object carries the owner's label, which is the hash of the object's own annotations if there is an owner; with a subcontext only, if and only if the object brings no annotations of an owner along (injective hash) |
| Ownership.StampedTexts | pkg/apply/desiredset_apply.go:160-181 | stamping sets exactly the given labels and annotations, and drops the applied record |
| Process.CompareSets | pkg/apply/desiredset_process.go:396-422 | which keys are created, updated and deleted, without repetition and sorted, in whatever order the maps are ranged over |
| Process.FilterCrossVersion | pkg/apply/desiredset_process.go:137-150 | exactly the keys present in the kind under any version, or unqualified in the default namespace, are taken out |
| Process.Pass.Send | pkg/apply/desiredset_process.go:211-244 | create, or on AlreadyExists take over an object unless it is someone else's |
| Process.Pass.Settle | pkg/apply/desiredset_process.go:254-264 | what follows from a comparison: patch, replace if allowed, or nothing |
| Process.Pass.Delete | pkg/apply/desiredset_process.go:246-252 | one deletion, logged by the server or counted as an error |
| Process.Pass.CreateEach | pkg/apply/desiredset_process.go:267-269 | all creations in order, each on what the one before it left |
| Process.Pass.UpdateEach | pkg/apply/desiredset_process.go:271-273 | all updates in order, each on what the one before it left |
| Process.Pass.DeleteEach | pkg/apply/desiredset_process.go:275-279 | all deletions in order, each on what the one before it left |
| Process.Pass.CarryOut | pkg/apply/desiredset_process.go:267-290 | creations, updates, prunings unless switched off, then deletion and creation of what is to be replaced: `Run` of the plan |
| Process.Pass.List | pkg/apply/desiredset_process.go:321-338 | the owner's objects by label, or one get for each wanted object; it fails exactly if one of its calls fails, and changes nothing |
| Process.Pass.Process | pkg/apply/desiredset_process.go:200-290 | the whole pass is `Run` of a plan made from what was listed, or it stops with one error at a list in which a call failed |
| Safety.PassIsSafe | pkg/apply/desiredset_process.go:205-290 | the invariant that every stage of a pass keeps, whatever calls fail and whatever lingers: what is patched or deleted is what was seen, and `Permitted` or `MayPrune`; in plain terms it is `Rights.EveryWriteIsRightful` |
| Safety.CreatesAreSafe | pkg/apply/desiredset_process.go:211-244 | its part for creation: nothing that exists is touched, and what is taken over is noted as it is on the server |
| Safety.UpdatesAreSafe | pkg/apply/desiredset_process.go:254-264 | its part for updates: what is patched is what the pass has seen under this key |
| Safety.DeletesAreSafe | pkg/apply/desiredset_process.go:246-252 | its part for deletion: each object is deleted as it was seen |
| Safety.EnsureNeverPrunes | pkg/apply/desiredset_process.go:205-208 | without owner and subcontext, the mode of Ensure, whatever fails: every deletion in the log of a run is of a wanted object that asks to be replaced |
| Rights.EveryWriteIsRightful | pkg/apply/desiredset_process.go:205-290 | read off labels and annotations, for every entry in the log of a pass, whatever fails: created is only what has not opted out or was just deleted to be replaced; patched or replaced is only a wanted object that allows updates and that, for an owner, carries its hash, is nobody's, records the same owner, is to get its first subcontext from the same owner, or may change its subcontext to the new one; any other deletion is of an unwanted, listed object of the owner without opt-out and deletion timestamp, in the set under no version, whose label is the hash of its own four owner texts |
| Rights.ApplyIsRightful | pkg/apply/desiredset_apply.go:42-71 | the same for every entry of every pass of an apply, with the settings it was called with and the keys of all versions in its set |
| Rights.PrunedIff | pkg/apply/desiredset_process.go:137-150 | an unwanted object for which all of that holds is deleted, or the pass reports an error; any other is afterwards as it was |
| Rights.TakenOverIff | pkg/apply/desiredset_process.go:211-244 | a create that meets an object takes it over, and queues it for an update where that is allowed, exactly under those conditions; otherwise it is one error; either way the object is as it was |
| Rights.TakeOverIsRefused | pkg/apply/desiredset_process.go:211-290 | over a whole pass, whatever fails: a wanted object that is there, not listed as the owner's and not to be taken over is afterwards as it was, and if it was to be created the pass reports an error |
| Rights.ReconcilerDecides | pkg/apply/desiredset_compare.go:220-268 | an object with something to change that a reconciler handles or refuses is left alone, a refusal being an error; one that it wants replaced is deleted and created anew where update, prune and create annotations allow it, and left alone otherwise |
| WholeApply.ApplyIsSafe | pkg/apply/desiredset_apply.go:62-70 | the same over every pass of an apply; in plain terms `Rights.ApplyIsRightful` |
| Convergence.PassReachesAim | pkg/apply/desiredset_process.go:205-290 | a pass without error, whatever calls might have failed, leaves wanted objects created or brought up to date, stale objects gone and everything else as it was |
| Convergence.PassSettles | pkg/apply/desiredset_process.go:205-290 | such a pass leaves its kind settled: every wanted object there, with the owner's hash and nothing left to patch, and nothing stale |
| Convergence.SettledIsQuiet | pkg/apply/desiredset_process.go:205-290 | a pass over a settled kind creates, patches and deletes nothing, whatever calls fail; if none does, it reports an error if and only if a wanted object outside what it lists counts as another owner's (`Estranged`) |
| Convergence.QuietPassChangesNothing | pkg/apply/desiredset_process.go:205-290 | a pass that logs nothing leaves every object as it was, whatever failed |
| Convergence.VersionDoesNotMatter | pkg/apply/desiredset_compare.go:184-268 | an object up to date for a wanted object under one version is so under every version of the kind |
| Convergence.RivalsNeverAgree | pkg/apply/desiredset_compare.go:184-268 | no object is up to date for two wanted objects that differ in a leaf outside the server's fields |
| WholeApply.ApplyConverges | pkg/apply/desiredset_apply.go:62-70 | in an error-free apply every pass has its effect: wanted objects end up to date, and untouched if they were; stale ones go; all else, in every kind, is as it was |
| WholeApply.WantedIsUpToDate | pkg/apply/desiredset_apply.go:62-70 | a wanted object that no other version wants differently is up to date after its pass and all later ones |
| WholeApply.WantedIsThere | pkg/apply/desiredset_apply.go:62-70 | even if versions want it differently, a wanted object is there with the owner's hash after its pass and all later ones |
| WholeApply.UnwantedIs | pkg/apply/desiredset_apply.go:62-70 | an object no version wants is gone at the end if and only if some pass finds it stale, and otherwise as it was |
| WholeApply.SettledIff | pkg/apply/desiredset_apply.go:62-70 | after an error-free apply every kind is settled if and only if the keys that versions want differently are up to date for each of them |
| WholeApply.RepeatedApplyIsQuiet | pkg/apply/desiredset_apply.go:62-70 | an apply over settled kinds logs nothing and leaves the world as it was, whatever calls fail; if none does, a pass errs if and only if it meets an estranged object |
| WholeApply.QuietIff | pkg/apply/desiredset_apply.go:62-70 | when no call fails, an apply logs nothing and meets no error if and only if every kind is settled and no object estranged |
| Apply.Applier.InjectLabelsAndAnnotations | pkg/apply/desiredset_apply.go:138-158 | a new object set, in any order of adding: every object stamped with the owner's labels and annotations, its two indexes agreeing |
| Apply.Applier.InjectVersion | pkg/apply/desiredset_apply.go:138-158 | the objects of one version enter the new set stamped, in any order, and no other version changes |
| Apply.Applier.Normalize | pkg/apply/desiredset_process.go:184-199 | owner references and namespaces of one version, in the order the code applies them |
| Apply.Applier.Process | pkg/apply/desiredset_process.go:176-204 | one version: an unknown kind is an error, any other is normalized and passed over, with the kind's keys taken from the index by kind |
| Apply.Applier.Apply | pkg/apply/desiredset_apply.go:42-71 | one step for every version, those added first in order of addition and then the other known ones sorted by text, each on the world the one before left; an error does not stop the rest and is reported |
| Apply.EnvIsOwning | pkg/apply/desiredset_apply.go:104-158 | from input whose objects opt out of nothing, without clashes among cluster-scoped ones (`Straight`), the wanted objects of every pass carry the owner's hash, and are one map `WantsOf` in whatever order the code ranges |
| Apply.EnvIsUnique | pkg/apply/desiredset_process.go:26-135 | for such input, what a pass wants does not depend on any order of ranging |
| Apply.WantsFrom | pkg/apply/desiredset_process.go:26-135 | every wanted object is one that was handed in, stamped, at its place (namespace as written, or the owner's, or the default one, or dropped), and different in its metadata only |
| Apply.WantsHas | pkg/apply/desiredset_process.go:26-135 | and at the place of every object handed in there is a wanted one |
| Apply.SparedIff | pkg/apply/desiredset_process.go:137-150 | the place of an object is spared by passes of other versions unless it was added bare, moved into the owner's namespace, which is not the default one, and was not also added there |
| Apply.WrittenIsInSight | pkg/apply/desiredset_process.go:137-150 | so if namespaces are written out, every version wants or spares what another one wants (`InSight`) |
| Apply.WantedIsSpared | pkg/apply/desiredset_process.go:137-150 | whatever fails, an apply prunes no key that any version in the set has under this kind, as written or bare in the default namespace |
| Apply.ApplyLeaves | pkg/apply/desiredset_apply.go:42-71 | an error-free apply of straight input with everything in sight, key by key for every kind, namespaced or not: at a place of the set there is an object with the owner's hash; any other goes if and only if it is the owner's leftover that a pass lists and may prune, and is as it was otherwise |
| Apply.ApplyLeavesExactly | pkg/apply/desiredset_apply.go:42-71 | so of what is listed, prunable and not spared in a kind exactly the objects at places of the set carry the hash; what is spared without being a place, and what neither carries the hash nor is wanted, is untouched |
| Apply.SparedIsPlaced | pkg/apply/desiredset_process.go:137-150 | with namespaces written out, a spared key is a place of the set, unless it has a namespace in a kind with cluster-scoped versions |
| Apply.ApplyingTwiceIff | pkg/apply/desiredset_apply.go:42-71 | when no call fails, the second apply logs nothing and meets no error if and only if the keys that versions want differently are up to date for each, and no object is estranged |
| Apply.ApplyingTwice | pkg/apply/desiredset_apply.go:42-71 | idempotence from straight input in sight whose versions want the same in the places they share: after an error-free apply, the same apply in any weather logs nothing and leaves the world as it was; if no call fails, a pass errs exactly over an estranged object |
| Apply.ApplyingTwiceWhenListed | pkg/apply/desiredset_apply.go:42-71 | if the lister sees every place of the set, the second apply is without error too when no call fails |
| Apply.RivalsNeverRest | pkg/apply/desiredset_apply.go:62-70 | if two versions of a kind want different texts in a field of one object, no error-free apply of that set is quiet |
| Apply.HiddenNeverRests | pkg/apply/desiredset_process.go:137-150 | nor is one that has an object out of sight of another version which lists its place, unless the object there must not be pruned |
| Pruning.OthersObjectIsPrunedIff | pkg/apply/desiredset_process.go:409-415 | an object another owner created and this one does not want, listed by namespace and free to be pruned, is in the plan to be deleted if and only if the two owners have one label |
| Pruning.OthersObjectGoes | pkg/apply/desiredset_process.go:205-290 | and then an error-free pass leaves it deleted |
| Pruning.MovedObjectIsPrunedIff | pkg/apply/desiredset_process.go:137-150 | an object added bare that moved into its owner's namespace, listed and prunable in the pass of a version that does not want it, is to be deleted there if and only if that namespace is not the default one and the key was not also added written out |
| Pruning.MovedObjectGoes | pkg/apply/desiredset_apply.go:62-70 | so for every namespaced owner outside the default namespace there is an error-free apply of two versions whose second pass deletes the object its first pass created |
| Pruning.MovedObjectGoesForExample | pkg/apply/desiredset_apply.go:62-70 | with such input written down |
| Matcher.TextTellsApart | pkg/router/matcher.go:18-49 | for names without '/', two matchers have one text exactly when Equals holds, so LoadOrStore merges only identical ones |
| Matcher.SlashesConfuse | pkg/router/matcher.go:18-25 | with a '/' in a name, two matchers that are not equal share a text |
| Matcher.MatchIff | pkg/router/matcher.go:51-86 | field by field: a matcher with a name matches exactly that namespace and name; any other matches in its namespace, where it gives one, an object that is there and that its label and field selectors select, where it has them |
| Triggers.TriggerIndex.Register | pkg/router/trigger.go:53-63 | LoadOrStore at three levels |
| Triggers.RegisteredAt | pkg/router/trigger.go:53-63 | the first matcher under a text stays and no other registration moves |
| Triggers.RegisteredFires | pkg/router/trigger.go:53-63 | once registered, a matcher makes its target fire for every pending object it matches |
| Triggers.TriggerIndex.Check | pkg/router/trigger.go:162-177 | one matcher enqueues its target exactly if it matches a pending object of its kind |
| Triggers.RegisteredKeeps | pkg/router/trigger.go:53-63 | registering keeps every matcher under its own text |
| Triggers.CleanedKeeps | pkg/router/trigger.go:182-209 | and so does the clean-up |
| Triggers.LookupRefinesScan | pkg/router/trigger.go:172-174 | the direct lookup for a named matcher finds exactly what a scan with Match would |
| Triggers.TriggerIndex.CleanKind | pkg/router/trigger.go:182-209 | the deletions that follow the scan of one kind |
| Triggers.TriggerIndex.Process | pkg/router/trigger.go:154-215 | in whatever order the four maps are ranged over, one pass enqueues exactly the targets `Fired` on the registry before the pass, returns the number of registered matchers, and leaves the registry `Cleaned` |
| Triggers.FiredIff | pkg/router/trigger.go:156-180 | a target fires exactly when some matcher registered for it under a kind asks, in its fields, for some pending object of that kind |
| Triggers.HitIff | pkg/router/trigger.go:162-177 | what a single matcher contributes, in its fields |
| Triggers.CleanedExactly | pkg/router/trigger.go:182-209 | a registration goes exactly when its source was deleted or it is the exact selector-free matcher of a deleted object; every other one is unchanged |
| Triggers.DeletedStaysQuiet | pkg/router/trigger.go:185-190 | after the pass that deletes it, an object is enqueued by no later pass, whatever passes and registrations come in between, until it registers anew |
| Triggers.TotalWithout | pkg/router/trigger.go:163 | the count of matchers does not depend on the order of counting |
| TriggerWorker.TriggerQueue.Trigger | pkg/router/trigger.go:65-73 | the key is pending with its latest object, and the worker is woken or started |
| TriggerWorker.TriggerQueue.Kick | pkg/router/trigger.go:98-104 | a running worker is woken, otherwise one is started |
| TriggerWorker.TriggerQueue.LoopTop | pkg/router/trigger.go:107-114 | the worker sleeps exactly when nothing is pending, and otherwise takes all of it |
| TriggerWorker.TriggerQueue.Work | pkg/router/trigger.go:116-129 | the batch is processed as one pass over the registry |
| TriggerWorker.EveryRunIsSound | pkg/router/trigger.go:65-145 | in every interleaving there is at most one worker, it sleeps only when nothing is pending, and every batch is all that was handed over since the one before |
| TriggerWorker.NoTriggerIsLost | pkg/router/trigger.go:65-145 | every key handed over is pending with its latest object, or a batch begun after the call took it with what was then its latest object |
| TriggerWorker.BatchesAreFresh | pkg/router/trigger.go:113-114 | a key in a batch was handed over after the previous batch began, with that object: nothing is processed twice |
| TriggerWorker.PendingIsTaken | pkg/router/trigger.go:107-128 | whatever is pending is a whole batch after at most two steps of the one worker |
| RateLimit.Delays.CheckDelay | pkg/router/handler.go:208-247 | the verdict and the whole new state: a waiting key is dropped, another passes if its bucket has a token and otherwise is dropped with one replay asleep |
| RateLimit.Delays.WakeUp | pkg/router/handler.go:235-242 | the sleeper clears the key and enqueues one replay |
| RateLimit.Delays.ForgetBackoff | pkg/router/handler.go:249-253 | the key's limiter is gone, nothing else |
| RateLimit.EveryRunIsSound | pkg/router/handler.go:208-253 | a key waits exactly when one sleeper exists for it, no key owes more than one token, and one that does not wait owes none |
| RateLimit.NoEventIsLost | pkg/router/handler.go:208-247 | every dropped event has been followed by a replay of its key, or exactly one replay is asleep, due within five seconds |
| RateLimit.RateIsBounded | pkg/router/handler.go:222-229 | between any two reachable states T seconds apart without forgetBackoff of the key, passes and replays number at most 11 + T/5 |
| RateLimit.BoundIsMet | pkg/router/handler.go:222-247 | the bound is exact: a replay that oversleeps runs in the same instant as ten passes |
| RateLimit.FiveSecondsAreEnough | pkg/router/handler.go:219-229 | in every reachable state, a key without a pending replay passes at once five seconds later |
| RateLimit.SleepsUntilLevel | pkg/router/handler.go:229-244 | a key dropped for want of a token gets one sleeper, due exactly when its bucket will be level |
| RateLimit.ForgottenStartsAnew | pkg/router/handler.go:249-253 | after forgetBackoff, a key that is not waiting may pass ten times at once |
| Watcher.Watch.Show | pkg/watcher/watcher.go:60-75 | a deleted object is shown with a deletion timestamp and without finalizers, any other as it is |
| Watcher.Watch.Deliver | pkg/watcher/watcher.go:76-91 | the next event is shown to the callback once, and the position moves on exactly when it is accepted |
| Watcher.Watch.Turn | pkg/watcher/watcher.go:46-92 | one turn of the loop over the opened channel: one thing received, at most one call, why it stops, and the revision moved by a bookmark that has one or an event accepted without being done, and by nothing else |
| Watcher.Watch.DoWatch | pkg/watcher/watcher.go:29-93 | one watch: each event is shown in order, and how it ends says why (a refused watch, the callback, a closed channel, an error event); the last revision is the one reached (`Reached`) and, unless done, resumes right after the last accepted event |
| Watcher.Watch.Follow | pkg/watcher/watcher.go:46-92 | the same for the loop over the opened channel, with bookmarks moving the revision but not the position |
| Watcher.Watch.RetryWatch | pkg/watcher/watcher.go:95-131 | restarts go on through closes, errors and conflicts, every watch opened from the last bookmark or accepted event before it, and end at the first call that is done or fails, the first error event and the first Gone |
| Watcher.Watch.BySelector | pkg/watcher/watcher.go:177-220 | the list first, up to the first error, the last object that was done winning; then the watch from the list's revision, as in RetryWatch |
| Watcher.AcceptedExactlyOnce | pkg/watcher/watcher.go:29-131 | across all restarts the accepted events are a run of the log without gap or repetition from the initial revision on |
| Watcher.ConflictComesAgain | pkg/watcher/watcher.go:78-81 | an event that was not accepted is the one shown next |
| Watcher.NothingIsSkipped | pkg/watcher/watcher.go:29-131 | a later event is shown only after every earlier one was accepted |
| Versions.NewerIsRightIff | pkg/runtime/cached.go:42-55 | for canonical decimals of any size, newer agrees with the numbers if and only if the lengths are equal, or both are below 2^63, or the first is not and is shorter |
| Versions.NewerIsLess | pkg/runtime/cached.go:42-55 | below 2^63, newer is exactly numeric less-than |
| Versions.NewerIsTotalOrder | pkg/runtime/cached.go:42-55 | below 2^63, newer is a strict total order |
| Versions.BelowIsLess | pkg/runtime/cached.go:43-45 | on digit strings of equal length, lexicographic order is numeric order |
| Cached.CacheClient.Store | pkg/runtime/cached.go:100-115 | the object is kept under its own key with the time; an unknown kind is ignored |
| Cached.CacheClient.Purge | pkg/runtime/cached.go:74-81 | exactly the entries more than ten seconds old go, in any order |
| Cached.CacheClient.Get | pkg/runtime/cached.go:117-160 | the overlay's object if the informer's is older or missing, the informer's otherwise, and which errors are passed on |
| Cached.GotIsNewest | pkg/runtime/cached.go:128-160 | for a key the informer knows or the output object names, Get gives the newest of informer and overlay |
| Cached.ErrorsAre | pkg/runtime/cached.go:128-152 | Get returns an error exactly if the informer failed, then that error, or the object's kind is unknown; an object is missing exactly if neither informer nor overlay has it |
| Cached.PurgedIff | pkg/runtime/cached.go:74-81 | an entry is purged if and only if it was stored more than 10.0 seconds before, and is kept as it is until then |
| Cached.EveryRunIsSound | pkg/runtime/cached.go:65-160 | over every run of writes, reads, purges and a bounded lag, informer or overlay has everything this client has seen |
| Cached.GetNeverGoesBack | pkg/runtime/cached.go:65-160 | in every reachable state Get returns nothing older than any version this client wrote or read before |
| Cached.NotFoundServesNamedKey | pkg/runtime/cached.go:138-152 | when the informer does not find the key, the stored write is returned if and only if the output object carries the requested key |
| Cached.BlankObjectMissesOwnWrite | pkg/runtime/cached.go:138-152 | a Get into a blank object misses the client's own write |
| Cached.DeletedIsForgotten | pkg/runtime/cached.go:86-98 | after a delete the informer alone decides what Get says of the object, however much newer the stored write was; other keys are read as before |
| Keys.Cut | pkg/runtime/controller.go:391-396 | cutting at the first separator loses nothing |
| Keys.EncodingIsUndone | pkg/router/handler.go:255-287 | for plain names, onChange reads every encoding back to its flavour, namespace and name, and a key is special exactly when it is not a change |
| Keys.KeyParseIsRightIff | pkg/runtime/controller.go:390-402 | KeyParse recovers the object from changes and triggers, and never from the replays that are queued |
| Keys.KeysAreDistinct | pkg/runtime/backend.go:99-107 | no two flavours or objects share a key |
| Controller.QueueController.EnqueueKeyAfter | pkg/runtime/controller.go:362-371 | buffered before the run, queued in the key's queue after |
| Controller.QueueController.EnqueueAfter | pkg/runtime/controller.go:377-388 | the same for a namespace and name |
| Controller.QueueController.EnqueueObject | pkg/runtime/controller.go:411-425 | the same for an informer event, without delay |
| Controller.QueueController.CreateQueues | pkg/runtime/controller.go:157-174 | the buffer is released into new queues, each key in the queue it splits to, and is empty then |
| Controller.EveryKeyIsQueuedOnce | pkg/runtime/controller.go:152-174 | over all interleavings with the first run: buffer and queues never coexist, and each queue holds exactly the requests whose keys split to it, once each and in order |
| Controller.DelaysAreKept | pkg/runtime/controller.go:157-174 | buffered or not, every request is queued with the key and the delay it was made with, in order |
| Controller.KeyStaysInItsQueue | pkg/runtime/controller.go:77-80 | all calls for a key are in its queue, in order, and none elsewhere |
| Controller.RoutedAddsUp | pkg/runtime/controller.go:166-172 | queue lengths add up to the number of requests |
| Workers.EveryRunIsSound | pkg/runtime/controller.go:257-296 | every handler holds a slot of its queue's semaphore, and no queue takes more than its share |
| Workers.HandlersAreBounded | pkg/runtime/controller.go:246-302 | in every reachable state at most max(workers, queues) handlers run |
| Workers.HandlersFinish | pkg/runtime/controller.go:281-286 | a running handler can always give its slot back, and an item that waits for one gets it |
| Workers.SpareSlotLaunches | pkg/runtime/controller.go:246-279 | a queue with no slot taken, or fewer than its part of the workers, launches the item it has in hand in two steps |
| Workers.QueueFillsUp | pkg/runtime/controller.go:246-296 | so any queue can come to run its whole part of the workers at once |
| FinalizerHandler.World.Handle | pkg/router/finalizer.go:14-63 | one run of Handle, with anything happening in between, is one handler's part in a protocol run from its first step to its last, and returns an error exactly if Next failed or an update was refused; if Next comes back clean over a deleted object with the ID first and there is no error, the ID is off the list or Next left an old copy; left alone with the latest version, the list ends with the missing ID appended, or without its first one, the object gone if nothing is left |
| FinalizerHandler.World.Finalize | pkg/router/finalizer.go:30-63 | the deletion half is a part of a protocol run with anything in between, ends at rest, fails exactly if Next or an update does, reports the delay of Next, and removes nothing if there is one |
| FinalizerHandler.World.SaveStatus | pkg/router/finalizer.go:49-53 | a changed status is written and is then the server's; the write fails exactly if the server refuses it |
| FinalizerHandler.World.Next | pkg/router/finalizer.go:34-49 | Next may read, write and ask for delays in any order; the delay returned is the last one asked for, none if none was |
| Finalizer.FinalizersAreConserved | pkg/router/finalizer.go:14-63 | over any interleaving, the first IDs and those added are those removed, in order, followed by those on the list; no ID comes twice |
| Finalizer.ListChangesInOrder | pkg/router/finalizer.go:20-60 | an ID leaves only from the front of a deleted object's list, by a handler of that ID whose Next came back without error or delay; an ID comes only at the end, before deletion |
| Finalizer.RemovedIsPrefix | pkg/router/finalizer.go:30-60 | the list at deletion time is what has been removed, in order, followed by what is left |
| Release.FinalizerIsReleased | pkg/router/finalizer.go:20-60 | over any interleaving, a run of Handle on a deleted object with the ID first whose Next comes back clean ends with the ID off the list, unless an update of it was refused as stale or Next left an old copy |
| Release.UndisturbedRun | pkg/router/finalizer.go:14-63 | begun with the latest version and left alone, a run ends with the list that is due: the ID appended if it was missing and the object is not deleted, its first ID taken off if it is deleted and Next came back clean, unchanged otherwise; the object is gone exactly if it is deleted and the list empty, and the only error is that of Next |
| Release.ReturnAlone | pkg/router/finalizer.go:38-62 | left alone from the return of Next on, the status in the end is the one Next left if that differs from the status Handle began with, and otherwise stays |

## Left out

- Kubernetes clients, informers, REST mapping and discovery: the API server, the informer and the watch are abstract.
- The client-go three-way merge and the patch library: modelled by their contract, `ThreeWay.Patch`.
- Strategic merge patch: kinds that use it are patched by library code with list merge keys; the theorems on patches are for kinds patched by JSON merge patch.
- Apply.ApplyLeaves: and the other theorems on whole applies from the input are for objects that do not opt out of creation or update (`Straight`); objects that opt out are not to be created or updated, and for them there is `Rights.EveryWriteIsRightful`. What happens when an object is out of sight of another version is `Apply.HiddenNeverRests` and `Pruning.MovedObjectGoes`.
- gzip, base64, SHA-1 and SHA-256: parameters of `Prune.Library`; convergence assumes only that unpacking undoes packing.
- JSON text: documents are trees, so key order, number formats and duplicate keys are not modelled, and a patch that sanitizing leaves alone is the same document rather than the same bytes.
- Kind-specific reconcilers (pkg/apply/reconcilers.go): a parameter that may handle a change, ask for replacement or fail.
- Ensure writing results back into the caller's objects (pkg/apply/desiredset_compare.go:244-263).
- Other clients writing between the list and the end of a pass: within a pass the server changes only by the pass. A patch is merged into what the server holds by then, so a write of someone else in between would be patched over. The world before a pass is arbitrary in `Rights.EveryWriteIsRightful`.
- Nested documents are values: two objects that share a nested Go map are not modelled.
- Finer interleavings of `process` and `register`: `Triggers.TriggerIndex.Process` is one step, so a registration made while the deletions of the same kind run is ordered before or after all of them.
- Spurious wake-ups of the condition variable.
- Rounding in the rate limiter: tokens and times are reals.
- Revisions the server cannot compare and objects without a revision: the event log of `Watcher.Server` has increasing, non-empty revisions.
- Endless watches: an endless watch is seen through all its finite beginnings, each ended by the context.
- Deletions and DeleteAllOf in the runs of `Cached`: the theorems about runs are for keys that are not deleted; what a delete does to reads is `Cached.DeletedIsForgotten`.
- Uncached and untriggered holders, List and sub-resources of the cached client: one branch each.
- The client-go work queue: `Controller` records the calls on each queue, so deduplication and delays are not modelled.
- A second run of a controller, which replaces the queues of the first.
- A class for the worker loops: the loops of `runWorkers` are modelled as a state machine over their steps, because they only meet through the channel.
- Processing of a single queue item, retries by rate limiting, and shutdown of informers.
- Handlers that write finalizers in Next, and other writers of the finalizer list.
- Leader election, the file lock, health server, logging, tracing, webhooks, YAML, names and typed helpers.
- SharedHandler (pkg/runtime/sharedhandler.go:49-70): it deletes in place from a slice that running iterations share.
- Condition middleware and the route builder's filters: short folds that would only add easy members.

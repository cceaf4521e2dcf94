# dev.box: config server and settings screen, modelled and proved in Dafny

dev.box gives every authenticated SSH user named boxes (Kubernetes pods), one per operator-mounted
template. Two programs of the repository carry the promises modelled here.

- The **config server** answers each connection with a pod configuration. It looks the template up by
  exact name through a stat-keyed cache, derives the pod name and the owner label from the verified
  identity, enforces a per-owner cap, creates retained volume claims, and, for the reserved name
  `settings`, reconciles a ServiceAccount, a Role and a RoleBinding for the owner.
- The **settings screen** is the terminal program behind that reserved name. It lists the owner's boxes,
  polls them, and deletes one after a confirmation.

`dafny verify dfyconfig.toml` checks everything.

## How the model is built

**The Kubernetes API** (`KubeApi.dfy`) is a store of named objects, each with a unique id and a resource
version. Creating an existing name fails with AlreadyExists and updating with an old version fails with
Conflict. `Server` is one request's connection to it. Before each call the rest of the cluster takes a
*turn*: any list of other writers' actions, and possibly a fault that loses the request or only its
answer. The script of turns is arbitrary, so a fact about every script is a fact about every
interleaving of that request with the others. Facts about several requests use worlds with one
program counter per request, in which every Get, Create, Update and List is its own event.
`ensureClaim` and the reconcile loop are imperative methods. Each is proved equal to an automaton, and
the worlds advance by that same automaton, so run theorems speak about the code.

**Templates** (`Templates.dfy`) are heap objects: label maps, volume arrays and PVC references with
identity. Copying an `AppConfig` copies pointers, as in the source. `ConfigHandler` (`Handler.dfy`) holds
the cache as such objects, and its contracts say what they spell out as values (`Serving.dfy`,
`Loading.dfy`), which objects a response owns, and that cached ones are never written to. The
template directory (`Directory.dfy`) may change before every access.

**The cache** also has a concurrent model (`TemplateCache.dfy`): stat, lock, read and fill are separate
events, and files change between any two of them.

**The screen** is a class updated in place (`SettingsModel.dfy`), proved equal to a transition function over
which all run properties are stated (`SettingsRuns.dfy`). Outstanding refreshes and deletes are multisets;
a completion arrives only for an outstanding command, in any order.

**Layout** (`Layout.dfy`): a line is what it shows and its display width. Text has one column per
character, and the width of every text whose wording does not matter is an arbitrary parameter.

Strings are byte strings: one `char` is one byte. SHA-256 is any function to 64 hexadecimal digits; where
collisions matter, injectivity on the owners concerned is a hypothesis of the lemma. YAML decoding is
an arbitrary function of file content. Go's `int` values here are counts and sizes and are unbounded.

Methods and automata are proved equal to specification functions; the lemmas whose names end in
`SpelledOut`, `Exactly` or `Meaning`, and the others in the table, say what those functions mean without
naming them: by key, by field, by effect, by count.

## Results worth reading first

1. One claim object is accepted for one (owner, template, claim) only, over every interleaving, with no
   assumption about hashes (`Claims.ClaimIsolation`). Claims are monotone over every run
   (`Claims.ClaimsAreRetained`), and a connection repeated after faults ends where an uninterrupted one
   would (`Serving.RetriedConnectionConverges`).
2. The cap under races is cap - 1 + K for K overlapping requests (`BoxCap.CapUnderRaces`), and that bound is
   reached for every cap and K (`BoxCap.CapBoundIsReached`).
3. Concurrent settings logins converge within two attempts per object
   (`OwnerAccessRuns.ReconcileConverges`, `OwnerAccessRuns.LoginsConverge`). In every run, with any other
   writers and faults, each Role the server writes allows exactly get and delete on the pods of that
   login's owner and listed templates (`OwnerAccessRuns.RoleWritesAreExact`,
   `OwnerAccessRuns.StoredRolesAreExact`), the owner's account may do exactly that through its binding
   (`OwnerAccess.LoginMakesAccountReady`, `OwnerAccessRuns.LoginsConverge`), and a binding to another role is never touched
   (`OwnerAccessRuns.WritesAreWanted`).
4. The cache is linearizable under exactly one condition on the history of a file: when a (size, mtime)
   comes back, whatever was decodable since then is what the file holds again
   (`TemplateCache.LinearizableExactly`). Never reusing a (size, mtime) is enough.
5. Over any sequence of connections, every template the cache ever took in, replaced or not, still spells
   out what its file held when it was read; every response stays the answer it was to its connection, on
   the cluster the earlier ones left; and no two responses share what either had changed
   (`Handler.ConfigHandler.ServeAll`).
6. The names in the settings list are exactly the names that get a box
   (`Handler.ConfigHandler.PersistentTemplates`), the Role covers exactly their pods
   (`Handler.GrantsAreBoxes`), the screen's rows are exactly what the stored Role allows
   (`TemplateList.StoredRoleMatchesScreen`), and every delete the screen issues is allowed
   (`TemplateList.IssuedDeletesAreAllowed`).
7. Every delete the screen issues is for the row the dialog was opened on, on a Live screen
   (`SettingsRuns.DeleteSafety`), and a Live screen shows exactly the round applied last
   (`AfterDelete.LiveShowsLastRound`).

## Where the code and its documentation differ

The model follows the code. For each difference a lemma gives the exact condition and another an input.

- `ownerLabelValue` promises a valid label, but trims only dashes, so an owner whose first surviving byte is
  `.` or `_` gets a label the API refuses: `Identity.OwnerLabelValidity`; input
  `Identity.DotOwnerHasInvalidLabel`.
- The comment on `ownerLabelValue` says distinct identities cannot share a quota. An owner spelled like
  another owner's rewritten label does (`Identity.QuotaSeparation`; input
  `Identity.MixedOwnersCanShareQuota`). Quotas are kept apart when no owner that is kept verbatim ends in a
  dash and eight hexadecimal digits after a tidy core (`Identity.QuotasKeptApart`), and no weaker check on
  single owners would do (`Identity.SpelledLabelsCollide`).
- The comment at settings-tui/model.go:233 says pre-delete state is never acted on or displayed.
  It is displayed after every completed delete, until a round sent since then arrives:
  `AfterDelete.ShownSinceDelete` says for every run when the rows are newer than the latest delete, and
  `AfterDelete.ShownAfterDelete` that such rows cannot be replaced by older ones again exactly when nothing was
  on its way at the delete. It can be acted on exactly when the screen is Live and sees some box at that
  moment, or some refresh was on its way: `AfterDelete.ActsAfterDelete`. Inputs:
  `DeleteExamples.OldAnswerAfterDelete`, `DeleteExamples.SameBoxDeletedTwice`.
- The confirmation rechecks only that the screen is Live. The box it deletes is one the screen sees exactly
  when the latest round since the dialog opened did not find it missing: `AfterDelete.DeletedBoxExists`;
  input `DeleteExamples.VanishedBoxIsStillDeleted`.
- A frame of height 3 with a message has 4 lines, and this is the only such case: `Layout.RenderLines`,
  `Layout.View`.

## Model

| member | source | states |
|---|---|---|
| Claims.EnsureClaim | config-server/storage.go:94-137 | Against any script of other writers and faults, the get, create, get-again sequence leaves the store and returns the verdict of the protocol automaton used by all run theorems. |
| Claims.CreatedClaimIsAccepted | config-server/storage.go:100-135 | A claim the server creates passes the server's own verification, whatever labels and annotations the template declares on it. |
| Claims.RequestedAsDeclared | config-server/storage.go:100-116 | What a call asks the API to create has the declared specification, every declared label and annotation except under the three identity keys, those three as label values and in plain, nothing else, and is live and owned by nothing. |
| Claims.VerdictOfStored | config-server/storage.go:98-136 | Without faults, whatever other writers do between its steps, a call accepts exactly when the object stored at its end is live, owned by nothing and carries the six identity entries, and reports an API error exactly when that object is gone. |
| Claims.FaultEndsRequest | config-server/storage.go:122-124 | A failed API call, whether or not it took effect, ends the request with an error. |
| Claims.ClaimIsolation | config-server/storage.go:94-137 | From any cluster, over every interleaving of requests, faults, deletions and edits that keep identity annotations, two requests that accept the same claim object have the same (trimmed owner, template, claim); PVC names are arbitrary, so no hash assumption is made. |
| Claims.ClaimsAreRetained | config-server/storage.go:91-93 | Over every run, a claim no operator touches keeps its uid, version and contents, and a claim that appears is exactly what some request asked for. |
| Claims.FailureLeavesPrefix | config-server/storage.go:72-79 | Whatever faults a multi-claim request meets, it leaves exactly a prefix of its claims ensured, all of them if it succeeds, and rolls nothing back. |
| Claims.RetryConverges | config-server/storage.go:91-137 | A fault-free retry after any faulty attempt ends with the store and the verdict of one uninterrupted attempt. |
| Claims.UndisturbedCall | config-server/storage.go:98-136 | Alone, a call adds the claim only if it is missing and then judges what is stored. |
| Serving.ClaimsImplyVerifiedBox | config-server/handler.go:84-99 | A template with claims is served, or touches the claim store, only for a non-empty identity the cap admits; the served box has that identity's pod name, each volume naming a declared claim names this pod's PVC for it, and every other volume is unchanged. |
| Serving.ServedClaimsAreOwned | config-server/storage.go:73-79 | If only the connection can fail, every claim of a served box is stored when it is served, is neither terminating nor owned, and its annotations and labels name this trimmed owner, template and claim. |
| Serving.CreatedClaimIsAsDeclared | config-server/storage.go:99-121 | After a served connection, a claim that was not there before is stored under this pod's PVC name exactly as declared: specification, labels, annotations and identity. |
| Serving.PvcNameIsDns | config-server/storage.go:45-47 | The PVC of an accepted claim has a name of lower-case letters, digits and dashes, a letter first and no dash last, of at most 78 bytes. |
| Serving.GateExactly | config-server/persistent.go:111-192 | Who is refused and why, counted on the listing: no identity; under a cap a failed list, or no live pod of that name and as many places taken as the cap; everyone else passes. |
| Serving.GateDecides | config-server/handler.go:84-99 | A personal template, with or without claims: what identity or cap refuse is refused for that reason with claims untouched, and what they pass can only be refused over claims. |
| Serving.FailedListRefuses | config-server/persistent.go:167-182 | Under a cap, a failed pod list refuses the box and touches no claim. |
| Serving.ServedBoxIsLabelled | config-server/persistent.go:135-146 | A served personal box has the box name, is made on demand, carries the owner label the cap lists by and the template label, and every other label as the template has it. |
| Serving.OtherTemplatesAreServedAsTheyAre | config-server/handler.go:84-94 | A template that selects another mode and has no claims is served unchanged, to anyone. |
| Serving.RetriedConnectionConverges | config-server/storage.go:63-89 | Connecting again after faults gives the answer and the claims of a connection that never failed. |
| Identity.ClaimNameInjective | config-server/storage.go:74 | Equal PVC names come from equal pod names and equal claim names. |
| Identity.BoxNameShape | config-server/persistent.go:194-203 | A box name is the prefix and ten hexadecimal digits. |
| Identity.BoxNamesSeparate | config-server/persistent.go:194-198 | If the ten-digit hash tells two identity texts apart, equal box names mean the same owner and the same template. |
| Identity.OwnerNamesSeparate | config-server/owner_access.go:29-30 | Owners share their objects' names exactly when they trim to the same text, if the 48-digit hash tells trimmed owners apart. |
| Templates.ReadClaims | config-server/storage.go:29-58 | Accepts claim declarations exactly when there are none, or the template runs in persistent mode and all names are distinct DNS labels (section 2.1 of RFC 1123) with a positive storage request. |
| Templates.CopyVolumes | config-server/storage.go:68 | The copy spells out the same volumes, consists of new objects only, and no two of its volumes share a reference. |
| Templates.RewriteInPlace | config-server/storage.go:80-87 | Only reference objects are written; each declared reference is rewritten exactly once and every other volume is as before, even if a new name is itself a declared name. |
| BoxCap.LivePodNamesForOwner | config-server/persistent.go:80-95 | Returns, in order, the listed pods that are neither terminating nor finished. |
| BoxCap.EnforceCap | config-server/persistent.go:169-192 | Admits, refuses at the cap, or refuses because the list failed, as the verdict function says; without a cap the list is not consulted. |
| BoxCap.VerdictIsAdmits | config-server/persistent.go:169-192 | In whatever order the API lists the owner's pods, a request is admitted exactly when there is no cap, its pod is live, or fewer than cap pods are. |
| BoxCap.CapUnderRaces | config-server/persistent.go:167-192 | With at most K requests of an owner between list and pod creation, live and still to be created boxes never exceed cap - 1 + K, under any interleaving with reconnects, failures, deletions and other owners. |
| BoxCap.CapBoundIsReached | config-server/persistent.go:167-192 | For every cap and K there are a cluster with cap - 1 boxes of the owner and a run within the same hypotheses in which cap - 1 + K boxes are live at once. |
| OwnerAccess.Attempt | config-server/owner_access.go:118-132 | One try of the read, then create or update closure is one attempt of the protocol automaton, and only a conflict or an existing object asks for another. |
| OwnerAccess.Reconcile | config-server/owner_access.go:98-160 | The retry loop around that closure leaves the store of the protocol automaton and reports its verdict, against any script of other writers and faults. |
| OwnerAccess.MetMeansStored | config-server/owner_access.go:98-160 | A reported success means the wanted content was stored when the last call was answered. |
| OwnerAccess.EnsureOwnerAccess | config-server/owner_access.go:25-55 | Makes no call when not configured; otherwise reconciles account, Role and binding in that order up to the first refusal and returns the common name. |
| OwnerAccess.ExactAuthority | config-server/owner_access.go:29-42 | The rules allow a request exactly when it is get or delete on a core pod whose name is that of a listed template for the trimmed owner; an empty list allows nothing. |
| OwnerAccess.EmptyNamesGrantEverything | config-server/owner_access.go:39-40 | Why the empty list has no rule: a rule without resource names would allow deleting every pod. |
| OwnerAccess.LoginGrantsExactly | config-server/owner_access.go:25-55 | Alone, a login succeeds exactly when no foreign object stands in the way, and then all three objects are as wanted and the stored Role allows exactly the listed boxes. |
| OwnerAccess.LoginMakesAccountReady | config-server/owner_access.go:25-55 | Alone, a login succeeds exactly when nothing stands in its way; then the owner's account mounts no token by itself, through the owner's binding it and no other account may get and delete exactly the listed boxes, and the login gives it nothing else. |
| OwnerAccess.FailedLoginLeavesPrefix | config-server/owner_access.go:43-54 | However the connection fails, a Role is written only with the account in place and a binding only with account and Role in place. |
| OwnerAccessRuns.WritesAreWanted | config-server/owner_access.go:118-160 | In every run with any other writers and faults, a login's step changes at most the object its goal names, leaves it as wanted, and never changes a foreign one. |
| OwnerAccessRuns.OnlyConflictsAreRetried | config-server/owner_access.go:162-164 | A failed call ends a login; a conflict or an existing object starts the attempt over while the limit allows; nothing else is tried again. |
| OwnerAccessRuns.RoleWritesAreExact | config-server/owner_access.go:29-51 | In every run of settings logins with any other writers and faults, a step that changes a Role changes that of the login's owner and leaves it allowing exactly get and delete on the pods of that owner and the login's templates. |
| OwnerAccessRuns.StoredRolesAreExact | config-server/owner_access.go:118-133 | In every reachable cluster, a Role no other writer touched is as it was at the start or allows exactly what one of the logins so far was to be allowed. |
| OwnerAccessRuns.ThreeObjectsPerOwner | config-server/owner_access.go:19-31 | However many logins interleave, the cluster gains at most three objects per distinct trimmed owner. |
| OwnerAccessRuns.ReconcileConverges | config-server/owner_access.go:98-164 | Concurrent logins wanting the same objects are never refused, need at most two attempts and three calls per object, and leave every object as wanted. |
| OwnerAccessRuns.OwnerGoalsFit | config-server/owner_access.go:148-152 | The three objects of an owner meet the hypotheses of the convergence result, and nothing is in their way exactly when no other kind of object and no binding to another role is stored under their names. |
| OwnerAccessRuns.LoginsConverge | config-server/owner_access.go:43-54 | Concurrent logins of one owner with one list, from any cluster with nothing in their way, all succeed within nine calls, and from the first success on the Role is exact and the owner's account may do exactly that through its binding. |
| TemplateCache.CacheIsLinearizable | config-server/handler.go:113-165 | While the history of a file is steady, every template a lookup of it returns is the parse of a version current at some instant from its stat to its return, though files change and other lookups fill the entry meanwhile. |
| TemplateCache.LinearizableExactly | config-server/handler.go:139-165 | A history is steady if and only if every schedule of writes and lookups that takes the file through it is linearizable. |
| TemplateCache.UnsteadyServesStale | config-server/handler.go:144-147 | For every history that is not steady, writes and two lookups through it in which the second is served text that was gone before it began. |
| TemplateCache.FreshStatsAreSteady | config-server/handler.go:144-147 | A history in which no (size, mtime) comes back is steady. |
| Handler.ConfigHandler.ReadCached | config-server/handler.go:139-165 | Returns the cached template on a stat match, else what the file holds now, remembering it; no cached object is written to, and the log of everything ever cached only grows and still stands. |
| Handler.ConfigHandler.Load | config-server/handler.go:111-137 | Loads only a valid name's own .yaml or .json; on a directory that stands still and a coherent cache it returns what an uncached lookup would, .yaml first, and keeps the cache coherent. |
| Loading.LoadedNameIsUsername | config-server/handler.go:81-82 | The template name derived from the loaded file is the requested username, dots included. |
| Loading.LoadSpelledOut | config-server/handler.go:111-137 | The .yaml file answers whenever it can be stat'ed, the .json file only without one, neither for an invalid name; what answers is that file's decoded, accepted text. |
| Loading.ReadSpelledOut | config-server/storage.go:29-58 | A file is a usable template exactly when it decodes and has no claims, or is for persistent mode and gives every claim a DNS label no other claim has and positive storage. |
| Loading.ConsideredSpelledOut | config-server/owner_access.go:71-84 | The walk considers exactly the valid names other than the reserved one for which an entry that is no folder is called name.yaml or name.json. |
| Loading.BoxesAreConsidered | config-server/owner_access.go:71-84 | Every name other than the reserved one that gets a box is met by the walk. |
| Handler.ConfigHandler.PersistentTemplates | config-server/owner_access.go:64-96 | The list is sorted, duplicate-free, valid and without the reserved name; on a directory that stands still it exists exactly when every considered name loads, and holds exactly the names that get a box. |
| Handler.GrantsAreBoxes | config-server/owner_access.go:57-63 | The owner's Role covers exactly the pods that the owner's connections are given on that directory. |
| Handler.ConfigHandler.ApplyPersistent | config-server/persistent.go:111-158 | Refuses an empty identity and what the cap refuses; otherwise the result spells out the injected name and labels in a new label map and still uses the cached volumes. |
| Handler.ConfigHandler.EnsureClaims | config-server/storage.go:72-79 | Ensures the declared claims in order up to the first refusal and maps each declared name to its PVC name. |
| Handler.ConfigHandler.ApplyStorage | config-server/storage.go:60-89 | Makes no call when not configured; otherwise ensures the claims and spells out the rewritten volumes in objects that are all new. |
| Handler.ConfigHandler.AnswerTemplate | config-server/handler.go:84-108 | The reply and the claims left are those of the answer function; a template without claims, or refused by identity or cap, makes no claim call; whatever the response changed it owns. |
| Handler.ConfigHandler.ServeTemplate | config-server/handler.go:67-108 | The same for a username: the template that answers is the one its own file held, a missing and a broken template are told apart, and on a directory that stands still it is the one an uncached lookup finds. |
| Handler.ConfigHandler.SettingsConfig | config-server/settings.go:23-102 | Checks identity, image, template walk and access in that order; a served application carries the raw owner, the joined list, the cap and the reconciled account, and nothing is reconciled before the walk succeeds. |
| Handler.ConfigHandler.SettingsSpelledOut | config-server/settings.go:26-102 | Each refusal has its own exact cause and writes nothing; a served application carries the raw user, cap and image, a list the screen parses back to the listed names, and the account made ready for exactly those. |
| Handler.ConfigHandler.OnConfig | config-server/handler.go:62-109 | The reserved name never reaches a template or a claim, no other name reaches the owner's access objects, and each is answered as above. |
| Handler.ConfigHandler.ServeAll | config-server/handler.go:35-109 | Over any sequence of connections, every template ever cached still spells out what its file held when read; every response, settings ones included, is at the end the answer to its connection on the cluster the earlier ones left; no two share an object either had changed; on a directory that stands still each is the one the files give without a cache. |
| Identity.SanitizeBytes | config-server/persistent.go:213-232 | The one-pass loop with its previous-dash flag computes map disallowed bytes to dashes, then collapse runs. |
| Identity.CollapseMeaning | config-server/persistent.go:215-232 | Collapsing leaves no two adjacent dashes, keeps every other byte in order, and ends in a dash exactly when the input did. |
| Identity.LabelCoreIsWords | config-server/persistent.go:213-243 | The readable part of a rewritten label is the owner's maximal runs of surviving bytes joined by single dashes and cut to 54 bytes, or "owner" if there are none. |
| Identity.OwnerLabelValue | config-server/persistent.go:205-244 | Computes the owner label function for every owner string. |
| Identity.IsValidLabelValue | config-server/persistent.go:246-262 | Decides the label grammar: 1 to 63 label bytes, alphanumeric at both ends. |
| Identity.OwnerLabelShape | config-server/persistent.go:205-244 | Every label has 1 to 63 bytes of the label alphabet and ends alphanumeric, and a valid owner is its own label. |
| Identity.OwnerLabelValidity | config-server/persistent.go:205-244 | A label is valid exactly when the owner is valid already, or no byte of it survives, or the first that does is alphanumeric. |
| Identity.DotOwnerHasInvalidLabel | config-server/persistent.go:233 | The owner "." gets an invalid label. |
| Identity.QuotaSeparation | config-server/persistent.go:205-244 | If the short hash separates the owners considered, two of them share a label exactly when one is verbatim and spells the other's rewritten label; two verbatim or two rewritten owners never do. |
| Identity.MixedOwnersCanShareQuota | config-server/persistent.go:205-210 | Every rewritten owner with a valid label has such a partner. |
| Identity.QuotasKeptApart | config-server/persistent.go:205-207 | If moreover no owner kept verbatim looks like a rewritten label, all labels are distinct. |
| Identity.SpelledLabelsCollide | config-server/persistent.go:235-243 | A verbatim owner is the label of another owner, under some hash that separates the two, exactly when it looks like one. |
| TemplateList.IsValidTemplateName | config-server/handler.go:167-181 | Decides the template-name grammar. |
| TemplateList.ParseTemplates | settings-tui/boxes.go:40-62 | The loop with its seen set computes the parse: blank parts skipped, duplicates collapsed, sorted, anything invalid fatal. |
| TemplateList.ParsedShape | settings-tui/boxes.go:40-62 | A list that parses is sorted, duplicate-free and valid. |
| TemplateList.ParseSpelledOut | settings-tui/boxes.go:40-62 | A list is malformed exactly when some part that is not blank is no valid name once trimmed; otherwise it holds exactly those parts, trimmed, sorted and without duplicates. |
| Strings.TrimMeaning | config-server/persistent.go:114 | Trimming an identity takes white-space code points off both ends, as many as there are, and nothing else. |
| Strings.SplitMeaning | settings-tui/boxes.go:47 | Splitting at commas loses nothing and leaves no comma in a part. |
| Strings.LeqMeaning | config-server/owner_access.go:94 | The order lists are sorted by is decided at the first byte that differs; a prefix comes first. |
| TemplateList.PublishedListRoundTrips | config-server/settings.go:83 | Joining a published list with commas and parsing it gives the same list. |
| TemplateList.RowsAreGrants | settings-tui/model.go:148-150 | From the raw owner and the published list the screen builds rows for exactly the pods the owner's rules allow. |
| TemplateList.ExactRoleMatchesScreen | settings-tui/model.go:148-150 | A Role that is exact for a login allows get and delete on exactly the pods of that login's screen rows. |
| TemplateList.StoredRoleMatchesScreen | config-server/settings.go:37-44 | However many logins of an owner with one list run at once, from the moment one has succeeded the owner's account may get and delete, through its binding, exactly the pods of the screen's rows. |
| TemplateList.IssuedDeletesAreAllowed | settings-tui/model.go:137-152 | On the screen the program builds from the raw owner and the published list, every delete issued in any run is allowed by the owner's rules. |
| SettingsModel.Model.ApplyRows | settings-tui/model.go:253-283 | The in-place loop turns each row into the result of its own answer and counts answers and failures. |
| SettingsModel.Model.RefreshRows | settings-tui/model.go:249-296 | The whole new screen after a refresh round, including a round of the wrong length. |
| SettingsModel.Model.PressInList | settings-tui/model.go:344-379 | The whole new screen and the commands after a key in the list. |
| SettingsModel.Model.PressInDialog | settings-tui/model.go:381-401 | The whole new screen and the commands after a key in a dialog. |
| SettingsModel.Model.Update | settings-tui/model.go:202-244 | The in-place update is the transition function of the run model, and keeps every index in range. |
| SettingsRuns.NewScreenIsInitial | settings-tui/model.go:137-152 | The screen the program builds has one row per template with the owner's box name, and is one from which every run property applies. |
| ScreenMeaning.StartSpelledOut | settings-tui/model.go:154-156 | The program first sends one refresh, for all names. |
| ScreenMeaning.LiveRowsSpelledOut | settings-tui/model.go:249-333 | In every reachable state of a Live screen, a row shows the pod the round applied last found, with the state its deletion mark and phase mean, or, if it found none, a box that is not created. |
| ScreenMeaning.RoundSpelledOut | settings-tui/model.go:249-296 | What one round changes: each row by its answer, failed rows keeping what they knew and stale only with a phase; Live, Partial or Unreachable by who answered; the message cleared on Live; nothing else. |
| ScreenMeaning.KeySpelledOut | settings-tui/model.go:335-401 | What one key does, effect by effect: selection, dialog, commands, message; rows, connection and size never change. |
| ScreenMeaning.MessageSpelledOut | settings-tui/model.go:202-238 | What a resize, a tick and a completed delete do. |
| ScreenMeaning.CreatedCountSpelledOut | settings-tui/model.go:416-429 | The created count is the number of rows whose box the screen sees. |
| SettingsRuns.LiveMeansVouchedFor | settings-tui/model.go:249-333 | In every reachable state a Live screen shows only rows the latest round confirmed; rows keep template and name, the selection is in range, and only a row with a known phase is stale. |
| SettingsRuns.DeleteSafety | settings-tui/model.go:335-401 | In every run a delete is issued exactly by y in a confirmation on a Live screen, for the row on which d opened it; that row is neither stale nor waiting for a reconnect, and no delete is outstanding. |
| SettingsRuns.OneDeleteInFlight | settings-tui/model.go:381-395 | At most one delete is outstanding, and the screen says Deleting exactly while one is. |
| SettingsRuns.DialogKeepsItsRow | settings-tui/model.go:335-401 | No event moves an open dialog to another row. |
| SettingsRuns.BoundedBacklog | settings-tui/model.go:154-237 | Outstanding refreshes never exceed two plus the completed deletes. |
| AfterDelete.LiveShowsLastRound | settings-tui/model.go:249-296 | In every reachable state a Live screen shows, in every row, exactly what the round applied last answered for it. |
| AfterDelete.DeletedBoxExists | settings-tui/model.go:385-395 | In every run, when y is about to send the delete, the named row is one the screen sees exactly when the latest round applied since d opened the dialog did not find it missing, and always when none was. |
| AfterDelete.ShownSinceDelete | settings-tui/model.go:233-237 | In every run the rows shown are from after the latest delete exactly when some round arrived and the last that did was sent after that delete completed. |
| AfterDelete.ShownAfterDelete | settings-tui/model.go:222-237 | A completed delete leaves the earlier rows on the screen; until the next one only newer rows can follow exactly when no refresh was on its way. |
| AfterDelete.ActsAfterDelete | settings-tui/model.go:222-237 | After a delete completes and until the next one does, y can delete from rows that are not newer than it exactly when the screen was Live and saw some box, or some refresh was on its way. |
| DeleteExamples.OldAnswerAfterDelete | settings-tui/model.go:233-237 | A run in which an answer from before the delete is shown after it on a Live screen. |
| DeleteExamples.SameBoxDeletedTwice | settings-tui/model.go:233-237 | A run in which nothing was on its way at the delete and the same box is deleted again from the old row. |
| DeleteExamples.VanishedBoxIsStillDeleted | settings-tui/model.go:385-395 | A run in which y deletes a box that a refresh reported gone while the dialog was open. |
| Layout.ScrollRows | settings-tui/view.go:233-246 | The window has as many rows as fit and contains the selected one. |
| Layout.ScrollWindow | settings-tui/view.go:233-246 | The window is a contiguous stretch of the rows around the selected one. |
| Layout.PaneWidths | settings-tui/view.go:273-294 | Both panes, when shown, span the width exactly with one column between; each pane is dropped exactly when it does not fit. |
| Layout.CapBarMeaning | settings-tui/view.go:362-377 | The bar has ten cells, neither part is negative, it is full exactly at or over the cap, and below it has as many full cells as the created boxes are whole tenths of the cap. |
| Layout.TemplateWidthExact | settings-tui/view.go:328-335 | The name column is as wide as the longest name, and at least six. |
| Layout.MasterRowLines | settings-tui/view.go:325-360 | Every row of the list pane has exactly the pane's inner width. |
| Layout.MasterPane | settings-tui/view.go:296-323 | The pane has exactly the budgeted lines, all equally wide, the selected row among them, and the cap bar when there is a cap. |
| Layout.DetailPane | settings-tui/view.go:379-457 | The same for the detail pane; with data, the strip and the ledger are complete and only the honesty line may be dropped. |
| Layout.ZipPanes | settings-tui/view.go:497-517 | Two equally tall rectangles side by side form a rectangle one column wider than both. |
| Layout.DeletePopup | settings-tui/view.go:459-495 | When the popup fits the width it fits the height, and states the question, every consequence and the keys. |
| Layout.BodyLines | settings-tui/view.go:565-577 | One to budget lines, the selected row among them. |
| Layout.DialogLines | settings-tui/view.go:635-667 | One to budget lines, the question among them, the data warning from two lines on, the keys in a line of their own from three, and every consequence from five. |
| Layout.RenderLines | settings-tui/view.go:109-173 | The footer is last and the message second to last; there are at most height lines except at height 3 with a message, where there are 4; without panes the header comes first; two panes give exactly height lines as wide as the terminal; the selected row or the question is shown from height 2 on. |
| Layout.View | settings-tui/view.go:99-107 | Each rendered line reaches the terminal in its place, cut to the width if it is wider and otherwise as it was, and the frame is laid out as rendered. |

## Left out

- The auth server: straight-line decisions around an external lookup.
- HTTP, TLS, tokens, timeouts, logging, environment parsing (the cap is passed as a number) and server lifecycle.
- YAML, Kubernetes quantities, client-go and Bubble Tea: decoding is an arbitrary function of file content, a quantity's sign is a field of the declaration, and the retry helper is a bounded loop whose limit is a parameter (convergence needs two attempts).
- SHA-256 itself: only the length and alphabet of its output are used.
- The gateway that creates pods: only its create-if-missing step appears, as an event of the cap model.
- `safeJoin`: only valid template names reach it, and those contain no separator.
- Pod and claim specifications: a claim's spec is an opaque string, and of a pod's spec only the volumes are modelled, with name and claim reference.
- Message wording, colours, control-character sanitizing, wide runes, and the formatting of uptimes and resources.
- The Helm chart, the shell suites and the probes.
- Handler.ConfigHandler.SettingsConfig: the constant security, pod and container fields of the settings response are not listed; only what depends on the request or the server's configuration is.
- Handler.ConfigHandler.ServeAll: connections are served one after the other; concurrent lookups are the subject of `TemplateCache.CacheIsLinearizable`, where templates are values and not heap objects.
- Handler.ConfigHandler.PersistentTemplates: exactness is stated for a directory that stands still and a cache that agrees with it wherever a stat matches (an empty cache does); on a changing directory only order, distinctness and validity are stated.
- Handler.ConfigHandler.ApplyPersistent: the answer of the pod list is a parameter, so that the list and the later pod creation can interleave; `BoxCap.CapUnderRaces` is about that interleaving.
- OwnerAccess.Reconcile: the three near-identical loops of the source are one method over the kind of object.
- Serving.ServedClaimsAreOwned: other writers are excluded, since an operator may delete a claim right after it was verified.

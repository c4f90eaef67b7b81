# A model of the Databricks service principal operator

The operator issues a Databricks service principal for each identity a Kubernetes ServiceAccount asks
for, and promises that none is made twice, left behind, or passed on to somebody else, whatever crashes,
whatever a cache or a listing has not caught up with, and whoever else operates in the same cluster. This
project models the code that keeps the promise and proves what it keeps, over every run. `dafny verify
dfyconfig.toml` verifies all of it.

| files | what they model |
|---|---|
| `Records`, `RecordProtocol`, `RecordSafety`, `RecordTheorems`, `RecordRuns`, `RecordDeletes`, `RecordBuilds`, `LostCreates`, `LostExactly` | A record's life as a state machine over single calls: the API server with resource versions, finalizers and deletion; Databricks with creates in flight; any number of workers, each stopped anywhere. |
| `RecordReconciler` | The controller's own imperative pass over a record, every call of it shown to be one the state machine allows. |
| `ServerSideApply`, `DestructionClaim`, `ClaimRuns`, `SuspendedMinting` | The claim an operator puts on a namespace while it destroys there, and the minting that stops meanwhile. |
| `Destruction`, `DestructionEnds` | The account's pass over what it no longer names, what its "everything is destroyed" means, and that it comes to an end. |
| `Requests`, `Projection`, `ProjectionRuns`, `ProjectionEnds`, `Admission` | What annotations ask for, what is shown of it on an object several operators write, and what is refused on the way in. |
| `Paths`, `Profiles`, `ProfilesRead`, `Pods`, `PodToken`, `PodEquipment`, `PodReads` | What a pod is given, what the cache keeps of it, what a reader of the configuration makes of it, and what a container finds. |
| `ServicePrincipals`, `FederationPolicies`, `AccountInUse`, `RecordNames` | Finding a service principal again, its trust policy, the account in use, and a record's name. |
| `Names`, `Sorting`, `Options` | Kubernetes names, Go's string order and sort, and the usual types. |

## What is taken for granted

- A get by id answers for what is there. A listing may miss a live service principal and never shows a
  dead one; the marker is the same when a record is made again, so a dead one shown would undo the
  argument.
- Nobody but the operator writes its marker, and nobody takes a finalizer off a record by hand.
- A ServiceAccount's uid is never given to another. The account one operator acts in does not change.
- In `RecordProtocol` a marker is the three texts that are hashed, so hashes do not collide there;
  `ServicePrincipals.MarkersApart` says what that comes to for the text itself.
- Ids that Databricks gives are not empty. All operators read one clock.
- Nobody but operators writes the three keys of a destruction claim.
- A create of a federation policy that Databricks names otherwise comes back with that name.

## Where the code and what is said of it differ

- **A create that never happened is waited for without end.** The mark is written before the call
  (`internal/controller/issueddatabricksserviceprincipal_controller.go:406-419`) and is never taken back,
  so a create that failed for certain, such as one made while no clients were installed, is not told from
  one whose answer was lost. `internal/databricks/account_in_use.go:74-76` says that is reported as a
  wait; the record it happens to stays Sent for good (`LostCreates.LostForGood`). Which records those are
  is exact: a marked record never gets further just when nothing of it is or can be out, nobody who may
  create for it has clients, and no pass over it holds an answer (`LostExactly.LostIffNeverSettles`).
  Storing a mark loses the record exactly when there are no clients or the pass ends there
  (`LostExactly.MarkLosesIff`), the create when it was not taken up (`LostExactly.CreateLosesIffNotSent`),
  and the first record of an operator that has no clients yet is one of these
  (`LostExactly.MarkedWithoutClientsIsLost`).
- **A late search removes what a later record made.** "A delete is for the pass's own record" holds where
  the copy is current or names the id (`RecordDeletes.RemovesItsIncarnations`). A search held up while the
  record goes and is made again finds the new one's service principal under the same marker and removes it
  (`RecordDeletes.LateSearchRemovesAnothers`), which is so exactly when another incarnation has the name by
  then (`RecordDeletes.RemovesTheStoredIncarnations`). Nothing is orphaned by it.
- **Two identities whose operators are exchanged in one edit are never shown again as asked.** Each
  operator sends all its entries in one apply, and one entry another operator owns refuses them all
  (`internal/controller/databricksserviceaccount_controller.go:194-205`). Each waits for the other to let
  go first, and neither does (`ProjectionRuns.ExchangedForGood`). For any number of operators it is exact:
  once everybody has passed as often as there are operators, those still refused are just those that were,
  to begin with, among some each of which another of them blocks (`ProjectionEnds.RefusedIffStuck`), and
  they are refused for good, whoever else passes (`ProjectionEnds.ClosedStaysRefused`).
- **The three keys of a claim do not always leave together**
  (`internal/controller/databricksaccount_controller.go:904-910`). After a takeover, a key both operators
  wrote with one value stays owned by the first (`DestructionClaim.Residue`). For two accounts of one name
  that is the account annotation, which keeps every operator of another name out for good
  (`ClaimRuns.StrangersWaitForGood`). For two operators in one namespace it is the label, which suspends
  minting and which nobody reads as theirs to lift (`DestructionClaim.SharedNamespaceStaysSuspended`).
- **A claim can be taken up to a second early**, because its age is counted from a stamp cut to whole
  seconds (`DestructionClaim.TakenIffStale`, `ClaimRuns.TakenEarly`). And **a claim refreshed this very
  moment can be taken**: between another operator's read and its force (`ClaimRuns.RefreshedAfterTheRead`),
  or before the read, where the cache still shows the version before
  (`ClaimRuns.RefreshedBeforeTheRead`). In every run hands change only by force after a read past the
  threshold, and what is taken has been silent that long exactly when the Namespace itself is stale as it
  is forced (`ClaimRuns.HandsChangeByForce`). That the holder has spoken since the version read does not
  by itself make it early (`ClaimRuns.RefreshedYetSilent`).
- **A namespace nobody holds cannot always be claimed.** What another operator left there, an account of
  another name or a time, refuses (`DestructionClaim.ClaimableIffFree` says exactly when).
- **A record's readable half is ambiguous.** `api/v1alpha1/issueddatabricksserviceprincipal_types.go:313-315`
  says none of its parts holds a dot, and a ServiceAccount's name may (`RecordNames.ReadableIsAmbiguous`).
  `RecordNames.ReadableIsShared` says exactly which share one half; where neither ServiceAccount's name
  holds a dot none do (`RecordNames.ReadableIsUnambiguous`).
  The names are apart by their suffix all the same (`RecordNames.NamesApart`).
- **Two files of a pod can be in each other's way.** A profile called `config`, or one of an operator in a
  namespace called `config`, has its token under the path the configuration is written at
  (`Profiles.ConfigIsAProfile`); and a name that is the namespace of an operator called `token` has its
  token at a path the other's lies under (`Profiles.NamespaceIsAProfile`; `Profiles.FilesNest` says exactly
  when).
- **A lookup in two stages is not always the lookup in one**: where one namesake carries the marker and so
  does something else, it adopts where the whole listing would refuse
  (`ServicePrincipals.TwoStagesAreOneScan`, `ServicePrincipals.RenamedTwin`).

## Model

| member | source | states |
|---|---|---|
| `RecordProtocol.Next` | internal/controller/issueddatabricksserviceprincipal_controller.go:127-506 | One call of any pass, with any answer, or one thing somebody else does; the operator is one operator throughout, and nothing the caches hold, no version and no number is forgotten or used again. |
| `RecordProtocol.Write` | internal/controller/issueddatabricksserviceprincipal_controller.go:146-168 | A write moves no other worker's pass and sends nothing, and a pass may come to create only by having written the mark on the version that was stored. |
| `RecordProtocol.Talk` | internal/controller/issueddatabricksserviceprincipal_controller.go:415-450 | A call to Databricks writes no record, and only the create adds anything that may appear there. |
| `RecordTheorems.NextKeeps` | internal/controller/issueddatabricksserviceprincipal_controller.go:127-506 | Every step, of any worker at any point with any version it ever read, keeps the whole invariant. |
| `RecordTheorems.NoOrphan` | internal/controller/issueddatabricksserviceprincipal_controller.go:249-258 | In every run, each live service principal with this operator's marker, and each create that may still make one, is answered for by a record that is there, is held by its finalizer, is Sent or Known with that id, and is the incarnation that made it. |
| `RecordTheorems.GoneMeansNothingLeft` | internal/controller/issueddatabricksserviceprincipal_controller.go:335-338 | Once a record is gone nothing it made is live, can still appear, or is about to be sent, also across records of one name and one marker. |
| `RecordTheorems.NoDuplicate` | internal/controller/issueddatabricksserviceprincipal_controller.go:426-431 | No two live service principals carry one key of this operator, whatever issuers their markers name. |
| `RecordTheorems.NothingInherited` | internal/controller/issueddatabricksserviceprincipal_controller.go:206-213 | Whatever id a record holds was made by its own incarnation under its own key, and the client id beside it is the one Databricks gave with it. |
| `RecordDeletes.RemovesItsIncarnations` | internal/controller/issueddatabricksserviceprincipal_controller.go:249-339 | What a pass is about to remove was made by the very incarnation it is for, while its copy is what is stored, and always where the copy names the id. |
| `RecordDeletes.RemovesTheStoredIncarnations` | internal/controller/issueddatabricksserviceprincipal_controller.go:249-339 | A delete sent to Databricks, by however old a pass, is for what carries this operator's marker and the record's own key, and was made by the incarnation stored under that name; so it is another's than the pass's exactly when another has the name by then. |
| `RecordDeletes.LateSearchRemovesAnothers` | internal/controller/issueddatabricksserviceprincipal_controller.go:426-450 | From the start, for any record, a run in which a search held up since an earlier incarnation removes what a later one made. |
| `RecordTheorems.DeletedForAReason` | internal/controller/issueddatabricksserviceprincipal_controller.go:161-201 | A pass deletes a record only having read that nobody wants it, or that the declared account does not name its namespace and this operator holds that namespace or it is gone. |
| `RecordDeletes.UnwantedWasReadLive` | internal/controller/issueddatabricksserviceprincipal_controller.go:161-201 | A pass that deletes a record nobody wants read so from the cluster as it was at that step, by its own last call before the delete. |
| `RecordTheorems.AtMostOneCreate` | internal/controller/issueddatabricksserviceprincipal_controller.go:394-424 | Over any run, one record causes at most one create. |
| `RecordTheorems.CreatesAreFlights` | internal/controller/issueddatabricksserviceprincipal_controller.go:415-424 | Creates called for a record number one if anything was ever sent or refused for it, and none otherwise. |
| `RecordTheorems.OnlyUp` | api/v1alpha1/issueddatabricksserviceprincipal_types.go:236-247 | Over any run, while an incarnation is stored its mark and id stay as written, its state only moves up, and its finalizer and deletion stay. |
| `LostCreates.LostForGood` | internal/controller/issueddatabricksserviceprincipal_controller.go:426-445 | A marked record of which nothing is out or can be, which nobody with clients may create for, and over which no pass holds an answer, stays so and stays Sent through every run. |
| `LostExactly.LostIffNeverSettles` | internal/controller/issueddatabricksserviceprincipal_controller.go:426-445 | At every point of every run, a marked record is lost in this way exactly when no run from there ever gets it further or lets it go. |
| `LostExactly.MarkLosesIff` | internal/controller/issueddatabricksserviceprincipal_controller.go:406-413 | The write of a current mark loses the record exactly when it may have been stored and the pass has no clients or ends there. |
| `LostExactly.CreatorLosesIffClientless` | internal/controller/issueddatabricksserviceprincipal_controller.go:415-419 | Between mark and create, a record is lost exactly when the pass that may create has no clients. |
| `LostExactly.CreateLosesIffNotSent` | internal/controller/issueddatabricksserviceprincipal_controller.go:415-424 | The create loses its record exactly when it was not taken up. |
| `LostExactly.CrashBeforeCreateLoses` | internal/controller/issueddatabricksserviceprincipal_controller.go:406-419 | A pass stopped between its mark and its create loses its record, clients or none. |
| `LostExactly.MarkedWithoutClientsIsLost` | internal/databricks/account_in_use.go:70-80 | From wherever a run has got to, its beginning included: a record made and marked by an undisturbed pass without clients is lost then and through every run that follows. |
| `RecordBuilds.KnownIsTended` | internal/controller/issueddatabricksserviceprincipal_controller.go:366-480 | From any reachable state, one undisturbed pass with clients and a full token over a record that is asked for, served and recorded with a live id: its issuer and audience become the token's, the policy of that id trusts that issuer, the record's ServiceAccount and that audience, and nothing else changes, in the store or in Databricks. |
| `RecordBuilds.MissingIsLatched` | internal/controller/issueddatabricksserviceprincipal_controller.go:373-391 | Where the recorded id is not there, the same pass latches it as removed, keeps the id and all else on the record, and changes nothing in Databricks. |
| `RecordBuilds.UnsentIsMade` | internal/controller/issueddatabricksserviceprincipal_controller.go:394-480 | For a record nothing was sent for, one service principal is made, under the record's own marker; the record ends with the mark, that id, the client id that came with it, the account, the issuer and the audience, and the policy trusts them. |
| `RecordBuilds.SentIsFound` | internal/controller/issueddatabricksserviceprincipal_controller.go:426-480 | For a Sent record whose marker shows, no service principal is made; one that carries the marker is written down, with its own client id, the account, the issuer and the audience, and the policy trusts them. |
| `RecordBuilds.SentIsAwaited` | internal/controller/issueddatabricksserviceprincipal_controller.go:426-445 | For a Sent record whose marker does not show, nothing changes anywhere. |
| `RecordBuilds.GoneIsLeft` | internal/controller/issueddatabricksserviceprincipal_controller.go:342-357 | A record whose service principal was seen to be gone stays as it is, and nothing is made in its place. |
| `RecordBuilds.UntoldIsLeft` | internal/controller/issueddatabricksserviceprincipal_controller.go:358-365 | A token without an issuer or without an audience leaves a served record, and Databricks, as they are. |
| `RecordBuilds.ClientlessIsLeft` | internal/databricks/account_in_use.go:70-80 | Without clients, so does any token, for a record that was sent for and is not gone. |
| `RecordBuilds.MarkIsStored` | internal/controller/issueddatabricksserviceprincipal_controller.go:406-413 | The mark says when, names the account of the pass where none was named before, and changes nothing else of the status. |
| `RecordBuilds.AdoptionIsStored` | internal/controller/issueddatabricksserviceprincipal_controller.go:490-506 | What is stored on adopting, field by field, before the policy is written. |
| `RecordBuilds.UnheldIsHeld` | internal/controller/issueddatabricksserviceprincipal_controller.go:141-159 | A record without the finalizer is given it by its next pass, which does nothing else. |
| `RecordBuilds.DeletedExactly` | internal/controller/issueddatabricksserviceprincipal_controller.go:161-201 | A pass over a held record deletes it exactly where its ServiceAccount is gone, is another one or lets go of it, or where the declared account does not name its namespace and that is this operator's or not there; where only the first half of the latter is so, it stays as it is. |
| `RecordBuilds.UndisturbedIsRun` | internal/controller/issueddatabricksserviceprincipal_controller.go:127-202 | Such a pass is a run of the protocol like any other. |
| `RecordReconciler.Reconciler.Reconcile` | internal/controller/issueddatabricksserviceprincipal_controller.go:127-202 | With anybody moving before any call, a pass over the version the cache held is one whole pass of the protocol over that version, from its start to its end and not cut short, and sends at most one delete of its record; with nothing cached it does nothing. |
| `RecordReconciler.Reconciler.StillWanted` | internal/controller/issueddatabricksserviceprincipal_controller.go:218-247 | The answer is the one the protocol goes on from: there, not let go of, and of the same uid. |
| `RecordReconciler.Reconciler.Destroy` | internal/controller/issueddatabricksserviceprincipal_controller.go:259-339 | From whatever state the copy is in, the calls made are the protocol's to the end of the pass. |
| `RecordReconciler.Reconciler.Converge` | internal/controller/issueddatabricksserviceprincipal_controller.go:342-480 | The same, for building; what those calls come to is said by the rows of `RecordBuilds`. |
| `RecordReconciler.Reconciler.Mark` | internal/controller/issueddatabricksserviceprincipal_controller.go:406-413 | The mark is persisted before anything may be created, and a mark that was not persisted ends the pass. |
| `RecordReconciler.Reconciler.Create` | internal/controller/issueddatabricksserviceprincipal_controller.go:394-424 | One create after one mark, and its answer written down before the policy. |
| `RecordReconciler.Reconciler.Find` | internal/controller/issueddatabricksserviceprincipal_controller.go:426-450 | A record that is Sent is only looked for, and what is found is written down. |
| `RecordReconciler.Reconciler.Probe` | internal/controller/issueddatabricksserviceprincipal_controller.go:373-392 | An id that is not there is latched and ends the pass; one that is there changes nothing. |
| `RecordReconciler.Reconciler.Adopt` | internal/controller/issueddatabricksserviceprincipal_controller.go:490-506 | The id and client id answered are on the copy and stored, or the pass is over. |
| `RecordReconciler.Reconciler.DestroyBecauseNotServed` | internal/controller/issueddatabricksserviceprincipal_controller.go:554-587 | One delete is sent where the result says so, and none where it does not; where one is, an account that was read does not name the namespace, and a Namespace that was read is this operator's or is not there. |
| `RecordReconciler.World.UpdateStatus` | internal/controller/issueddatabricksserviceprincipal_controller.go:490-506 | What a status write stores is the caller's copy and nothing else, and only over the version it read. |
| `Requests.RequestsFor` | api/v1alpha1/request.go:205-243 | Whatever order the map is read in: exactly this operator's understood requests, in order of name, and exactly the keys nobody can read. |
| `Requests.ReadsIsUnique` | api/v1alpha1/request.go:205-243 | What annotations ask of an operator is one answer, independent of map iteration order. |
| `Requests.NoLongerAsked` | api/v1alpha1/request.go:185-192 | True exactly when no understood request has the name and its key is not among the refused. |
| `Requests.LettingGoIsExact` | api/v1alpha1/request.go:163-192 | An identity is let go of exactly when its key is absent, or has a valid name and a value that parses to another operator; asked and held likewise. |
| `Requests.OneAnswerEach` | api/v1alpha1/request.go:163-192 | Every identity is exactly one of asked for, held and let go of. |
| `Requests.ProfilesNeverCollide` | api/v1alpha1/request.go:62-80 | Two requests in one set of annotations, of any operators, have different profiles. |
| `Requests.ParseOperatorRoundTrip` | api/v1alpha1/request.go:322-332 | A reference reads back as its operator exactly when both halves are names Kubernetes accepts. |
| `Requests.ParsedIff` | api/v1alpha1/request.go:316-332 | A value is an operator's exactly when it is its namespace, a slash and its name, both legal, with any white space before and after. |
| `Requests.KeysAreLegal` | api/v1alpha1/request.go:246-300 | The two forms of key, and that a name is an identity's exactly when it is a label whose key Kubernetes takes. |
| `Requests.ValidIdentityName` | api/v1alpha1/request.go:286-310 | Accepts exactly the labels of at most 45 characters. |
| `Requests.AnnotationForIsInjective` | api/v1alpha1/request.go:251-256 | One annotation key is one identity. |
| `ServerSideApply.OthersKeepTheirs` | internal/controller/databricksserviceaccount_controller.go:298-305 | An apply that is not forced takes nothing that anybody else owns and changes none of its values. |
| `ServerSideApply.ForcedThenLetGo` | internal/controller/databricksaccount_controller.go:828-841 | Exactly what is left after a manager forces a configuration and then lets go of everything. |
| `DestructionClaim.MatchesIsHolder` | internal/controller/databricksaccount_controller.go:893-902 | A namespace whose claim stands names its holder, and one without names nobody. |
| `DestructionClaim.ClaimedSays` | internal/controller/databricksaccount_controller.go:904-921 | What stands on a namespace nobody had written to once it is claimed: the label names the operator's namespace, the one annotation its name, the other the second, each under its own key. |
| `DestructionClaim.TakenIffStale` | internal/controller/databricksaccount_controller.go:805-833 | With nobody in between, a pass takes any other operator's claim exactly when its age, counted from the start of the second it was last said in, reaches 300 seconds: never before 299 seconds of silence, always from 300 on. |
| `DestructionClaim.Residue` | internal/controller/databricksaccount_controller.go:904-921 | What a takeover and a release leave is exactly the keys both wrote with one value, owned by the first operator. |
| `DestructionClaim.SharedNamespaceStaysSuspended` | internal/controller/databricksaccount_controller.go:726-741 | For two operators in one namespace the label stays, with no account beside it, and no operator's release lifts it. |
| `DestructionClaim.LeftoverBlocks` | internal/controller/databricksaccount_controller.go:811-819 | A leftover account annotation refuses every operator of another name, at any time. |
| `DestructionClaim.UnreadableIsNotTaken` | internal/controller/databricksaccount_controller.go:811-819 | A claim that does not say when, or says it in no time that can be read, is never taken. |
| `DestructionClaim.ClaimableIffFree` | internal/controller/databricksaccount_controller.go:768-834 | A namespace nobody else holds can be claimed at every time exactly when nobody else owns an account of another name or a time on it, and at one time exactly when nothing conflicts then or what is there is past the threshold. |
| `ClaimRuns.HolderIsWhoeverClaimedLast` | internal/controller/databricksaccount_controller.go:768-864 | Over any run of operators in namespaces of their own, the label is there exactly while a claim stands, and the holder anybody reads is the one whose claim last succeeded. |
| `ClaimRuns.OnlyReleaseOrForce` | internal/controller/databricksaccount_controller.go:834-864 | A claim leaves its holder only by its own release, by force, or with the namespace. |
| `ClaimRuns.HandsChangeByForce` | internal/controller/databricksaccount_controller.go:805-834 | In every run a claim passes from one operator to another only by the force of one that read a version past the threshold and has done nothing else since; the holder has been silent that long exactly when the Namespace is stale as it is forced, which is so unless the holder spoke in a later second than that version. |
| `ClaimRuns.ReleaseEndsOnlyItsOwn` | internal/controller/databricksaccount_controller.go:836-864 | A release decided on an old reading leaves another operator's claim as it is. |
| `ClaimRuns.UndisturbedPassIsAcquired` | internal/controller/databricksaccount_controller.go:768-834 | The three calls of a pass with nobody in between come to what the one-step claim says. |
| `ClaimRuns.PunctualIsNeverForcedOut` | internal/controller/databricksaccount_controller.go:57-77 | In every run in which reads show the Namespace as it is and a force follows its read at once, an operator that is never silent for more than 299 seconds while it holds the claim loses it only by giving it back or with the namespace. |
| `ClaimRuns.SilentIsTaken` | internal/controller/databricksaccount_controller.go:820-833 | In every run, a claim whose holder has been silent for 300 seconds is taken by the next undisturbed pass of any other operator. |
| `ClaimRuns.TakenEarly` | internal/controller/databricksaccount_controller.go:820-824 | A run in which a claim is taken after 299 seconds and one nanosecond of its holder's silence. |
| `ClaimRuns.RefreshedAndTaken` | internal/controller/databricksaccount_controller.go:805-833 | A claim refreshed between the read and the force is taken. |
| `ClaimRuns.StaleReadTakes` | internal/controller/databricksaccount_controller.go:811-833 | A version past the threshold that a cache still shows is forced over, whatever the Namespace says by then. |
| `ClaimRuns.RefreshedAfterTheRead` | internal/controller/databricksaccount_controller.go:811-833 | A run in which the holder refreshes after the read and loses the claim that moment. |
| `ClaimRuns.RefreshedBeforeTheRead` | internal/controller/databricksaccount_controller.go:811-833 | A run in which the holder refreshes before the read, which an old cache answers, and loses the claim that moment. |
| `ClaimRuns.RefreshedYetSilent` | internal/controller/databricksaccount_controller.go:811-833 | A run in which the holder has spoken since the version that was read and has been silent for five minutes again. |
| `ClaimRuns.StrangersWaitForGood` | internal/controller/databricksaccount_controller.go:811-819 | After a takeover between accounts of one name, operators of other names never get in, however long they wait. |
| `ClaimRuns.SameNameLeavesLeftover` | internal/controller/databricksaccount_controller.go:828-864 | How that comes about, and that nothing is left when the names differ too. |
| `SuspendedMinting.NeverGrows` | internal/controller/databricksserviceaccount_controller.go:127-161 | While anybody destroys in a namespace, over any steps of any passes: no operator's records there grow in number or are made again, and none is set back on its way out, as long as minting reads the Namespace as it is, however old the account it reads is. |
| `SuspendedMinting.EndsWhileOthersMint` | internal/controller/databricksaccount_controller.go:500-522 | Three passes of the operator whose claim stands end a doomed record whose service principal shows, whatever hinders other records and whatever goes on between them that leaves a claim standing, minting by others included. |
| `SuspendedMinting.ReadBeforeTheClaim` | internal/controller/databricksserviceaccount_controller.go:864-876 | A pass that read the Namespace before the claim still adds to the set after it. |
| `Destruction.AccountReconciler.AcquireDestructionClaim` | internal/controller/databricksaccount_controller.go:768-834 | The namespace becomes what the claim makes of it, or stays with an error, and errs exactly when it is another's and not stale or the write got no answer. |
| `Destruction.AccountReconciler.ReleaseDestructionClaim` | internal/controller/databricksaccount_controller.go:843-864 | Only the holder's own keys go, and nobody else's claim is touched. |
| `Destruction.AccountReconciler.NamespacesClaimedForDestruction` | internal/controller/databricksaccount_controller.go:726-741 | Exactly the namespaces this very operator holds. |
| `Destruction.AccountReconciler.DestroyIdentitiesIn` | internal/controller/databricksaccount_controller.go:523-628 | Exactly the namespaces with records left are reported, each is claimed or reported unclaimed for a cause, each held one with none left is given back or reported, no other Namespace changes, and "destroyed" is said exactly when all three lists are empty; with every call answered, a namespace is left alone only for another's claim. |
| `Destruction.DestroyedMeansDrained` | internal/controller/databricksaccount_controller.go:587-593 | Where that is said on a current list, every service principal with this operator's marker, live or still to appear, was issued in a namespace the account names. |
| `Destruction.PassLeavesFree` | internal/controller/databricksaccount_controller.go:568-593 | An answered pass leaves a free namespace free: held by this operator where something is left in it, without the label where nothing is. |
| `Destruction.ClaimedMayBeDestroyedIn` | internal/controller/issueddatabricksserviceprincipal_controller.go:559-587 | What a pass has claimed, the record's own pass may destroy in. |
| `Destruction.ReleasedIsLifted` | internal/controller/databricksaccount_controller.go:836-864 | Giving a claim back takes the label off. |
| `DestructionEnds.PassAdvances` | internal/controller/issueddatabricksserviceprincipal_controller.go:127-339 | With Databricks answering, one pass over a doomed record that may go and shows what was made for it, in whatever state, brings it nearer to gone and touches no other record, whatever hinders others. |
| `DestructionEnds.PassKeeps` | internal/controller/issueddatabricksserviceprincipal_controller.go:127-339 | A pass over a doomed record that something hinders, its namespace held elsewhere or its service principal not showing, leaves it there and touches no other. |
| `DestructionEnds.ThreeRoundsEndIt` | internal/controller/databricksaccount_controller.go:512-522 | Of the doomed records, three rounds of one pass per record leave exactly those that something hinders; every other record is as it was, and a service principal left out of scope has a hindered record. |
| `DestructionEnds.WholeRoundClears` | internal/controller/databricksaccount_controller.go:568-593 | One account pass with the passes over its records brings every doomed record whose namespace is free and whose service principal shows nearer to gone, and leaves it so. |
| `DestructionEnds.SaysDestroyedIffNoneLeft` | internal/controller/databricksaccount_controller.go:568-628 | An account pass says destroyed exactly when nothing doomed is left, and a free namespace with nothing doomed in it carries no label after it. |
| `DestructionEnds.DestructionClears` | internal/controller/databricksaccount_controller.go:512-628 | From any state, over three rounds of one account pass and one pass per record: every doomed record whose namespace is free and whose service principal shows is gone, whatever hinders the others; every record the account names is as it was; the fourth account pass says destroyed exactly when nothing doomed is left, and lifts its label from every namespace that was free and holds nothing doomed. |
| `DestructionEnds.DestructionCompletes` | internal/controller/databricksaccount_controller.go:512-628 | So where every doomed record's namespace is free and its service principal shows, nothing the account does not name is left, the fourth account pass says destroyed, and no claim of this operator's is. |
| `DestructionEnds.FinishIsRun` | internal/controller/issueddatabricksserviceprincipal_controller.go:127-202 | Those passes are runs of the protocol like any other. |
| `Projection.Reconciler.Reconcile` | internal/controller/databricksserviceaccount_controller.go:103-206 | A pass is refused exactly when a wanted entry's profile is another operator's; refused, it writes no entry; otherwise its entries are exactly the wanted ones and nobody else's changes, and every understood request that has a record stands under its profile with this operator's name and each of the record's seven facts as it is. What it sends is in order of name. |
| `Projection.Reconciler.ResentIdentities` | internal/controller/databricksserviceaccount_controller.go:798-820 | Exactly this operator's entries whose key is there and cannot be read, as they stand. |
| `Projection.Reconciler.RemoveIdentities` | internal/controller/databricksserviceaccount_controller.go:405-470 | This operator's entries go, the rest stay, and an object with none left goes. |
| `Projection.Reconciler.EntriesFor` | internal/controller/databricksserviceaccount_controller.go:162-172 | One entry for every understood request that has a record, in order, each field as the request and the record say it, and records made exactly as minting allows. |
| `Projection.RecordedExactly` | internal/controller/databricksserviceaccount_controller.go:236-252 | A record comes to be exactly for what is asked where minting is open, and none that is there changes. |
| `Projection.MergedShows` | internal/controller/databricksserviceaccount_controller.go:198-205 | One apply of the wanted entries makes this operator's entries exactly those and leaves the others. |
| `Projection.ShownAsRecorded` | internal/controller/databricksserviceaccount_controller.go:252-262 | After a pass that ends well, the object holds under the profile of each request that has a record, named or the operator's reference, an entry of this operator's alone that says issued, service principal id, client id, account id, subject, audience and removal as the record does. |
| `Projection.UnreadableIsKept` | internal/controller/databricksserviceaccount_controller.go:798-820 | An entry of this operator's whose key is there and cannot be read is exactly as it was after a pass that ends well. |
| `Projection.PassIsInStep` | internal/controller/databricksserviceaccount_controller.go:127-145 | After a pass every entry of the operator's is asked for or cannot be read. |
| `Projection.NothingContestedInStep` | internal/controller/databricksserviceaccount_controller.go:298-305 | Once the other operators have passed over the same annotations, no pass of this one is refused. |
| `ProjectionRuns.NotRefusedOnceOthersPassed` | internal/controller/databricksserviceaccount_controller.go:103-206 | For operators with legal names: once each other one has had a pass that was not refused, in any order and with any passes in between, this one's next is not refused. |
| `ProjectionRuns.RefusedIffBlocked` | internal/controller/databricksserviceaccount_controller.go:194-205 | A pass is refused exactly when some other operator owns the profile of something it is asked for and has a record of. |
| `ProjectionRuns.RefusedAfterPassIff` | internal/controller/databricksserviceaccount_controller.go:194-205 | For any operators: after a pass of one, another is refused exactly when somebody else blocked it before, or the one did and was refused. |
| `ProjectionEnds.ClosedStaysRefused` | internal/controller/databricksserviceaccount_controller.go:194-205 | Operators each of which one of them blocks are refused in every run, whoever else passes. |
| `ProjectionEnds.RefusedIffStuck` | internal/controller/databricksserviceaccount_controller.go:103-206 | For any number of operators, once everybody has passed as often as there are operators, in any order: a pass is still refused exactly when its operator was, to begin with, one of some that block one another. |
| `ProjectionEnds.SomebodyCanMove` | internal/controller/databricksserviceaccount_controller.go:103-206 | While one that is not stuck is blocked, some operator is neither blocked nor in step. |
| `ProjectionEnds.StuckThroughout` | internal/controller/databricksserviceaccount_controller.go:103-206 | Over any run, being stuck is neither come to nor got out of. |
| `ProjectionRuns.RefusedForGood` | internal/controller/databricksserviceaccount_controller.go:194-205 | Passes that are all refused on the object as it is leave it as it is, however many and in whatever order. |
| `ProjectionRuns.ExchangedForGood` | internal/controller/databricksserviceaccount_controller.go:194-205 | Two identities of one ServiceAccount whose operators are exchanged in one edit: over any passes of both, the object stays as it was. |
| `ProjectionRuns.ExchangeIsPossible` | api/v1alpha1/request.go:205-243 | That edit is there to be made for any two operators and any two names: what was asked and shown before it, and what is asked after. |
| `Admission.Handle` | internal/webhook/serviceaccountrequest.go:79-132 | Denied exactly when the write introduces a request of this operator's in a namespace its readable account does not name, the request's own or else the object's, naming exactly the keys that did. |
| `Admission.RefusedExactly` | internal/webhook/serviceaccountrequest.go:85-128 | Under a declared account: refused exactly where the request's namespace, or the object's where it carries none, is not one the account names, what was there can be read or there was nothing, and some identity is asked for that was not. |
| `Admission.IntroducedBy` | internal/webhook/serviceaccountrequest.go:145-168 | Exactly what is asked now and was not asked before, and nothing where what was there cannot be read. |
| `Admission.RemovalIsAdmitted` | internal/webhook/serviceaccountrequest.go:134-144 | A write that only takes keys away is admitted in every namespace. |
| `Admission.RefusedIsNeverAnswered` | internal/webhook/serviceaccountrequest.go:46-59 | For whatever is refused, the controller reading the same account makes no record. |
| `Profiles.Profiles` | internal/webhook/profiles.go:40-94 | Writes one section for each usable identity, in order, with a blank line between; what is read there is in the next two rows. |
| `ProfilesRead.RenderedReadsBack` | internal/webhook/profiles.go:55-94 | For any identities whose fields hold no newline and whose profiles differ: reading the text by section and key, a usable one's section has its client id, its audience and the path of its token, each under both names, and `file-oidc`; and there is no section for one that cannot be used. |
| `ProfilesRead.NothingElseIsRead` | internal/webhook/profiles.go:55-65 | Nor for any name that no usable identity has. |
| `Profiles.StalenessIsExact` | internal/controller/databricksserviceaccount_controller.go:736-748 | Where no field holds a newline or a bracket, the rendered text contains one entry's section exactly when a usable entry with the same profile, client id and audience is in the list. |
| `Profiles.TokenPaths` | internal/webhook/profiles.go:96-111 | For every profile that can be asked for, its token is projected where its section says, and at no other profile's path. |
| `Profiles.FilesNest` | internal/webhook/profiles.go:96-111 | Exactly which profiles' files lie under one another's, or under the configuration's. |
| `Profiles.ConfigIsAProfile` | internal/webhook/profiles.go:96-111 | The profile `config` can be asked for, and its token lies under the configuration's own path. |
| `Profiles.NamespaceIsAProfile` | internal/webhook/profiles.go:96-111 | In one set of annotations, an identity named like a namespace and the unnamed one of that namespace's operator called `token` are both asked for, and the second's token lies under the first's. |
| `PodToken.Inject` | internal/webhook/podtoken.go:206-268 | Changes nothing where the volume's name is taken; otherwise adds one volume with each token under its own audience and the configuration's annotation, the configuration where none was written, and equips every container; what a container finds there is said by the rows of `PodReads`. |
| `PodToken.Equip` | internal/webhook/podtoken.go:275-311 | A container with something mounted there is left alone, and any other gets the mount and the variables it does not set. |
| `PodToken.EquippedKeeps` | internal/webhook/podtoken.go:275-321 | Everything a container had stays, in order, mount paths stay unique, and nothing but the one mount and unset variables is added. |
| `PodToken.InjectedKeeps` | internal/webhook/podtoken.go:206-268 | Every annotation a pod had stays as it was, a configuration of its own included, every volume stays in order, and one of each is all that is added. |
| `PodReads.ConfigIsFound` | internal/webhook/podtoken.go:235-311 | A container that set no path of its own is told one, and what it finds there, through its mount, the volume of the mount's name and the source at the rest of the path, is the text rendered from the identities, unless a mount of its own lies over it: exactly when no two of the pod's files get in each other's way. |
| `PodReads.TokensAreFound` | internal/webhook/podtoken.go:219-311 | Under the same condition, at the path the configuration names for an identity, under either name, it finds a token that lasts an hour, minted for the audience the configuration says and that identity has. |
| `PodReads.ProfileIsFound` | internal/webhook/podtoken.go:303-311 | The profile a container is told, where it set none, is a section of the configuration, and the first identity's. |
| `PodReads.FindsOneThing` | internal/webhook/podtoken.go:235-268 | At most one thing is found at a path. |
| `PodToken.Handle` | internal/webhook/podtoken.go:130-192 | A request that is no pod is refused; a pod is admitted as it is where nothing usable was found under the request's namespace and the ServiceAccount's name, or their defaults; otherwise it is patched with exactly the usable identities, or the error is the writing. |
| `PodToken.InjectorAndCheckerAgree` | internal/controller/databricksserviceaccount_controller.go:613-646 | A pod that was equipped and cut down by the cache carries and describes every identity it was given, and no other. |
| `PodToken.ClassedExactly` | internal/controller/databricksserviceaccount_controller.go:613-646 | A pod equipped with an earlier list and asked about for any entry: skipped where it runs as another or is not going to run; without a token exactly where the list had none of the profile; with the wrong audience exactly where the list's differs; stale exactly where the entry cannot be used or its client id differs; otherwise fine. |
| `PodEquipment.TrimPod` | internal/controller/podcache.go:46-75 | Keeps what the equipment is read from, and of the rest nothing. |
| `PodEquipment.TrimKeepsTheAnswer` | internal/controller/podcache.go:46-116 | Every pod is in the same list, or in none, whether whole or cut down. |
| `PodEquipment.TrimKeepsTheLists` | internal/controller/podcache.go:46-116 | The lists over any pods are the lists over what the cache keeps of them. |
| `PodEquipment.TrimTwice` | internal/controller/podcache.go:46-116 | Cutting down twice is cutting down once. |
| `PodEquipment.TrimKeepsWhatIsRead` | internal/controller/podcache.go:46-116 | Whose pod it is, whether it runs, its volumes' names, the tokens' paths and audiences and the one annotation stay; no container, other annotation or other content does. |
| `PodEquipment.TrimKeepsNoMore` | internal/controller/podcache.go:46-116 | Two pods that agree in all that are cut down to the same one. |
| `PodEquipment.Equipment` | internal/controller/databricksserviceaccount_controller.go:613-646 | The three lists are exactly the pods still going to run that lack a token, carry another audience's, or carry an older configuration. |
| `PodEquipment.TokenAudienceOf` | internal/controller/databricksserviceaccount_controller.go:769-787 | The audience of the first token at the profile's path in a projected volume of the right name. |
| `ServicePrincipals.MarkersApart` | internal/databricks/serviceprincipals.go:178-181 | Where no hash collides, two markers are equal exactly when issuer, operator, uid and identity are. |
| `ServicePrincipals.MarkerFits` | internal/databricks/serviceprincipals.go:128-189 | A marker has the length externalId holds and is three parts: its cluster's, which it begins with, its operator's, and its uid and identity's. |
| `ServicePrincipals.DisplaySays` | internal/databricks/serviceprincipals.go:78-90 | The display name is `k8s-`, namespace, name and identity, as far as a hundred characters go. |
| `ServicePrincipals.TwoStagesAreOneScan` | internal/databricks/serviceprincipals.go:312-364 | The two listings answer what one scan of the account would, exactly unless one namesake carries the marker and something else does too. |
| `ServicePrincipals.RenamedTwin` | internal/databricks/serviceprincipals.go:312-364 | An account of two that carry one marker, one of them renamed, in which either is adopted by its name and one scan adopts neither. |
| `ServicePrincipals.FoundCarriesTheMarker` | internal/databricks/serviceprincipals.go:312-378 | Whatever changes between the two listings: what is found was listed and carries the marker, "not found" is said exactly when both answered and neither shows it, and a failed listing is never taken for an empty one. |
| `ServicePrincipals.FindServicePrincipal` | internal/databricks/serviceprincipals.go:312-364 | The lookup is the two listings, the whole one only where the named one shows nothing, either of which may fail, and it refuses an empty issuer. |
| `ServicePrincipals.Carrying` | internal/databricks/serviceprincipals.go:370-378 | Exactly those whose externalId is the marker, in order. |
| `FederationPolicies.Clients.EnsureFederationPolicy` | internal/databricks/serviceprincipals.go:465-521 | Succeeding, the policy stands under its name and trusts this audience, and no other changed, though the get missed it; it does succeed where calls are answered and names given as asked; failing, no other policy changed and at most one new one appeared. |
| `FederationPolicies.EnsuringConverges` | internal/databricks/serviceprincipals.go:427-464 | Any run of successful calls leaves one policy under the name, trusting the last audience, and every other as it was. |
| `FederationPolicies.EnsuringSettles` | internal/databricks/serviceprincipals.go:427-464 | Any run of calls, failed ones among them: no policy under another name is touched, each failure leaves at most one that nobody named, and once one succeeds again the policy stands and trusts that call's audience. |
| `FederationPolicies.Clients.RemoveFederationPolicies` | internal/databricks/serviceprincipals.go:605-620 | Succeeding, the named policy is gone though no listing shows it, and so is whatever the listing shows of the pair; nothing of another pair is ever touched. |
| `FederationPolicies.Clients.RemoveListedPolicies` | internal/databricks/serviceprincipals.go:637-661 | Nothing the listing shows of the pair is left, and only the pair's goes. |
| `FederationPolicies.RemovalUndoesEnsuring` | internal/databricks/serviceprincipals.go:586-620 | A removal takes back just what an ensuring wrote. |
| `FederationPolicies.PolicyIdsApart` | internal/databricks/serviceprincipals.go:261-264 | A policy id begins with `k8s-`, goes on with the issuer's hash and then the subject's, is one issuer's and one subject's where the hashes are apart, and is of a length that is accepted. |
| `FederationPolicies.ParseIntReadsBack` | internal/databricks/serviceprincipals.go:465-469 | An id in decimal is read as its number exactly as far as 64 bits go, and refused beyond. |
| `AccountInUse.InstallClients` | internal/controller/databricksaccount_controller.go:256-312 | A changed declaration withdraws what was installed before it is tried, and one that works is installed; one that fails and has not changed withdraws nothing. |
| `AccountInUse.InstalledIsWhatWasJustRead` | internal/databricks/account_in_use.go:81-144 | After any passes, something is installed exactly when it was verified since the declaration last changed, and it was built from the declaration just read. |
| `AccountInUse.ConvergePass` | internal/databricks/account_in_use.go:156-180 | With the slot set and cleared before every call: only the account it held at the start changes, an id is written beside the account it was made in, a record placed where the pass acts stays placed, and it errs exactly where there is no account or a search shows nothing. |
| `AccountInUse.DestroyPass` | internal/databricks/account_in_use.go:156-180 | The same for destroying: what goes is the record's own or carries its marker, and goes in the account held at the start; it errs exactly where there is something to remove and no account, or a search shows nothing, and then nothing changes. |
| `RecordNames.NameIsLegal` | api/v1alpha1/issueddatabricksserviceprincipal_types.go:338-363 | For whatever a namespace, a ServiceAccount and a key may be called, the name is a subdomain (section 2.1 of RFC 1123, as Kubernetes checks it) of at most 253 characters, also when it is cut. |
| `RecordNames.NamesApart` | api/v1alpha1/issueddatabricksserviceprincipal_types.go:338-363 | One name is one uid and one identity, where the suffixes do not collide. |
| `RecordNames.NameReads` | api/v1alpha1/issueddatabricksserviceprincipal_types.go:338-363 | A name is its readable half, whole as far as 242 characters go and otherwise cut there and rid of a dot, then a hyphen and the suffix. |
| `RecordNames.ReadableIsAmbiguous` | api/v1alpha1/issueddatabricksserviceprincipal_types.go:311-320 | For every named identity whose ServiceAccount's name leaves room for it, another ServiceAccount, whose name holds a dot, with the same readable half. |
| `RecordNames.ReadableIsShared` | api/v1alpha1/issueddatabricksserviceprincipal_types.go:311-320 | Two issuings share a readable half exactly when they are of one namespace, name and identity, or of one namespace, one of them unnamed and its ServiceAccount's name the other's name, a dot and the other's identity. |
| `RecordNames.ReadableIsUnambiguous` | api/v1alpha1/issueddatabricksserviceprincipal_types.go:311-320 | So where neither ServiceAccount's name holds a dot, equal readable halves are one namespace, one name and one identity. |

## Left out

- SuspendedMinting.NeverGrows: is for Namespaces read as they are. For older reads it does not hold, as SuspendedMinting.ReadBeforeTheClaim shows.
- ClaimRuns.HolderIsWhoeverClaimedLast: is for operators in namespaces of their own. Two in one namespace are told apart by the annotation alone, and what a takeover leaves of theirs is in DestructionClaim.SharedNamespaceStaysSuspended.
- ClaimRuns.StrangersWaitForGood: is for operators whose reads are current; the namespace going, or the annotation's owner claiming again, ends it.
- DestructionEnds.DestructionCompletes: its rounds are undisturbed; what may go on between passes is in SuspendedMinting.EndsWhileOthersMint.
- Destruction.AccountReconciler.DestroyIdentitiesIn: nobody else writes a Namespace while one is claimed or given back, and those calls take no time. Interleaved claims are in ClaimRuns.
- Projection.Reconciler.Reconcile: is one pass with nobody writing in between, its apply is answered, and an entry is owned whole. The order of entries in the merged list is the API server's.
- Profiles.Profiles: characters are counted where Go counts bytes; every field the API accepts in a name is ASCII.
- Condition texts, messages, requeue intervals, the table of failure kinds, the readiness of a pass and sorting of what a message lists: text and one-branch tables.
- The SDK, HTTP, token files, JWT decoding, flags, manager setup, watches and indexes: plumbing. What they answer is an answer a step takes.
- SHA-256 and base32: functions that give a text of a fixed width.
- That the account is one account for the operator's lifetime: a record's pass may hold a snapshot over the moment the account is released.
- A manual mount at the token's path: its container is left alone, and the equipment is read from volumes and the annotation alone.
- DatabricksAccount's own finalizer, the requests it reports as unserved, and the start-up refusal over records of another account.
- Generated code, CRD markers, charts and manifests.

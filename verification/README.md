# Verified model of provider-cloudscale

A Dafny model of the two controllers of provider-cloudscale, a Crossplane
provider for the object storage of cloudscale.ch, with proofs about every run
of them. `dafny verify dfyconfig.toml` checks the whole project.

## What is modelled

Each controller is modelled three times, and the three are tied together by
proofs.

* **Step by step on mutable objects** (`BucketPipeline`, `UserPipeline`,
  `Credentials`, `TagMaps`): `Bucket`, `ObjectsUser` and `Secret` are classes
  whose fields the calls change, as the Go code does through its pointers.
  Loops stay loops; a loop over a map picks the next key arbitrarily, so its
  contract holds for every iteration order.
* **As a function of what a call was given** (`BucketController`,
  `UserController`): the resource left in memory, the external service left
  behind and the answer. Every method above is proved equal to its function.
* **As one step system** (`BucketProtocol`, `UserProtocol`): stored resources
  with resource versions, the external service, users, other accounts, and
  reconciles that work on a copy in memory. Anything may happen between any two
  steps of a reconcile. The results are about all runs of these systems.

`Drain` models the goroutine that lists the objects of a bucket, the channel
and the remover of the S3 client, under every interleaving.

Failures are inputs: a write can fail before it took effect, or take effect and
lose its reply; a read can fail with any status code.

The Crossplane reconciler is not in the repository. Its order of calls is
assumed as `BucketProtocol.Enabled` and `UserProtocol.Enabled` say: Connect,
Observe, then Create, Update, Delete or removal of the finalizer; status writes
and finalizer removals succeed only on an unchanged resource version;
annotations set by Create are merged into whatever is stored. A reconcile starts
from the newest stored version. This matters: an ObjectsUser read from a stale
cache, as it was before its ID was stored, would get a second user.

## What the hypotheses are for

Exclusive ownership of buckets does not hold by itself. It is proved under
seven hypotheses (`BucketExclusive.Hypothesis`), and for each of them
`BucketWitnesses` has a run that obeys the other six and breaks the claim. A
resource holds its bucket from the moment it set the lock until it removed the
bucket, so the results also protect a resource under deletion. In
particular the lock does not help when two reconciles observe before either
creates, although the comment on `setLock` (operator/bucketcontroller/create.go:58-59)
suggests it does, and a failed removal of the finalizer makes a resource delete
"its" bucket a second time. None of the other results about buckets needs these hypotheses.

A bucket can be made for a resource that then refuses it. `BucketClaims` has the
exact conditions: a step makes a bucket of ours without a claim if and only if
somebody else makes it or the reply to MakeBucket is lost and the check after it
fails too (`MadeUnclaimed`); a step takes the lock from a resource if and only if
it is a crash before the lock was stored, or a user removes the annotation
(`LockLost`). `BucketWitnesses` has a run for both.

The results about objects users need three hypotheses
(`UserProtocol.Hypothesis`), each with a witness run as well. They do not need
serial reconciles. Users whose create request took effect without an answer are
lost, and only those (`UserTheorems.RecordedIffAnswered`).

Where the comments and the code disagree, the model follows the code:

* operator/bucketcontroller/create.go:35-37 says that creating a bucket sets
  the name in status; only Observe does.
* operator/objectsusercontroller/create.go:88-89 says the Secret is updated when
  the keys change. An Update never fetched the user, so its Secret step has no
  keys to write (`Credentials.NoUserNoKeys`), and Observe ignores what it finds
  in the Secret.

## Model

| member | source | states |
|---|---|---|
| BucketPipeline.FindConditionOf | operator/bucketcontroller/connector.go:153-160 | the loop returns the first condition of the type, or none |
| BucketPipeline.IsBucketAlreadyDeleted | operator/bucketcontroller/connector.go:137-151 | true exactly for Ready=False/Deleting together with Synced=True/ReconcileSuccess |
| BucketController.CriteriaExact | operator/bucketcontroller/connector.go:137-160 | the four criteria hold exactly if the first Ready condition is False/Deleting and the first Synced one True/ReconcileSuccess |
| BucketPipeline.ValidateSecret | operator/bucketcontroller/connector.go:93-107 | accepts a Secret exactly if it has data and both keys with content |
| BucketPipeline.Connect | operator/bucketcontroller/connector.go:45-76 | which client a resource gets: none of the store after deletion, an error without valid credentials or if no client can be built, else the one for its endpoint |
| BucketController.ConnectGrants | operator/bucketcontroller/connector.go:45-107 | a store client is handed out exactly for a bucket not marked deleted, with a fetched Secret that holds both keys with content, and it talks to the endpoint of the region |
| BucketController.AdmittedExactly | operator/bucketcontroller/webhook.go:27-43 | an update is admitted exactly if no bucket was made, or region and name in force stay; each refusal has its own reason |
| BucketTheorems.UpdatesAdmitted | operator/bucketcontroller/webhook.go:27-43 | in every reachable state exactly the changes that keep name and region of a made bucket are admitted; policy, orphan flag and annotations change freely |
| BucketApi.EndpointInjective | operator/bucketcontroller/connector.go:36-38 | different regions never share an endpoint |
| BucketApi.SameBucket | apis/cloudscale/v1/bucket_types.go:106-112 | two resources ask for the same bucket exactly if region and name agree, where metadata.name stands in for a name that is not given |
| BucketPipeline.ProvisioningPipeline.Observe | operator/bucketcontroller/observe.go:21-51 | the status and answer left by Observe for every reply of the store; the store is untouched |
| BucketController.ObserveReports | operator/bucketcontroller/observe.go:28-50 | there exactly if it exists and the lock is held, absent exactly if it does not exist, else an error that the code of the reply decides; only the first makes the resource ready and puts the given name, or else metadata.name, into status; endpoint and URL are those of the region |
| BucketPipeline.ProvisioningPipeline.CreateS3Bucket | operator/bucketcontroller/create.go:38-56 | makes the bucket or confirms that it is ours, for every failure |
| BucketPipeline.ProvisioningPipeline.SetLock | operator/bucketcontroller/create.go:60-66 | adds the lock, also to a nil annotation map, and changes nothing else |
| BucketPipeline.ProvisioningPipeline.Create | operator/bucketcontroller/create.go:17-33 | the lock is set only after the first step succeeded |
| BucketController.CreateClaims | operator/bucketcontroller/create.go:35-66 | Create succeeds and locks together, and then the bucket exists and is ours; no other bucket changes |
| BucketController.CreateExactly | operator/bucketcontroller/create.go:38-66 | which bucket Create makes, when exactly it succeeds, and that it adds the lock and nothing else |
| BucketController.ForeignRefused | operator/bucketcontroller/observe.go:31-42 | a bucket of another account is neither found nor absent, and Create does not claim it |
| BucketController.CreateStrands | operator/bucketcontroller/create.go:45-53 | Create leaves a new bucket unclaimed if and only if the reply to MakeBucket is lost and the check that follows fails |
| BucketController.EmptyingEffect | operator/bucketcontroller/delete.go:42-64 | emptying reaches the objects of one bucket of ours, removes none that was not listed, and all that were when it succeeds |
| Drain.DrainExact | operator/bucketcontroller/delete.go:46-63 | under every interleaving and for every listing: only listed objects go, a nil result means exactly those listed without error are gone, an error names a listed object |
| Drain.DrainReturns | operator/bucketcontroller/delete.go:46-63 | no schedule is endless, and while the caller waits some party can move, so there is no deadlock |
| Drain.CanDrain | operator/bucketcontroller/delete.go:46-63 | every set of objects, in any number of batches, can be drained to a nil result |
| BucketPipeline.ProvisioningPipeline.DeleteS3Bucket | operator/bucketcontroller/delete.go:69-75 | asks for removal of the bucket named in status |
| BucketPipeline.ProvisioningPipeline.Delete | operator/bucketcontroller/delete.go:19-36 | the steps run in order, the emptying only with the DeleteAll policy, and an error of it skips the removal |
| BucketController.DeleteReach | operator/bucketcontroller/delete.go:42-75 | Delete reaches one bucket only; success means it is gone |
| BucketController.DeleteIfEmptyEffect | operator/bucketcontroller/delete.go:28-40 | without DeleteAll no object goes, and Delete succeeds exactly for an empty bucket |
| BucketController.DeleteAllEffect | operator/bucketcontroller/delete.go:27-64 | with DeleteAll only listed objects go; success exactly if emptying worked and nothing else was in the bucket; a failed emptying keeps the bucket |
| BucketController.ConcludedDeleted | operator/bucketcontroller/connector.go:141-149 | among all states a reconcile stores, the four criteria hold exactly after a successful Delete |
| BucketSafety.RunSound | operator/bucketcontroller/observe.go:21-51 | the invariant behind the results on buckets is kept by every run, whatever interleaves or fails |
| BucketTheorems.SafeDestruction | operator/bucketcontroller/delete.go:42-75 | every RemoveObjects or RemoveBucket call targets the bucket that Observe of the same reconcile found while the resource held the lock |
| BucketTheorems.SoundRelease | operator/bucketcontroller/noop.go:17-21 | the finalizer goes only after the same reconcile saw the bucket absent or this resource removed it |
| BucketTheorems.FourCriteria | operator/bucketcontroller/connector.go:135-151 | the four criteria hold only after an own RemoveBucket of the named bucket succeeded |
| BucketTheorems.WithoutCredentials | operator/bucketcontroller/connector.go:52-57 | without credentials a deleted resource can be released by the next reconcile if and only if the four criteria hold, and then without touching the store |
| BucketTheorems.ClaimNeedsAbsence | operator/bucketcontroller/create.go:58-66 | the lock is set only by a reconcile that itself saw the bucket absent |
| BucketTheorems.FrozenIdentity | operator/bucketcontroller/webhook.go:27-43 | in every interleaving a name in status is the name in force, and from then on name, region and endpoints never change |
| BucketTheorems.NoAdoption | operator/bucketcontroller/observe.go:43-50 | as long as nobody locks it, renames it or takes the bucket away, an unlocked resource whose bucket exists is refused at every moment of every interleaving: its reconciles write nothing to the store, set no lock, destroy nothing and do not release it |
| BucketTheorems.DeletionPolicy | apis/cloudscale/v1/bucket_types.go:54-61 | as long as no resource for this very bucket has DeleteAll and nobody else takes from it, a bucket that is not empty keeps its objects in every run: it is never emptied and no Delete of it succeeds, whatever the resources for other buckets do |
| BucketExclusive.RunExclusive | operator/bucketcontroller/create.go:58-66 | the invariant behind exclusive ownership is kept by every disciplined run |
| BucketExclusive.ExclusiveClaim | operator/bucketcontroller/create.go:58-66 | in every disciplined run the bucket that a resource holds exists, and no two resources hold the same one, resources under deletion included |
| BucketExclusive.NeverAnothersBucket | operator/bucketcontroller/delete.go:42-75 | in every disciplined run Delete leaves every bucket that another resource holds unchanged, with all its objects |
| BucketClaims.LockLost | operator/bucketcontroller/create.go:60-66 | a resource lives on without the lock it had if and only if a crash comes before the lock is stored or a user removes it |
| BucketClaims.ClaimStays | operator/bucketcontroller/create.go:23-29 | in every run without such a step a resource that claimed a bucket has its lock, in store or about to be stored, and does not refuse its bucket |
| BucketClaims.MadeUnclaimed | operator/bucketcontroller/create.go:38-56 | a step gives us a bucket without a claim if and only if others made it or the reply and its confirmation are lost |
| BucketClaims.MadeIsClaimed | operator/bucketcontroller/create.go:38-66 | in every run without such a step a bucket that was not there at the start exists only if a resource claimed it |
| BucketProgress.GetsReady | operator/bucketcontroller/observe.go:43-47 | from every reachable state between its reconciles a resource whose bucket is absent claims it in one reconcile, and one whose bucket is there under its lock gets ready in the next |
| BucketProgress.DeletionCompletes | operator/bucketcontroller/delete.go:19-40 | from every reachable state between its reconciles a deleted resource is released by its own reconciles if its bucket is absent or removed, or held and empty, or held with the DeleteAll policy |
| BucketWitnesses.SerialIsNeeded | operator/bucketcontroller/create.go:45-49 | two reconciles that observe before either creates both take the lock |
| BucketWitnesses.LockUntouchedIsNeeded | operator/bucketcontroller/observe.go:43-46 | a lock set by a user makes two resources share a bucket |
| BucketWitnesses.NotRemovedIsNeeded | operator/bucketcontroller/observe.go:43-46 | a bucket removed by others leaves a locked resource without one |
| BucketWitnesses.NoRenameIsNeeded | operator/bucketcontroller/webhook.go:32-41 | the webhook admits a rename between the claim and the next Observe |
| BucketWitnesses.NoRenameInFlightIsNeeded | operator/bucketcontroller/webhook.go:32-41 | and one during the reconcile that claims the bucket |
| BucketWitnesses.ResultStoredIsNeeded | operator/bucketcontroller/connector.go:137-151 | if the result of a removal is not stored, the resource later removes the bucket of another one |
| BucketWitnesses.TruthfulRemovalIsNeeded | operator/bucketcontroller/delete.go:69-75 | so it does if the reply to the removal is lost |
| BucketWitnesses.FinalizerGoesIsNeeded | operator/bucketcontroller/connector.go:141-149 | so it does if removing the finalizer fails once |
| BucketWitnesses.LostReplyStrandsBucket | operator/bucketcontroller/create.go:45-53 | with all hypotheses in force, a reply to MakeBucket that is lost and not confirmed leaves a bucket that its own resource refuses |
| BucketWitnesses.CrashStrandsBucket | operator/bucketcontroller/create.go:60-66 | so does a crash between Create and the write of the lock |
| TagMaps.ToTagMap | operator/objectsusercontroller/util.go:8-17 | the copy has exactly the given tags |
| TagMaps.FromTagMap | operator/objectsusercontroller/util.go:19-25 | the copy has exactly the given tags |
| TagMaps.TagsNeedUpdate | operator/objectsusercontroller/util.go:27-46 | for every iteration order: true exactly if a desired tag is not observed, or tags are observed but none desired |
| TagMaps.NoUpdateNeeded | operator/objectsusercontroller/util.go:27-46 | no update is needed exactly if the desired pairs are among the observed ones and, with none desired, none are observed |
| TagMaps.SupersetIsFixed | operator/objectsusercontroller/util.go:27-46 | further observed tags stay for ever beside non-empty desired ones |
| Credentials.Secret.Ensure | operator/objectsusercontroller/create.go:99-109 | the Secret gains labels, credentials and owner, for every iteration order and nil maps |
| Credentials.Secret.SetData | operator/objectsusercontroller/create.go:105-107 | the loop merges the credentials into the data, whatever the order |
| Credentials.EnsureCredentialsSecret | operator/objectsusercontroller/create.go:90-115 | creates or changes the Secret, leaves it alone when the write fails, and reports an error although it is written when the reply is lost |
| Credentials.CheckCredentials | operator/objectsusercontroller/observe.go:88-102 | succeeds exactly if there is data and it holds the credentials of the user |
| Credentials.EnsureIsGentle | operator/objectsusercontroller/create.go:101-108 | foreign data, labels and owners stay, and writing twice is writing once |
| Credentials.EnsuredKeys | operator/objectsusercontroller/pipeline.go:51-82 | access key and secret key of the first entry get to the names the Bucket controller reads, absent ones as the empty string; all other data stay |
| Credentials.EnsuredMeta | operator/objectsusercontroller/create.go:101-124 | the three common labels and the owner are added, none is taken away |
| Credentials.MatchesExactly | operator/objectsusercontroller/observe.go:88-102 | the check fails exactly without data, or if a key of the first entry is missing or has another value |
| Credentials.NoUserNoKeys | operator/objectsusercontroller/update.go:21-29 | the Secret step of an Update writes no credentials |
| Credentials.EnsuredMatches | operator/objectsusercontroller/observe.go:88-102 | after a write the check succeeds exactly if there is any data |
| Credentials.EnsuredValid | operator/objectsusercontroller/pipeline.go:51-82 | after a write the Bucket controller accepts the Secret exactly if the first key entry holds both keys; without an entry, exactly if it did before |
| UserPipeline.ObjectsUserPipeline.Observe | operator/objectsusercontroller/observe.go:20-63 | the hand-off of the ID, the status and the answer for every reply; the Secret has no influence |
| UserController.HandOff | operator/objectsusercontroller/observe.go:25-34 | the ID in status comes first, else the one in the annotation moves to status; without an ID nothing changes |
| UserController.ObserveReports | operator/objectsusercontroller/observe.go:24-62 | found exactly if the API returned the user of the known ID, up to date exactly if it has the desired name, every desired tag, and none if none are desired; absent exactly without ID or on 404, any other code is an error; status mirrors the user |
| UserController.SettledExactly | operator/objectsusercontroller/observe.go:46-48 | the comparison finds no difference exactly if name and tags are as desired |
| UserApi.DisplayNameChain | apis/cloudscale/v1/objectsuser_types.go:65-78 | the display name is the one in spec, else the external name, else metadata.name |
| UserPipeline.ObjectsUserPipeline.ObserveCredentials | operator/objectsusercontroller/observe.go:50-60 | whatever the Secret holds, the nested steps report no error |
| UserPipeline.ObjectsUserPipeline.CreateObjectsUser | operator/objectsusercontroller/create.go:53-77 | a user that was answered with an ID leaves it in the annotation |
| UserPipeline.ObjectsUserPipeline.Create | operator/objectsusercontroller/create.go:24-50 | a known ID makes Create do nothing; a failing Secret keeps the ID |
| UserController.CreateEffect | operator/objectsusercontroller/create.go:24-77 | the user that is made, the ID that is noted, and when exactly Create succeeds, with the Secret and every failure |
| UserPipeline.ObjectsUserPipeline.UpdateObjectsUser | operator/objectsusercontroller/update.go:36-60 | two requests, the second only after the first succeeded |
| UserPipeline.ObjectsUserPipeline.Update | operator/objectsusercontroller/update.go:16-33 | the user and the Secret after an Update, which has no keys to write |
| UserPipeline.ObjectsUserPipeline.Delete | operator/objectsusercontroller/delete.go:16-44 | removes the user with the ID in status |
| UserController.DeleteEffect | operator/objectsusercontroller/delete.go:34-44 | success exactly if the user was there and the request worked, and then it is gone; it also goes if only the reply is lost; no other user is touched |
| UserController.TwoRequestsAreOne | operator/objectsusercontroller/update.go:43-55 | the two partial requests equal one full request, yield exactly the desired name and tags, are idempotent and leave nothing to update |
| UserController.HalfUpdate | operator/objectsusercontroller/update.go:43-47 | a failure between the requests undoes nothing that agreed |
| UserController.UpdateExactly | operator/objectsusercontroller/update.go:16-60 | what is left after every failure of the two requests: the tags stay unless the name request was answered; success exactly if both requests and a wanted Secret write do |
| UserController.UpdateEffect | operator/objectsusercontroller/update.go:36-60 | Update touches the own user only, gives it the desired name and tags when it succeeds, and never takes them away |
| UserIdentity.RunSound | operator/objectsusercontroller/observe.go:25-34 | the invariant behind the results on users is kept by every disciplined run |
| UserTheorems.AtMostOnce | operator/objectsusercontroller/create.go:29-32 | every run makes at most one successful create request per resource |
| UserTheorems.NoLostIdentity | operator/objectsusercontroller/create.go:67-72 | the ID of every user created for a resource is in its annotation or status; both agree, and no other ID ever gets there |
| UserTheorems.RecordedIffAnswered | operator/objectsusercontroller/create.go:58-72 | a user that was created for a resource is recorded by it if and only if the create request was answered; an ID whose answer was lost is recorded nowhere |
| UserTheorems.StatusIdStays | operator/objectsusercontroller/observe.go:25-30 | an ID in status never changes |
| UserTheorems.OwnUserOnly | operator/objectsusercontroller/observe.go:66-77 | every Get, Update and Delete call carries a non-empty ID that an earlier create request of this resource was answered with |
| UserTheorems.OthersUntouched | operator/objectsusercontroller/update.go:36-55 | reconciling a resource leaves all users of others unchanged |
| UserTheorems.SoundRelease | operator/objectsusercontroller/delete.go:33-44 | the finalizer goes only if no user was ever created or a Get for the own ID answered 404 in that reconcile |
| UserTheorems.ErrorStops | operator/objectsusercontroller/observe.go:36-40 | in every run, with or without the hypotheses: after a Get failed with anything but a 404, the reconcile that made it never creates, updates, deletes or releases anything |
| UserConvergence.NeverWorse | operator/objectsusercontroller/observe.go:36-62 | no failed or interleaved reconcile raises the rank of a resource, and after a successful one its user has the desired name and tags |
| UserConvergence.ZeroIsFixed | operator/objectsusercontroller/observe.go:46-62 | from rank zero on no run makes an API write for the resource, and its user stays as it is |
| UserConvergence.Convergence | operator/objectsusercontroller/update.go:36-60 | after one successful reconcile the user keeps the desired name and tags in every further run |
| UserConvergence.OneReconcileSuffices | operator/objectsusercontroller/create.go:53-77 | from every steady state one reconcile without failures succeeds |
| UserConvergence.ReachableIsSteady | operator/objectsusercontroller/observe.go:25-34 | every reachable state between reconciles is steady if the resource is not deleted and its user still there |
| UserProgress.DeletionCompletes | operator/objectsusercontroller/delete.go:16-44 | from every reachable state between its reconciles a deleted resource is released by its own reconciles, its user is gone then, and no other user is |
| UserWitnesses.AnnotationsStoredIsNeeded | operator/objectsusercontroller/create.go:67-72 | a crash before the annotation is stored leads to a second user |
| UserWitnesses.RemovalWithStatusIsNeeded | operator/objectsusercontroller/observe.go:27-29 | storing the removal of the annotation without the status leads to a second user |
| UserWitnesses.IdUntouchedIsNeeded | operator/objectsusercontroller/observe.go:25-34 | a user who removes the annotation causes a second user |
| UserWitnesses.LostReplyLeaksUser | operator/objectsusercontroller/create.go:58-66 | a lost reply to the create request leaves a user that no resource knows |

## Left out

- Command line, logging, manager start-up, scheme registration and wiring of controllers and webhook.
- The Crossplane reconciler, minio, the cloudscale SDK and the Kubernetes client: only what they answer and change is modelled. In particular connection details that the reconciler publishes, its creation grace period, pausing and management policies.
- Parsing of the endpoint URL, TLS choice and construction of the S3 client: one flag says whether they work.
- Provider configuration and API token lookup of the ObjectsUser connector: one flag says whether Connect works.
- Events, log messages and error texts.
- Finalizers of others and the moment the finalizer is added: a resource has it from its creation on.
- More than one S3 account: buckets belong to the account of the credentials or to a foreign one.
- Validity of bucket names, object versions and retention.
- BucketPipeline.ProvisioningPipeline.DeleteAllObjects: takes the interleaving of the goroutine and the remover as an argument, since one method body cannot hold several threads; `Drain` quantifies over all of them. What the goroutines do after the call returned ends with the context of the reconcile.
- BucketProtocol.Step: one Create, Update or Delete call is one step. Objects put into a bucket between emptying and removal show up as a refused removal.
- UserTheorems.AtMostOnce: counts create requests that were answered; `UserWitnesses.LostReplyLeaksUser` shows what a lost answer does, and `UserTheorems.RecordedIffAnswered` that nothing else does it.

/** What each call of the Bucket controller computes: the resource it leaves
    in memory, the object store it leaves behind and what it answers. */
module BucketController {
  import opened Kube
  import opened BucketApi
  import opened S3
  import Drain
  import Credentials

  // ---- connector.go

  /** The four criteria that say an earlier reconcile deleted the bucket. */
  predicate AlreadyDeleted(status: BucketStatus) {
    var ready := FindCondition(status.conditions, Ready);
    var synced := FindCondition(status.conditions, Synced);
    && ready.Some? && synced.Some?
    && ready.value.status == ConditionFalse
    && ready.value.reason == ReasonDeleting
    && synced.value.status == ConditionTrue
    && synced.value.reason == ReasonReconcileSuccess
  }

  /** The first Ready condition says that the bucket is being deleted, and the
      first Synced condition that the last reconcile succeeded. */
  lemma CriteriaExact(status: BucketStatus)
    ensures AlreadyDeleted(status) <==>
      exists i: nat, j: nat :: IsFirst(status.conditions, i, Ready) && IsFirst(status.conditions, j, Synced)
        && status.conditions[i] == Condition(Ready, ConditionFalse, ReasonDeleting)
        && status.conditions[j] == Condition(Synced, ConditionTrue, ReasonReconcileSuccess)
  {
    FoundIsFirst(status.conditions, Ready, Condition(Ready, ConditionFalse, ReasonDeleting));
    FoundIsFirst(status.conditions, Synced, Condition(Synced, ConditionTrue, ReasonReconcileSuccess));
  }

  datatype Connection = NoopClient | S3Client(endpoint: string) | ConnectFailed

  /** `secret` is the answer to fetching the credentials, `None` if that failed;
      `builds` says whether a client can be built for the endpoint. */
  function Connect(b: BucketObject, secret: Option<Credentials.SecretData>, builds: bool): Connection {
    if AlreadyDeleted(b.status) then NoopClient
    else if secret.None? || !Credentials.ValidSecret(secret.value) || !builds then ConnectFailed
    else S3Client(GetEndpoint(b))
  }

  /** A store client is handed out exactly if the bucket is not marked deleted,
      the Secret was fetched and holds both keys with content, and a client can
      be built; it talks to the endpoint of the region. */
  lemma ConnectGrants(b: BucketObject, secret: Option<Credentials.SecretData>, builds: bool)
    ensures var client := Connect(b, secret, builds);
      && (client.NoopClient? <==> AlreadyDeleted(b.status))
      && (client.S3Client? <==>
            && !AlreadyDeleted(b.status) && builds && secret.Some? && secret.value.Some?
            && var data := secret.value.value;
            && "AWS_ACCESS_KEY_ID" in data && |data["AWS_ACCESS_KEY_ID"]| > 0
            && "AWS_SECRET_ACCESS_KEY" in data && |data["AWS_SECRET_ACCESS_KEY"]| > 0)
      && (client.S3Client? ==> client.endpoint == "objects." + b.spec.region + ".cloudscale.ch")
  {
  }

  // ---- webhook.go

  datatype Verdict = Admitted | CannotRename | CannotChangeRegion

  function ValidateUpdate(before: BucketObject, after: BucketObject): Verdict {
    if before.status.bucketName == "" then Admitted
    else if GetBucketName(after) != before.status.bucketName then CannotRename
    else if after.spec.region != before.spec.region then CannotChangeRegion
    else Admitted
  }

  /** An update is admitted exactly if no bucket was made yet, or it asks for the
      bucket that was made, by name or by default, in the same region. The name
      is looked at first. */
  lemma AdmittedExactly(before: BucketObject, after: BucketObject)
    ensures var made := before.status.bucketName;
      var sameName := after.spec.bucketName == made || (after.spec.bucketName == "" && after.name == made);
      var sameRegion := after.spec.region == before.spec.region;
      && (ValidateUpdate(before, after) == Admitted <==> made == "" || (sameName && sameRegion))
      && (ValidateUpdate(before, after) == CannotRename <==> made != "" && !sameName)
      && (ValidateUpdate(before, after) == CannotChangeRegion <==> made != "" && sameName && !sameRegion)
  {
  }

  // ---- observe.go

  datatype ObserveError = WrongCredentials | WrongRegion | CannotDetermine | ExistsAlready

  function WithEndpoint(b: BucketObject): BucketObject {
    b.(status := b.status.(endpoint := GetEndpoint(b), endpointURL := GetEndpointURL(b)))
  }

  function Observe(b: BucketObject, reply: ExistsReply): (BucketObject, Observation<ObserveError>) {
    var o := WithEndpoint(b);
    match reply
    case ExistsError(code) =>
      (o, ObserveFailed(if code == FORBIDDEN then WrongCredentials
                        else if code == MOVED_PERMANENTLY then WrongRegion
                        else CannotDetermine))
    case Exists(yes) =>
      if Locked(b) && yes then
        (o.(status := o.status.(bucketName := GetBucketName(b),
                                conditions := SetCondition(o.status.conditions, AVAILABLE))),
         Observed(true, true))
      else if yes then (o, ObserveFailed(ExistsAlready))
      else (o, Observed(false, false))
  }

  /** A bucket counts as there exactly if it exists and the resource holds the
      lock, as absent exactly if it does not exist; all else is an error, told
      apart by the code of the reply. Only the first makes the resource ready and
      puts the name asked for, or else `metadata.name`, into status. */
  lemma ObserveReports(b: BucketObject, reply: ExistsReply)
    ensures var (o, obs) := Observe(b, reply);
      var locked := "cloudscale.crossplane.io/lock" in b.annotations;
      && (obs == Observed(true, true) <==> reply == Exists(true) && locked)
      && (obs == Observed(false, false) <==> reply == Exists(false))
      && (obs == ObserveFailed(ExistsAlready) <==> reply == Exists(true) && !locked)
      && (obs == ObserveFailed(WrongCredentials) <==> reply == ExistsError(403))
      && (obs == ObserveFailed(WrongRegion) <==> reply == ExistsError(301))
      && (obs == ObserveFailed(CannotDetermine) <==> reply.ExistsError? && reply.code != 403 && reply.code != 301)
      && (obs.Observed? ==> obs.found == obs.upToDate)
      && o == b.(status := o.status)
      && o.status.endpoint == "objects." + b.spec.region + ".cloudscale.ch"
      && o.status.endpointURL == "https://objects." + b.spec.region + ".cloudscale.ch"
      && (obs != Observed(true, true) ==>
            o.status.bucketName == b.status.bucketName && o.status.conditions == b.status.conditions)
      && (obs == Observed(true, true) && b.spec.bucketName == "" ==> o.status.bucketName == b.name)
      && (obs == Observed(true, true) && b.spec.bucketName != "" ==> o.status.bucketName == b.spec.bucketName)
      && FindCondition(o.status.conditions, Ready)
         == (if obs == Observed(true, true) then Some(AVAILABLE) else FindCondition(b.status.conditions, Ready))
      && FindCondition(o.status.conditions, Synced) == FindCondition(b.status.conditions, Synced)
  {
    FindAfterSet(b.status.conditions, AVAILABLE, Ready);
    FindAfterSet(b.status.conditions, AVAILABLE, Synced);
    var region := b.spec.region;
    assert "https://" + ("objects." + region + ".cloudscale.ch") == "https://objects." + region + ".cloudscale.ch";
  }

  // ---- create.go

  datatype CreateFaults = CreateFaults(make: CallFault, check: ReadFault)

  datatype CreateOutcome = CreateOutcome(bucket: BucketObject, store: Store, ok: bool)

  /** Makes the bucket, or finds that it is ours already; `true` on success. */
  function CreateS3Bucket(store: Store, id: BucketId, faults: CreateFaults): (Store, bool) {
    var (after, made) := MakeBucket(store, id, faults.make);
    (after, made || BucketExists(after, id, faults.check) == Exists(true))
  }

  function SetLock(b: BucketObject): BucketObject {
    b.(annotations := b.annotations[LOCK_ANNOTATION := "claimed"])
  }

  /** The bucket is asked for at the endpoint of the client. */
  function Create(b: BucketObject, endpoint: string, store: Store, faults: CreateFaults): CreateOutcome {
    var (after, ok) := CreateS3Bucket(store, BucketId(endpoint, GetBucketName(b)), faults);
    CreateOutcome(if ok then SetLock(b) else b, after, ok)
  }

  /** A lock is set exactly when Create succeeds, and then the bucket is there
      and ours: made by this very call, or confirmed by it. */
  lemma CreateClaims(b: BucketObject, endpoint: string, store: Store, faults: CreateFaults)
    ensures var out := Create(b, endpoint, store, faults); var id := BucketId(endpoint, GetBucketName(b));
      && (out.ok ==> Locked(out.bucket) && Owned(out.store, id) && (id in store ==> Owned(store, id)))
      && (!out.ok ==> out.bucket == b)
      && (forall j :: j in store ==> j in out.store && out.store[j] == store[j])
      && (forall j :: j in out.store && j !in store ==> j == id && out.store[j] == Ours({}))
  {
  }

  /** Create concerns the bucket that the resource names, or that has its
      `metadata.name`. It makes that one if it is absent, and succeeds exactly if
      it made it, or if the store confirms that it is ours; then the lock, and
      nothing else, is added. */
  lemma CreateExactly(b: BucketObject, endpoint: string, store: Store, faults: CreateFaults, name: string)
    requires if b.spec.bucketName == "" then name == b.name else name == b.spec.bucketName
    ensures var out := Create(b, endpoint, store, faults); var id := BucketId(endpoint, name);
      && out.store == (if id in store || faults.make == FailsBefore then store else store[id := Ours({})])
      && (out.ok <==> (id !in store && faults.make == Works) || (Owned(out.store, id) && faults.check == Answers))
      && out.bucket == (if out.ok then b.(annotations := b.annotations["cloudscale.crossplane.io/lock" := "claimed"]) else b)
  {
  }

  /** Create leaves a bucket behind that it does not claim exactly if the reply
      to MakeBucket is lost and the check that follows fails as well. */
  lemma CreateStrands(b: BucketObject, endpoint: string, store: Store, faults: CreateFaults)
    ensures var out := Create(b, endpoint, store, faults); var id := BucketId(endpoint, GetBucketName(b));
      id !in store && id in out.store && !out.ok <==> id !in store && faults.make == FailsAfter && faults.check.Fails?
  {
  }

  /** A bucket of another account is neither taken for the own one nor for absent,
      and Create does not claim it. */
  lemma ForeignRefused(b: BucketObject, store: Store, read: ReadFault, faults: CreateFaults)
    requires IdOf(b) in store && store[IdOf(b)] == Foreign
    ensures Observe(b, BucketExists(store, IdOf(b), read)).1.ObserveFailed?
    ensures read == Answers ==> Observe(b, BucketExists(store, IdOf(b), read)).1 == ObserveFailed(WrongCredentials)
    ensures Create(b, IdOf(b).endpoint, store, faults) == CreateOutcome(b, store, false)
  {
  }

  // ---- delete.go

  /** How emptying the bucket went: what was listed, and in which order the
      three parties moved until the caller had its answer. */
  datatype Emptying = Emptying(listing: seq<Drain.Entry>, moves: seq<Drain.Move>)

  predicate Complete(e: Emptying) {
    && Drain.Schedule(Drain.Start(e.listing), e.moves)
    && Drain.Exec(Drain.Start(e.listing), e.moves).main != Drain.Waiting
  }

  function HasDeleteAllPolicy(b: BucketObject): bool {
    b.spec.policy == DeleteAll
  }

  function DeleteAllObjects(store: Store, id: BucketId, e: Emptying): (Store, bool)
    requires Complete(e)
  {
    var s := Drain.Exec(Drain.Start(e.listing), e.moves);
    (RemoveKeys(store, id, s.removed), s.main == Drain.ReturnedNil)
  }

  /** Emptying keeps every bucket and reaches the objects of one of ours only;
      it removes none that was not listed, and all that were if it succeeds. */
  lemma EmptyingEffect(store: Store, id: BucketId, e: Emptying)
    requires Complete(e)
    ensures var (after, ok) := DeleteAllObjects(store, id, e); var listed := Drain.Listed(e.listing);
      && after.Keys == store.Keys
      && (forall j :: j in store && (j != id || !Owned(store, id)) ==> after[j] == store[j])
      && (Owned(store, id) ==>
            && Owned(after, id)
            && store[id].objects - listed <= after[id].objects <= store[id].objects
            && (ok ==> after[id].objects == store[id].objects - listed))
      && (ok <==> Drain.Exec(Drain.Start(e.listing), e.moves).main == Drain.ReturnedNil)
  {
    Drain.DrainExact(e.listing, e.moves);
  }

  /** Both steps work on the name kept in status. */
  function Delete(b: BucketObject, endpoint: string, store: Store, e: Emptying, fault: CallFault): (Store, bool)
    requires Complete(e)
  {
    var id := BucketId(endpoint, b.status.bucketName);
    var (emptied, ok) := if HasDeleteAllPolicy(b) then DeleteAllObjects(store, id, e) else (store, true);
    if ok then RemoveBucket(emptied, id, fault) else (emptied, false)
  }

  /** Delete reaches one bucket only, one of ours, and a success means that
      this bucket is gone. */
  lemma DeleteReach(b: BucketObject, endpoint: string, store: Store, e: Emptying, fault: CallFault)
    requires Complete(e)
    ensures var (after, ok) := Delete(b, endpoint, store, e, fault);
      var id := BucketId(endpoint, b.status.bucketName);
      && (forall j :: j != id ==> (j in after <==> j in store) && (j in after ==> after[j] == store[j]))
      && (id in after ==> id in store && after[id].Ours? == store[id].Ours?)
      && (id in store && id !in after ==> Owned(store, id) && (ok || fault == FailsAfter))
      && (ok ==> id in store && id !in after)
  {
  }

  /** Without the DeleteAll policy no object is removed, and Delete succeeds
      just if the bucket was empty. */
  lemma DeleteIfEmptyEffect(b: BucketObject, endpoint: string, store: Store, e: Emptying, fault: CallFault)
    requires Complete(e) && b.spec.policy != DeleteAll
    ensures var (after, ok) := Delete(b, endpoint, store, e, fault);
      var id := BucketId(endpoint, b.status.bucketName);
      && (forall j :: j in after ==> j in store && after[j] == store[j])
      && (forall j :: j in store && j !in after ==> store[j] == Ours({}))
      && (ok <==> id in store && store[id] == Ours({}) && fault == Works)
  {
  }

  lemma NothingLeft<T>(objects: set<T>, removed: set<T>)
    ensures objects - removed == {} <==> objects <= removed
  {
    if objects - removed == {} {
      forall k | k in objects ensures k in removed {
        assert k !in objects - removed;
      }
    }
  }

  /** With the DeleteAll policy only listed objects go. Delete succeeds just if
      emptying did and nothing but the listed objects was in the bucket; if
      emptying fails, the bucket stays. */
  lemma DeleteAllEffect(b: BucketObject, endpoint: string, store: Store, e: Emptying, fault: CallFault)
    requires Complete(e) && b.spec.policy == DeleteAll
    requires Owned(store, BucketId(endpoint, b.status.bucketName))
    ensures var (after, ok) := Delete(b, endpoint, store, e, fault);
      var id := BucketId(endpoint, b.status.bucketName);
      var listed := Drain.Listed(e.listing);
      var drained := Drain.Exec(Drain.Start(e.listing), e.moves).main == Drain.ReturnedNil;
      && (id in after ==> store[id].objects - listed <= after[id].objects <= store[id].objects)
      && (drained && id in after ==> after[id].objects == store[id].objects - listed)
      && (!drained ==> !ok && id in after)
      && (ok <==> drained && fault == Works && store[id].objects <= listed)
  {
    var id := BucketId(endpoint, b.status.bucketName);
    EmptyingEffect(store, id, e);
    NothingLeft(store[id].objects, Drain.Listed(e.listing));
  }

  // ---- what the reconciler stores after each call

  function Concluded(status: BucketStatus, ready: Option<Condition>, synced: Condition): BucketStatus {
    var conds := if ready.Some? then SetCondition(status.conditions, ready.value) else status.conditions;
    status.(conditions := SetCondition(conds, synced))
  }

  /** Only a successful Delete leaves the four criteria behind. */
  lemma ConcludedDeleted(status: BucketStatus, ready: Option<Condition>, synced: Condition)
    requires ready.Some? ==> ready.value.kind == Ready
    requires synced == RECONCILE_SUCCESS || synced == RECONCILE_ERROR
    ensures AlreadyDeleted(Concluded(status, ready, synced)) <==>
      && synced == RECONCILE_SUCCESS
      && var r := if ready.Some? then ready else FindCondition(status.conditions, Ready);
         r.Some? && r.value.status == ConditionFalse && r.value.reason == ReasonDeleting
  {
    var conds := if ready.Some? then SetCondition(status.conditions, ready.value) else status.conditions;
    FindAfterSet(conds, synced, Ready);
    FindAfterSet(conds, synced, Synced);
    if ready.Some? {
      FindAfterSet(status.conditions, ready.value, Ready);
    }
  }
}

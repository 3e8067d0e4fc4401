/** The Bucket controller step by step, on the objects it changes. Every call
    is proved to have the effect that BucketController gives it. */
module BucketPipeline {
  import opened Kube
  import opened BucketApi
  import opened S3
  import C = BucketController
  import Credentials
  import Drain

  /** A client of the object store for one endpoint. Its calls take the
      failure they meet as an argument. */
  class MinioClient {
    const endpoint: string
    const service: Service

    constructor (endpoint: string, service: Service)
      ensures this.endpoint == endpoint && this.service == service
    {
      this.endpoint, this.service := endpoint, service;
    }

    method Exists(name: string, read: ReadFault) returns (reply: ExistsReply)
      ensures reply == BucketExists(service.store, BucketId(endpoint, name), read)
    {
      reply := BucketExists(service.store, BucketId(endpoint, name), read);
    }

    method Make(name: string, fault: CallFault) returns (ok: bool)
      modifies service
      ensures (service.store, ok) == MakeBucket(old(service.store), BucketId(endpoint, name), fault)
    {
      var (after, made) := MakeBucket(service.store, BucketId(endpoint, name), fault);
      service.store, ok := after, made;
    }

    method Remove(name: string, fault: CallFault) returns (ok: bool)
      modifies service
      ensures (service.store, ok) == RemoveBucket(old(service.store), BucketId(endpoint, name), fault)
    {
      var (after, removed) := RemoveBucket(service.store, BucketId(endpoint, name), fault);
      service.store, ok := after, removed;
    }
  }

  class ProvisioningPipeline {
    const minio: MinioClient

    constructor (minio: MinioClient)
      ensures this.minio == minio
    {
      this.minio := minio;
    }

    method Observe(bucket: Bucket, read: ReadFault) returns (obs: Observation<C.ObserveError>)
      modifies bucket
      ensures (bucket.View(), obs)
           == C.Observe(old(bucket.View()),
                        BucketExists(minio.service.store,
                                     BucketId(minio.endpoint, GetBucketName(old(bucket.View()))), read))
      ensures minio.service.store == old(minio.service.store)
    {
      bucket.status := bucket.status.(endpoint := GetEndpoint(bucket.View()));
      bucket.status := bucket.status.(endpointURL := GetEndpointURL(bucket.View()));
      var bucketName := GetBucketName(bucket.View());
      var reply := minio.Exists(bucketName, read);
      if reply.ExistsError? {
        if reply.code == FORBIDDEN {
          return ObserveFailed(C.WrongCredentials);
        }
        if reply.code == MOVED_PERMANENTLY {
          return ObserveFailed(C.WrongRegion);
        }
        return ObserveFailed(C.CannotDetermine);
      }
      if bucket.annotations.Some? && LOCK_ANNOTATION in bucket.annotations.value && reply.yes {
        bucket.status := bucket.status.(bucketName := bucketName);
        bucket.status := bucket.status.(conditions := SetCondition(bucket.status.conditions, AVAILABLE));
        return Observed(true, true);
      } else if reply.yes {
        return ObserveFailed(C.ExistsAlready);
      }
      return Observed(false, false);
    }

    method CreateS3Bucket(bucket: Bucket, faults: C.CreateFaults) returns (ok: bool)
      modifies minio.service
      ensures (minio.service.store, ok)
           == C.CreateS3Bucket(old(minio.service.store), BucketId(minio.endpoint, GetBucketName(bucket.View())), faults)
    {
      var bucketName := GetBucketName(bucket.View());
      ok := minio.Make(bucketName, faults.make);
      if !ok {
        var reply := minio.Exists(bucketName, faults.check);
        return reply.Exists? && reply.yes;
      }
    }

    method SetLock(bucket: Bucket)
      modifies bucket
      ensures bucket.View() == C.SetLock(old(bucket.View()))
    {
      if bucket.annotations.None? {
        bucket.annotations := Some(map[]);
      }
      bucket.annotations := Some(bucket.annotations.value[LOCK_ANNOTATION := "claimed"]);
    }

    method Create(bucket: Bucket, faults: C.CreateFaults) returns (ok: bool)
      modifies bucket, minio.service
      ensures C.CreateOutcome(bucket.View(), minio.service.store, ok)
           == C.Create(old(bucket.View()), minio.endpoint, old(minio.service.store), faults)
    {
      ok := CreateS3Bucket(bucket, faults);
      if ok {
        SetLock(bucket);
      }
    }

    method DeleteAllObjects(bucket: Bucket, e: C.Emptying) returns (ok: bool)
      requires C.Complete(e)
      modifies minio.service
      ensures (minio.service.store, ok)
           == C.DeleteAllObjects(old(minio.service.store), BucketId(minio.endpoint, bucket.status.bucketName), e)
    {
      var end := Drain.Exec(Drain.Start(e.listing), e.moves);
      var id := BucketId(minio.endpoint, bucket.status.bucketName);
      minio.service.store := RemoveKeys(minio.service.store, id, end.removed);
      ok := end.main == Drain.ReturnedNil;
    }

    method DeleteS3Bucket(bucket: Bucket, fault: CallFault) returns (ok: bool)
      modifies minio.service
      ensures (minio.service.store, ok)
           == RemoveBucket(old(minio.service.store), BucketId(minio.endpoint, bucket.status.bucketName), fault)
    {
      ok := minio.Remove(bucket.status.bucketName, fault);
    }

    /** The steps run in order; a step whose condition is false is skipped and
        the first error ends the pipeline. */
    method Delete(bucket: Bucket, e: C.Emptying, fault: CallFault) returns (ok: bool)
      requires C.Complete(e)
      modifies minio.service
      ensures (minio.service.store, ok)
           == C.Delete(bucket.View(), minio.endpoint, old(minio.service.store), e, fault)
    {
      ok := true;
      if C.HasDeleteAllPolicy(bucket.View()) {
        ok := DeleteAllObjects(bucket, e);
      }
      if ok {
        ok := DeleteS3Bucket(bucket, fault);
      }
    }
  }

  // ---- connector.go

  method FindConditionOf(conds: seq<Condition>, kind: ConditionKind) returns (found: Option<Condition>)
    ensures found == FindCondition(conds, kind)
  {
    for i := 0 to |conds|
      invariant FindCondition(conds, kind) == FindCondition(conds[i..], kind)
    {
      if conds[i].kind == kind {
        return Some(conds[i]);
      }
    }
    return None;
  }

  method IsBucketAlreadyDeleted(bucket: Bucket) returns (deleted: bool)
    ensures deleted == C.AlreadyDeleted(bucket.status)
  {
    var ready := FindConditionOf(bucket.status.conditions, Ready);
    var synced := FindConditionOf(bucket.status.conditions, Synced);
    if ready.Some? && synced.Some? {
      if ready.value.status == ConditionFalse && ready.value.reason == ReasonDeleting
        && synced.value.status == ConditionTrue && synced.value.reason == ReasonReconcileSuccess
      {
        return true;
      }
    }
    return false;
  }

  method ValidateSecret(data: Credentials.SecretData) returns (ok: bool)
    ensures ok == Credentials.ValidSecret(data)
  {
    if data.None? {
      return false;
    }
    var requiredKeys := [Credentials.ACCESS_KEY_ID, Credentials.SECRET_ACCESS_KEY];
    for i := 0 to |requiredKeys|
      invariant forall j :: 0 <= j < i ==> Credentials.Filled(data.value, requiredKeys[j])
    {
      if requiredKeys[i] !in data.value || data.value[requiredKeys[i]] == "" {
        return false;
      }
    }
    assert Credentials.Filled(data.value, requiredKeys[0]) && Credentials.Filled(data.value, requiredKeys[1]);
    return true;
  }

  method Connect(bucket: Bucket, secret: Option<Credentials.SecretData>, builds: bool)
    returns (client: C.Connection)
    ensures client == C.Connect(bucket.View(), secret, builds)
  {
    var deleted := IsBucketAlreadyDeleted(bucket);
    if deleted {
      return C.NoopClient;
    }
    if secret.None? {
      return C.ConnectFailed;
    }
    var valid := ValidateSecret(secret.value);
    if !valid {
      return C.ConnectFailed;
    }
    if !builds {
      return C.ConnectFailed;
    }
    return C.S3Client(GetEndpoint(bucket.View()));
  }
}

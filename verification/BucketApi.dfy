/** The Bucket resource, as a value and as the object the controller changes. */
module BucketApi {
  import opened Kube

  datatype BucketDeletionPolicy = DeleteIfEmpty | DeleteAll | OtherPolicy(text: string)

  datatype BucketSpec = BucketSpec(
    bucketName: string,
    region: string,
    policy: BucketDeletionPolicy,
    orphan: bool)  // spec.deletionPolicy is Orphan

  datatype BucketStatus = BucketStatus(
    conditions: seq<Condition>,
    endpoint: string,
    endpointURL: string,
    bucketName: string)

  const NO_STATUS := BucketStatus([], "", "", "")

  /** One version of a Bucket resource. `uid` tells two resources apart that
      had the same `metadata.name` one after the other. */
  datatype BucketObject = BucketObject(
    name: string,
    uid: nat,
    annotations: map<string, string>,
    deleting: bool,
    spec: BucketSpec,
    status: BucketStatus)

  const LOCK_ANNOTATION := "cloudscale.crossplane.io/lock"

  predicate Locked(b: BucketObject) {
    LOCK_ANNOTATION in b.annotations
  }

  function GetBucketName(b: BucketObject): string {
    if b.spec.bucketName == "" then b.name else b.spec.bucketName
  }

  function RegionEndpoint(region: string): string {
    "objects." + region + ".cloudscale.ch"
  }

  function GetEndpoint(b: BucketObject): string {
    RegionEndpoint(b.spec.region)
  }

  function GetEndpointURL(b: BucketObject): string {
    "https://" + GetEndpoint(b)
  }

  /** A bucket is found by the endpoint that is asked and the name asked for. */
  datatype BucketId = BucketId(endpoint: string, name: string)

  function IdOf(b: BucketObject): BucketId {
    BucketId(GetEndpoint(b), GetBucketName(b))
  }

  /** Different regions have different endpoints. */
  lemma EndpointInjective(r1: string, r2: string)
    requires RegionEndpoint(r1) == RegionEndpoint(r2)
    ensures r1 == r2
  {
    assert RegionEndpoint(r1)[8..|RegionEndpoint(r1)| - 14] == r1;
    assert RegionEndpoint(r2)[8..|RegionEndpoint(r2)| - 14] == r2;
  }

  /** Two resources ask for the same bucket exactly if they name the same region
      and the same bucket, where a resource that names none stands for its own
      `metadata.name`. */
  lemma SameBucket(b: BucketObject, c: BucketObject)
    ensures IdOf(b) == IdOf(c) <==>
      && b.spec.region == c.spec.region
      && match (b.spec.bucketName == "", c.spec.bucketName == "")
         case (true, true) => b.name == c.name
         case (true, false) => b.name == c.spec.bucketName
         case (false, true) => b.spec.bucketName == c.name
         case (false, false) => b.spec.bucketName == c.spec.bucketName
  {
    if IdOf(b) == IdOf(c) {
      EndpointInjective(b.spec.region, c.spec.region);
    }
  }

  /** The Bucket struct the controller holds a pointer to. */
  class Bucket {
    const name: string
    const uid: nat
    const deleting: bool
    var annotations: Option<map<string, string>>  // None is Go's nil map
    var spec: BucketSpec
    var status: BucketStatus

    constructor (b: BucketObject)
      ensures View() == b
    {
      name, uid, deleting := b.name, b.uid, b.deleting;
      annotations, spec, status := Some(b.annotations), b.spec, b.status;
    }

    function View(): BucketObject
      reads this
    {
      BucketObject(name, uid, if annotations.None? then map[] else annotations.value, deleting, spec, status)
    }
  }
}

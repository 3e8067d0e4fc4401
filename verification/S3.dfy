/** The object store, reduced to the calls the Bucket controller makes.
    Failures are inputs: a call can fail before or after it took effect. */
module S3 {
  import opened Kube
  import opened BucketApi

  datatype Content = Ours(objects: set<string>) | Foreign

  type Store = map<BucketId, Content>

  datatype ExistsReply = Exists(yes: bool) | ExistsError(code: int)

  const FORBIDDEN := 403
  const MOVED_PERMANENTLY := 301

  predicate Owned(s: Store, id: BucketId) {
    id in s && s[id].Ours?
  }

  /** A bucket of another account answers 403. */
  function BucketExists(s: Store, id: BucketId, fault: ReadFault): ExistsReply {
    match fault
    case Fails(code) => ExistsError(code)
    case Answers =>
      if id !in s then Exists(false)
      else if s[id].Ours? then Exists(true)
      else ExistsError(FORBIDDEN)
  }

  /** Making a bucket that is there already is refused. */
  function MakeBucket(s: Store, id: BucketId, fault: CallFault): (r: (Store, bool))
    ensures r.1 ==> id !in s && Owned(r.0, id)
    ensures forall j :: j in s ==> j in r.0 && r.0[j] == s[j]
    ensures forall j :: j in r.0 && j !in s ==> j == id && r.0[j] == Ours({})
  {
    if id in s || fault == FailsBefore then (s, false)
    else (s[id := Ours({})], fault == Works)
  }

  /** Removing a bucket is refused unless it is ours and empty. */
  function RemoveBucket(s: Store, id: BucketId, fault: CallFault): (r: (Store, bool))
    ensures r.1 ==> id in s && s[id] == Ours({}) && id !in r.0
    ensures forall j :: j in r.0 ==> j in s && r.0[j] == s[j]
    ensures forall j :: j in s && j !in r.0 ==> j == id && s[id] == Ours({}) && fault != FailsBefore
  {
    if id !in s || s[id] != Ours({}) || fault == FailsBefore then (s, false)
    else (s - {id}, fault == Works)
  }

  function RemoveKeys(s: Store, id: BucketId, keys: set<string>): Store {
    if Owned(s, id) then s[id := Ours(s[id].objects - keys)] else s
  }

  /** The service behind every client, changed by the calls. */
  class Service {
    var store: Store

    constructor (s: Store)
      ensures store == s
    {
      store := s;
    }
  }
}

/** Bucket resources, the object store, users and the reconciler as one step
    system. A reconcile is a session: it reads one version of the resource,
    works on that copy and writes results back, while anything else may
    happen between any two of its steps. The reconciler itself is not part of
    the repository; its order of calls is assumed as written here. */
module BucketProtocol {
  import opened Kube
  import opened BucketApi
  import opened S3
  import C = BucketController
  import Credentials

  /** `rv` is the resource version: every write gets a new one. */
  datatype Stored = Stored(rv: nat, bucket: BucketObject)

  datatype Phase =
    | Connected
    | Stopped              // Connect or Observe failed
    | Saw(found: bool)
    | Created(ok: bool)
    | Deleted(ok: bool)

  /** `bucket` is the copy in memory, read at version `rv`. */
  datatype Session = Session(sid: nat, rv: nat, bucket: BucketObject, client: C.Connection, phase: Phase)

  /** The history of calls that matter. */
  datatype Event =
    | Looked(sid: nat, uid: nat, id: BucketId, found: bool, locked: bool)
    | Claimed(sid: nat, uid: nat, id: BucketId)  // the lock was set
    | EmptyCalled(sid: nat, uid: nat, id: BucketId)
    | RemoveCalled(sid: nat, uid: nat, id: BucketId, ok: bool)
    | Released(sid: nat, uid: nat, id: BucketId)

  datatype World = World(
    stored: map<string, Stored>,
    sessions: map<string, Session>,
    s3: Store,
    log: seq<Event>,
    clock: nat)

  datatype Action =
    // users and others
    | UserCreate(name: string, annotations: map<string, string>, spec: BucketSpec)
    | UserUpdate(name: string, annotations: map<string, string>, spec: BucketSpec)
    | UserDelete(name: string)
    | PutObjects(id: BucketId, objects: set<string>)
    | OutsideMake(id: BucketId)    // with our account, but not by this provider
    | OutsideRemove(id: BucketId)
    | ForeignMake(id: BucketId)    // by another account
    | ForeignRemove(id: BucketId)
    // the reconciler
    | Begin(name: string, secret: Option<Credentials.SecretData>, builds: bool)
    | Observe(name: string, read: ReadFault)
    | Create(name: string, faults: C.CreateFaults)
    | Delete(name: string, emptying: C.Emptying, fault: CallFault)
    | PersistStatus(name: string)
    | PersistAnnotations(name: string)
    | Release(name: string)
    | ReleaseFails(name: string)
    | ReleaseOrphan(name: string)
    | Abort(name: string)  // a crash, or a write that was refused

  predicate InPhase(w: World, r: string, p: Phase) {
    r in w.sessions && r in w.stored && w.sessions[r].phase == p
  }

  /** Nobody wrote the resource since the session read it. */
  predicate Fresh(w: World, r: string) {
    r in w.sessions && r in w.stored && w.sessions[r].rv == w.stored[r].rv
  }

  predicate Storable(s: Session) {
    s.phase == Stopped || s.phase.Deleted? || (s.phase == Saw(true) && !s.bucket.deleting)
  }

  predicate Enabled(w: World, a: Action) {
    match a
    case UserCreate(r, _, _) => r !in w.stored && r != ""
    case UserUpdate(r, annotations, spec) =>
      r in w.stored && var b := w.stored[r].bucket;
      C.ValidateUpdate(b, b.(annotations := annotations, spec := spec)) == C.Admitted
    case UserDelete(r) => r in w.stored
    case PutObjects(id, _) => Owned(w.s3, id)
    case OutsideMake(id) => id !in w.s3
    case OutsideRemove(id) => Owned(w.s3, id)
    case ForeignMake(id) => id !in w.s3
    case ForeignRemove(id) => id in w.s3 && w.s3[id].Foreign?
    case Begin(r, _, _) =>
      r in w.stored && r !in w.sessions && var b := w.stored[r].bucket;
      !(b.deleting && b.spec.orphan)
    case Observe(r, _) => InPhase(w, r, Connected)
    case Create(r, _) => InPhase(w, r, Saw(false)) && !w.sessions[r].bucket.deleting
    case Delete(r, emptying, _) =>
      InPhase(w, r, Saw(true)) && w.sessions[r].bucket.deleting && C.Complete(emptying)
    case PersistStatus(r) => Fresh(w, r) && Storable(w.sessions[r])
    case PersistAnnotations(r) => r in w.stored && r in w.sessions && w.sessions[r].phase.Created?
    case Release(r) => InPhase(w, r, Saw(false)) && w.sessions[r].bucket.deleting && Fresh(w, r)
    case ReleaseFails(r) => InPhase(w, r, Saw(false)) && w.sessions[r].bucket.deleting && Fresh(w, r)
    case ReleaseOrphan(r) =>
      r in w.stored && r !in w.sessions && w.stored[r].bucket.deleting && w.stored[r].bucket.spec.orphan
    case Abort(r) => r in w.sessions
  }

  function Write(w: World, r: string, b: BucketObject): World {
    w.(stored := w.stored[r := Stored(w.clock, b)], clock := w.clock + 1)
  }

  function EndSession(w: World, r: string): World {
    w.(sessions := w.sessions - {r})
  }

  function BeginSession(w: World, st: Stored, secret: Option<Credentials.SecretData>, builds: bool): Session {
    var client := C.Connect(st.bucket, secret, builds);
    Session(w.clock, st.rv, st.bucket, client, if client.ConnectFailed? then Stopped else Connected)
  }

  function ObserveSession(s3: Store, s: Session, read: ReadFault): (Session, seq<Event>) {
    match s.client
    case S3Client(endpoint) =>
      var id := BucketId(endpoint, GetBucketName(s.bucket));
      var reply := BucketExists(s3, id, read);
      var (b, obs) := C.Observe(s.bucket, reply);
      (s.(bucket := b, phase := if obs.ObserveFailed? then Stopped else Saw(obs.found)),
       if reply.Exists? then [Looked(s.sid, s.bucket.uid, id, reply.yes, Locked(s.bucket))] else [])
    case NoopClient => (s.(phase := Saw(false)), [])
    case ConnectFailed => (s, [])
  }

  function CreateSession(s3: Store, s: Session, faults: C.CreateFaults): (Session, Store, seq<Event>) {
    match s.client
    case S3Client(endpoint) =>
      var out := C.Create(s.bucket, endpoint, s3, faults);
      (s.(bucket := out.bucket, phase := Created(out.ok)), out.store,
       if out.ok then [Claimed(s.sid, s.bucket.uid, BucketId(endpoint, GetBucketName(s.bucket)))] else [])
    case NoopClient => (s.(phase := Created(true)), s3, [])
    case ConnectFailed => (s, s3, [])
  }

  function DeleteSession(s3: Store, s: Session, e: C.Emptying, fault: CallFault): (Session, Store, seq<Event>)
    requires C.Complete(e)
  {
    match s.client
    case S3Client(endpoint) =>
      var id := BucketId(endpoint, s.bucket.status.bucketName);
      var (after, ok) := C.Delete(s.bucket, endpoint, s3, e, fault);
      var all := C.HasDeleteAllPolicy(s.bucket);
      (s.(phase := Deleted(ok)), after,
       (if all then [EmptyCalled(s.sid, s.bucket.uid, id)] else [])
       + (if !all || C.DeleteAllObjects(s3, id, e).1 then [RemoveCalled(s.sid, s.bucket.uid, id, ok)] else []))
    case NoopClient => (s.(phase := Deleted(true)), s3, [])
    case ConnectFailed => (s, s3, [])
  }

  /** The status a session leaves behind. */
  function FinalStatus(s: Session): BucketStatus {
    match s.phase
    case Deleted(ok) =>
      C.Concluded(s.bucket.status, Some(DELETING), if ok then RECONCILE_SUCCESS else RECONCILE_ERROR)
    case Saw(_) => C.Concluded(s.bucket.status, None, RECONCILE_SUCCESS)
    case _ => C.Concluded(s.bucket.status, None, RECONCILE_ERROR)
  }

  function Step(w: World, a: Action): World
    requires Enabled(w, a)
  {
    match a
    case UserCreate(r, annotations, spec) =>
      Write(w, r, BucketObject(r, w.clock, annotations, false, spec, NO_STATUS))
    case UserUpdate(r, annotations, spec) =>
      Write(w, r, w.stored[r].bucket.(annotations := annotations, spec := spec))
    case UserDelete(r) => Write(w, r, w.stored[r].bucket.(deleting := true))
    case PutObjects(id, objects) => w.(s3 := w.s3[id := Ours(objects)])
    case OutsideMake(id) => w.(s3 := w.s3[id := Ours({})])
    case OutsideRemove(id) => w.(s3 := w.s3 - {id})
    case ForeignMake(id) => w.(s3 := w.s3[id := Foreign])
    case ForeignRemove(id) => w.(s3 := w.s3 - {id})
    case Begin(r, secret, builds) =>
      w.(sessions := w.sessions[r := BeginSession(w, w.stored[r], secret, builds)], clock := w.clock + 1)
    case Observe(r, read) =>
      var (s, events) := ObserveSession(w.s3, w.sessions[r], read);
      w.(sessions := w.sessions[r := s], log := w.log + events)
    case Create(r, faults) =>
      var (s, s3, events) := CreateSession(w.s3, w.sessions[r], faults);
      w.(sessions := w.sessions[r := s], s3 := s3, log := w.log + events)
    case Delete(r, e, fault) =>
      var (s, s3, events) := DeleteSession(w.s3, w.sessions[r], e, fault);
      w.(sessions := w.sessions[r := s], s3 := s3, log := w.log + events)
    case PersistStatus(r) =>
      EndSession(Write(w, r, w.stored[r].bucket.(status := FinalStatus(w.sessions[r]))), r)
    case PersistAnnotations(r) =>
      var b := w.stored[r].bucket;
      EndSession(Write(w, r, b.(annotations := b.annotations + w.sessions[r].bucket.annotations)), r)
    case Release(r) =>
      var (sid, b) := (w.sessions[r].sid, w.sessions[r].bucket);
      EndSession(w.(stored := w.stored - {r}, log := w.log + [Released(sid, b.uid, IdOf(b))]), r)
    case ReleaseFails(r) =>
      var status := C.Concluded(w.sessions[r].bucket.status, Some(DELETING), RECONCILE_ERROR);
      EndSession(Write(w, r, w.stored[r].bucket.(status := status)), r)
    case ReleaseOrphan(r) => w.(stored := w.stored - {r})
    case Abort(r) => EndSession(w, r)
  }

  // ---- runs

  /** No resource is known and nothing is going on; buckets may be there. */
  predicate Initial(w: World) {
    w.stored == map[] && w.sessions == map[] && w.log == []
  }

  predicate Run(w: World, acts: seq<Action>)
    decreases |acts|
  {
    acts == [] || (Enabled(w, acts[0]) && Run(Step(w, acts[0]), acts[1..]))
  }

  function After(w: World, acts: seq<Action>): World
    requires Run(w, acts)
    decreases |acts|
  {
    if acts == [] then w else After(Step(w, acts[0]), acts[1..])
  }
}

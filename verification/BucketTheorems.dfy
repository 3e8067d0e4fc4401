/** Main results about every run of the bucket protocol. */
module BucketTheorems {
  import opened Kube
  import opened BucketApi
  import opened S3
  import opened BucketProtocol
  import opened BucketSafety
  import C = BucketController

  // ---- destruction and release

  /** Every call that removes objects or a bucket targets exactly the bucket
      that Observe of the same reconcile found while the resource held the lock. */
  lemma SafeDestruction(w: World, acts: seq<Action>, i: nat)
    requires Initial(w) && Run(w, acts) && i < |After(w, acts).log|
    ensures var log := After(w, acts).log;
      log[i].EmptyCalled? || log[i].RemoveCalled? ==>
        Looked(log[i].sid, log[i].uid, log[i].id, true, true) in log[..i]
  {
    RunSound(w, acts);
    assert Justified(After(w, acts).log[..i], After(w, acts).log[i]);
  }

  /** The finalizer is removed only by a reconcile that saw the bucket named
      by the resource absent, or after this resource removed that bucket. */
  lemma SoundRelease(w: World, acts: seq<Action>, i: nat)
    requires Initial(w) && Run(w, acts) && i < |After(w, acts).log|
    ensures var log := After(w, acts).log;
      log[i].Released? ==>
        SeenAbsent(log[..i], log[i].sid, log[i].uid, log[i].id) || RemovedBy(log[..i], log[i].uid, log[i].id)
  {
    RunSound(w, acts);
    assert Justified(After(w, acts).log[..i], After(w, acts).log[i]);
  }

  /** The four criteria hold only for a resource that is being deleted and
      whose own RemoveBucket call for the bucket it names returned success. */
  lemma FourCriteria(w: World, acts: seq<Action>, r: string)
    requires Initial(w) && Run(w, acts) && r in After(w, acts).stored
    ensures var b := After(w, acts).stored[r].bucket;
      C.AlreadyDeleted(b.status) ==> b.deleting && RemovedBy(After(w, acts).log, b.uid, IdOf(b))
  {
    RunSound(w, acts);
  }

  lemma Prepend(w: World, a: Action, acts: seq<Action>)
    requires Enabled(w, a) && Run(Step(w, a), acts)
    ensures Run(w, [a] + acts) && After(w, [a] + acts) == After(Step(w, a), acts)
  {
    assert ([a] + acts)[1..] == acts;
  }

  /** With the four criteria, Connect needs no credentials and Observe no store. */
  lemma NoopSteps(w: World, r: string, read: ReadFault) returns (w1: World, w2: World)
    requires r in w.stored && r !in w.sessions
    requires var b := w.stored[r].bucket; b.deleting && !b.spec.orphan && C.AlreadyDeleted(b.status)
    ensures Enabled(w, Begin(r, None, true)) && w1 == Step(w, Begin(r, None, true))
    ensures Enabled(w1, Observe(r, read)) && w2 == Step(w1, Observe(r, read))
    ensures w2.stored == w.stored && w2.s3 == w.s3 && InPhase(w2, r, Saw(false)) && Fresh(w2, r)
    ensures w2.sessions[r].bucket == w.stored[r].bucket
  {
    w1 := Step(w, Begin(r, None, true));
    assert w1.sessions[r].client == C.NoopClient && w1.sessions[r].bucket == w.stored[r].bucket;
    w2 := Step(w1, Observe(r, read));
  }

  function Looks(r: string, read: ReadFault): seq<Action> {
    [Begin(r, None, true), Observe(r, read), Release(r)]
  }

  lemma LooksRun(w: World, r: string, read: ReadFault)
    requires r in w.stored && r !in w.sessions
    requires var b := w.stored[r].bucket; b.deleting && !b.spec.orphan && C.AlreadyDeleted(b.status)
    ensures Run(w, Looks(r, read))
    ensures r !in After(w, Looks(r, read)).stored && After(w, Looks(r, read)).s3 == w.s3
  {
    var w1, w2 := NoopSteps(w, r, read);
    Prepend(w2, Release(r), []);
    Prepend(w1, Observe(r, read), [Release(r)] + []);
    Prepend(w, Begin(r, None, true), [Observe(r, read)] + ([Release(r)] + []));
    assert [Begin(r, None, true)] + ([Observe(r, read)] + ([Release(r)] + [])) == Looks(r, read);
  }

  /** A deleted resource whose credentials are gone can be released by the next
      reconcile exactly if the four criteria hold, and then without any access
      to the object store; otherwise that reconcile stops at Connect. */
  lemma WithoutCredentials(w: World, r: string, read: ReadFault)
    requires r in w.stored && r !in w.sessions
    requires w.stored[r].bucket.deleting && !w.stored[r].bucket.spec.orphan
    ensures Run(w, Looks(r, read)) <==> C.AlreadyDeleted(w.stored[r].bucket.status)
    ensures Run(w, Looks(r, read)) ==> r !in After(w, Looks(r, read)).stored && After(w, Looks(r, read)).s3 == w.s3
    ensures !Run(w, Looks(r, read)) ==> Step(w, Begin(r, None, true)).sessions[r].phase == Stopped
  {
    if C.AlreadyDeleted(w.stored[r].bucket.status) {
      LooksRun(w, r, read);
    } else {
      assert Looks(r, read)[1..][0] == Observe(r, read);
    }
  }

  /** The lock is set only by a reconcile that itself saw the bucket absent. */
  lemma ClaimNeedsAbsence(w: World, acts: seq<Action>, i: nat)
    requires Initial(w) && Run(w, acts) && i < |After(w, acts).log|
    ensures var log := After(w, acts).log;
      log[i].Claimed? ==> SeenAbsent(log[..i], log[i].sid, log[i].uid, log[i].id)
  {
    RunSound(w, acts);
    assert Justified(After(w, acts).log[..i], After(w, acts).log[i]);
  }

  // ---- frozen identity

  /** Resource `r` is the one with this `uid`, and its status holds a name. */
  predicate Named(w: World, r: string, uid: nat, name: string, region: string) {
    r in w.stored && var b := w.stored[r].bucket;
    && b.uid == uid && name != ""
    && b.status.bucketName == name && GetBucketName(b) == name
    && b.spec.region == region && b.status.endpoint == RegionEndpoint(region)
    && b.status.endpointURL == "https://" + RegionEndpoint(region)
  }

  predicate Gone(w: World, r: string, uid: nat) {
    uid < w.clock && (r in w.stored ==> w.stored[r].bucket.uid != uid)
  }

  lemma NamedStep(w: World, a: Action, r: string, uid: nat, name: string, region: string)
    requires Sound(w) && Enabled(w, a) && Named(w, r, uid, name, region)
    ensures Named(Step(w, a), r, uid, name, region) || Gone(Step(w, a), r, uid)
  {
  }

  lemma {:induction false} GoneRun(w: World, acts: seq<Action>, r: string, uid: nat)
    requires Sound(w) && Run(w, acts) && Gone(w, r, uid)
    ensures Gone(After(w, acts), r, uid)
    decreases |acts|
  {
    if acts != [] {
      StepSound(w, acts[0]);
      GoneRun(Step(w, acts[0]), acts[1..], r, uid);
    }
  }

  lemma {:induction false} NamedRun(w: World, acts: seq<Action>, r: string, uid: nat, name: string, region: string)
    requires Sound(w) && Run(w, acts) && Named(w, r, uid, name, region)
    ensures Named(After(w, acts), r, uid, name, region) || Gone(After(w, acts), r, uid)
    decreases |acts|
  {
    if acts != [] {
      var w' := Step(w, acts[0]);
      StepSound(w, acts[0]);
      NamedStep(w, acts[0], r, uid, name, region);
      if Gone(w', r, uid) {
        GoneRun(w', acts[1..], r, uid);
      } else {
        NamedRun(w', acts[1..], r, uid, name, region);
      }
    }
  }

  /** In every reachable state users may make exactly those changes to a resource
      whose bucket was made that keep the region and the name of the bucket, be
      it given or not: policy, orphan flag and annotations change freely. */
  lemma UpdatesAdmitted(w: World, acts: seq<Action>, r: string, annotations: map<string, string>, spec: BucketSpec)
    requires Initial(w) && Run(w, acts) && r in After(w, acts).stored
    ensures var b := After(w, acts).stored[r].bucket;
      && (b.spec.bucketName == spec.bucketName && b.spec.region == spec.region ==>
            Enabled(After(w, acts), UserUpdate(r, annotations, spec)))
      && (b.status.bucketName == "" ==> Enabled(After(w, acts), UserUpdate(r, annotations, spec)))
      && (b.status.bucketName != "" ==>
            (Enabled(After(w, acts), UserUpdate(r, annotations, spec)) <==>
               && spec.region == b.spec.region
               && (spec.bucketName == b.status.bucketName || (spec.bucketName == "" && r == b.status.bucketName))))
  {
    RunSound(w, acts);
    var b := After(w, acts).stored[r].bucket;
    C.AdmittedExactly(b, b.(annotations := annotations, spec := spec));
  }

  /** In every interleaving, a name in status is the name in force and status
      holds the endpoint of the region; from then on name, region and endpoint
      stay the same for as long as the resource lives. */
  lemma FrozenIdentity(w: World, first: seq<Action>, later: seq<Action>, r: string)
    requires Initial(w) && Run(w, first) && Run(After(w, first), later)
    requires r in After(w, first).stored && After(w, first).stored[r].bucket.status.bucketName != ""
    ensures var b := After(w, first).stored[r].bucket;
      && b.status.bucketName == GetBucketName(b) && b.status.endpoint == GetEndpoint(b)
      && var w' := After(After(w, first), later);
      r in w'.stored && w'.stored[r].bucket.uid == b.uid ==>
        Named(w', r, b.uid, b.status.bucketName, b.spec.region)
  {
    RunSound(w, first);
    var b := After(w, first).stored[r].bucket;
    NamedRun(After(w, first), later, r, b.uid, b.status.bucketName, b.spec.region);
  }

  // ---- no adoption

  /** A step of a reconcile of resource `r`. */
  predicate Reconciles(a: Action, r: string) {
    match a
    case Begin(q, _, _) => q == r
    case Observe(q, _) => q == r
    case Create(q, _) => q == r
    case Delete(q, _, _) => q == r
    case PersistStatus(q) => q == r
    case PersistAnnotations(q) => q == r
    case Release(q) => q == r
    case ReleaseFails(q) => q == r
    case Abort(q) => q == r
    case _ => false
  }

  /** The reconciles of `r` may do what they do. Of all other steps, none gives
      `r` the lock, points it at another bucket or takes its bucket away, and
      none lets an orphaned `r` go. */
  predicate Undisturbed(w: World, a: Action, r: string)
    requires Enabled(w, a) && r in w.stored
  {
    Reconciles(a, r)
    || (a != ReleaseOrphan(r)
        && var w', id := Step(w, a), IdOf(w.stored[r].bucket);
        && Owned(w'.s3, id)
        && (r in w'.stored ==> !Locked(w'.stored[r].bucket) && IdOf(w'.stored[r].bucket) == id))
  }

  predicate UndisturbedRun(w: World, acts: seq<Action>, r: string)
    decreases |acts|
  {
    acts == []
    || (Enabled(w, acts[0]) && r in w.stored && Undisturbed(w, acts[0], r)
        && UndisturbedRun(Step(w, acts[0]), acts[1..], r))
  }

  /** An unlocked resource whose bucket is there, at most looking at it. */
  predicate Refused(w: World, r: string) {
    r in w.stored && var b := w.stored[r].bucket;
    && !Locked(b) && Owned(w.s3, IdOf(b)) && !C.AlreadyDeleted(b.status)
    && (r in w.sessions ==> var s := w.sessions[r];
          && !Locked(s.bucket) && IdOf(s.bucket) == IdOf(b)
          && (s.phase == Connected || s.phase == Stopped)
          && (s.phase == Connected ==> s.client == C.S3Client(GetEndpoint(s.bucket))))
  }

  /** All that the history gained about this resource is that it looked, unlocked. */
  predicate OnlyLooked(before: seq<Event>, after: seq<Event>, uid: nat) {
    && before <= after
    && forall i :: |before| <= i < |after| && after[i].uid == uid ==> after[i].Looked? && !after[i].locked
  }

  lemma RefusedStep(w: World, a: Action, r: string)
    requires Enabled(w, a) && Reconciles(a, r) && Refused(w, r)
    ensures Refused(Step(w, a), r) && Step(w, a).s3 == w.s3
    ensures Step(w, a).stored[r].bucket.annotations == w.stored[r].bucket.annotations
    ensures Step(w, a).stored[r].bucket.uid == w.stored[r].bucket.uid
    ensures IdOf(Step(w, a).stored[r].bucket) == IdOf(w.stored[r].bucket)
    ensures OnlyLooked(w.log, Step(w, a).log, w.stored[r].bucket.uid)
  {
    if a.PersistStatus? {
      C.ConcludedDeleted(w.sessions[r].bucket.status, None, RECONCILE_ERROR);
    }
  }

  /** A call is recorded under the uid of its resource. */
  lemma CallLog(w: World, a: Action)
    requires Enabled(w, a) && (a.Observe? || a.Create? || a.Delete? || a.Release?)
    ensures w.log <= Step(w, a).log
    ensures forall i :: |w.log| <= i < |Step(w, a).log| ==> Step(w, a).log[i].uid == w.sessions[a.name].bucket.uid
  {
  }

  /** What the steps about other resources leave behind in the history. */
  lemma LogElsewhere(w: World, a: Action, r: string)
    requires Sound(w) && Enabled(w, a) && !Reconciles(a, r) && r in w.stored
    ensures OnlyLooked(w.log, Step(w, a).log, w.stored[r].bucket.uid)
  {
    if a.Observe? || a.Create? || a.Delete? || a.Release? {
      CallLog(w, a);
      assert Agrees(w.sessions[a.name], w.stored[a.name]);
      assert w.stored[a.name].bucket.uid != w.stored[r].bucket.uid;
    } else {
      assert Step(w, a).log == w.log;
    }
  }

  lemma UndisturbedStep(w: World, a: Action, r: string)
    requires Sound(w) && Refused(w, r) && Enabled(w, a) && Undisturbed(w, a, r)
    ensures Refused(Step(w, a), r) && Step(w, a).stored[r].bucket.uid == w.stored[r].bucket.uid
    ensures IdOf(Step(w, a).stored[r].bucket) == IdOf(w.stored[r].bucket)
    ensures OnlyLooked(w.log, Step(w, a).log, w.stored[r].bucket.uid)
  {
    if Reconciles(a, r) {
      RefusedStep(w, a, r);
    } else {
      LogElsewhere(w, a, r);
    }
  }

  lemma {:induction false} RefusedRun(w: World, acts: seq<Action>, r: string)
    requires Sound(w) && Refused(w, r) && UndisturbedRun(w, acts, r)
    ensures Run(w, acts) && Refused(After(w, acts), r)
    ensures After(w, acts).stored[r].bucket.uid == w.stored[r].bucket.uid
    ensures IdOf(After(w, acts).stored[r].bucket) == IdOf(w.stored[r].bucket)
    ensures OnlyLooked(w.log, After(w, acts).log, w.stored[r].bucket.uid)
    decreases |acts|
  {
    if acts != [] {
      StepSound(w, acts[0]);
      UndisturbedStep(w, acts[0], r);
      RefusedRun(Step(w, acts[0]), acts[1..], r);
    }
  }

  /** However often an unlocked resource is reconciled while its bucket is
      there, and whatever else goes on: it is refused at every moment, none of
      its own steps changes the object store, no lock is set, no destructive
      call is made for it, and its deletion does not complete. */
  lemma NoAdoption(w: World, first: seq<Action>, later: seq<Action>, next: Action, r: string)
    requires Initial(w) && Run(w, first) && Refused(After(w, first), r)
    requires UndisturbedRun(After(w, first), later, r)
    ensures Run(After(w, first), later)
    ensures var mid, end := After(w, first), After(After(w, first), later);
      && Refused(end, r) && IdOf(end.stored[r].bucket) == IdOf(mid.stored[r].bucket)
      && OnlyLooked(mid.log, end.log, mid.stored[r].bucket.uid)
      && (Enabled(end, next) && Reconciles(next, r) ==> Step(end, next).s3 == end.s3 && Refused(Step(end, next), r))
  {
    RunSound(w, first);
    RefusedRun(After(w, first), later, r);
    var end := After(After(w, first), later);
    if Enabled(end, next) && Reconciles(next, r) {
      RefusedStep(end, next, r);
    }
  }

  // ---- deletion policy

  /** No resource for this bucket asks for its objects to be deleted. */
  predicate NoDeleteAll(w: World, id: BucketId) {
    && (forall r :: r in w.stored && IdOf(w.stored[r].bucket) == id ==> w.stored[r].bucket.spec.policy != DeleteAll)
    && (forall r :: r in w.sessions && IdOf(w.sessions[r].bucket) == id ==> w.sessions[r].bucket.spec.policy != DeleteAll)
  }

  /** Users neither ask for it nor take objects of this bucket away themselves. */
  predicate Sparing(w: World, a: Action, id: BucketId) {
    match a
    case UserCreate(r, annotations, spec) =>
      IdOf(BucketObject(r, w.clock, annotations, false, spec, NO_STATUS)) == id ==> spec.policy != DeleteAll
    case UserUpdate(r, _, spec) =>
      r in w.stored && IdOf(w.stored[r].bucket.(spec := spec)) == id ==> spec.policy != DeleteAll
    case PutObjects(j, objects) => j == id && Owned(w.s3, id) ==> w.s3[id].objects <= objects
    case OutsideRemove(j) => j != id
    case _ => true
  }

  predicate SparingRun(w: World, acts: seq<Action>, id: BucketId)
    decreases |acts|
  {
    acts == [] || (Enabled(w, acts[0]) && Sparing(w, acts[0], id) && SparingRun(Step(w, acts[0]), acts[1..], id))
  }

  predicate Holding(s: Store, id: BucketId, objects: set<string>) {
    Owned(s, id) && objects <= s[id].objects
  }

  /** What the history gained says of no attempt to empty this bucket, and of no
      removal of it. */
  predicate Spared(before: seq<Event>, after: seq<Event>, id: BucketId) {
    && before <= after
    && forall i :: |before| <= i < |after| && after[i].id == id ==>
         !after[i].EmptyCalled? && !(after[i].RemoveCalled? && after[i].ok)
  }

  lemma SparingStep(w: World, a: Action, id: BucketId, objects: set<string>)
    requires Sound(w) && NoDeleteAll(w, id) && Enabled(w, a) && Sparing(w, a, id)
    requires objects != {} && Holding(w.s3, id, objects)
    ensures NoDeleteAll(Step(w, a), id) && Holding(Step(w, a).s3, id, objects)
    ensures Spared(w.log, Step(w, a).log, id)
  {
    if a.Delete? {
      SparingDelete(w, a, id, objects);
    } else if a.Observe? || a.Create? {
      SparingLook(w, a, id, objects);
    } else if a.Release? {
      assert Step(w, a).log[|w.log|..][0].Released?;
    } else {
      SparingElse(w, a, id, objects);
    }
  }

  lemma SparingLook(w: World, a: Action, id: BucketId, objects: set<string>)
    requires NoDeleteAll(w, id) && Enabled(w, a) && (a.Observe? || a.Create?) && Holding(w.s3, id, objects)
    ensures NoDeleteAll(Step(w, a), id) && Holding(Step(w, a).s3, id, objects)
    ensures Spared(w.log, Step(w, a).log, id)
  {
    if a.Observe? {
      ObserveKeepsSpec(w.s3, w.sessions[a.name], a.read);
    } else {
      CreateKeepsSpec(w.s3, w.sessions[a.name], a.faults);
    }
  }

  lemma SparingElse(w: World, a: Action, id: BucketId, objects: set<string>)
    requires NoDeleteAll(w, id) && Enabled(w, a) && Sparing(w, a, id) && Holding(w.s3, id, objects)
    requires !a.Observe? && !a.Create? && !a.Delete? && !a.Release?
    ensures NoDeleteAll(Step(w, a), id) && Holding(Step(w, a).s3, id, objects) && Step(w, a).log == w.log
  {
  }

  /** Delete works on the bucket of the resource itself, with its own policy. */
  lemma SparingDelete(w: World, a: Action, id: BucketId, objects: set<string>)
    requires Sound(w) && NoDeleteAll(w, id) && Enabled(w, a) && a.Delete?
    requires objects != {} && Holding(w.s3, id, objects)
    ensures NoDeleteAll(Step(w, a), id) && Holding(Step(w, a).s3, id, objects)
    ensures Spared(w.log, Step(w, a).log, id)
  {
    var s := w.sessions[a.name];
    assert BucketId(s.client.endpoint, s.bucket.status.bucketName) == IdOf(s.bucket);
    C.DeleteReach(s.bucket, s.client.endpoint, w.s3, a.emptying, a.fault);
  }

  lemma CreateKeepsSpec(s3: Store, s: Session, faults: C.CreateFaults)
    ensures var (s', s3', events) := CreateSession(s3, s, faults);
      && s'.bucket.spec == s.bucket.spec && IdOf(s'.bucket) == IdOf(s.bucket) && (forall e :: e in events ==> e.Claimed?)
      && forall id :: id in s3 ==> id in s3' && s3'[id] == s3[id]
  {
  }

  lemma ObserveKeepsSpec(s3: Store, s: Session, read: ReadFault)
    ensures var (s', events) := ObserveSession(s3, s, read);
      s'.bucket.spec == s.bucket.spec && IdOf(s'.bucket) == IdOf(s.bucket) && forall e :: e in events ==> e.Looked?
  {
  }

  lemma {:induction false} SparedRun(w: World, acts: seq<Action>, id: BucketId, objects: set<string>)
    requires Sound(w) && NoDeleteAll(w, id) && SparingRun(w, acts, id)
    requires objects != {} && Holding(w.s3, id, objects)
    ensures Run(w, acts) && Holding(After(w, acts).s3, id, objects)
    ensures Spared(w.log, After(w, acts).log, id)
    decreases |acts|
  {
    if acts != [] {
      StepSound(w, acts[0]);
      SparingStep(w, acts[0], id, objects);
      SparedRun(Step(w, acts[0]), acts[1..], id, objects);
    }
  }

  /** As long as no resource for this very bucket has the DeleteAll policy and
      others take nothing from it, a bucket that is not empty keeps what it has:
      whatever the resources for other buckets do, it is never emptied and no
      Delete of it succeeds. */
  lemma DeletionPolicy(w: World, first: seq<Action>, later: seq<Action>, id: BucketId, objects: set<string>)
    requires Initial(w) && Run(w, first)
    requires NoDeleteAll(After(w, first), id) && SparingRun(After(w, first), later, id)
    requires objects != {} && Holding(After(w, first).s3, id, objects)
    ensures Run(After(w, first), later)
    ensures var mid, end := After(w, first), After(After(w, first), later);
      Holding(end.s3, id, objects) && Spared(mid.log, end.log, id)
  {
    RunSound(w, first);
    SparedRun(After(w, first), later, id, objects);
  }
}

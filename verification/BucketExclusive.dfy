/** Exclusive claim: with reconciles one at a time and the hypotheses of
    `Disciplined`, no two resources ever hold the same bucket. */
module BucketExclusive {
  import opened Kube
  import opened BucketApi
  import opened S3
  import opened BucketProtocol
  import opened BucketSafety
  import C = BucketController

  // ---- hypotheses

  predicate HasLock(annotations: map<string, string>) {
    LOCK_ANNOTATION in annotations
  }

  /** Between the start of a reconcile that may claim the bucket and the first
      Observe after the claim was stored. */
  predicate Claiming(w: World, r: string) {
    r in w.sessions
    || (r in w.stored && Locked(w.stored[r].bucket) && w.stored[r].bucket.status.bucketName == "")
  }

  datatype Hypothesis =
    | LockUntouched    // users leave the lock annotation alone
    | NoRename         // and do not rename while the bucket is being claimed
    | NotRemoved       // only this provider removes these buckets
    | Serial           // one reconcile at a time
    | TruthfulRemoval  // a removal that reports a failure did not happen
    | ResultStored     // the result of a successful removal is stored
    | FinalizerGoes    // after it, removing the finalizer does not fail

  /** The witness runs show that none of these can be dropped. */
  predicate Obeys(h: Hypothesis, w: World, a: Action) {
    match h
    case LockUntouched =>
      && (a.UserCreate? ==> !HasLock(a.annotations))
      && (a.UserUpdate? && a.name in w.stored ==> (HasLock(a.annotations) <==> Locked(w.stored[a.name].bucket)))
    case NoRename =>
      a.UserUpdate? && a.name in w.stored && Claiming(w, a.name) ==>
        IdOf(w.stored[a.name].bucket.(spec := a.spec)) == IdOf(w.stored[a.name].bucket)
    case NotRemoved => !a.OutsideRemove?
    case Serial => a.Begin? ==> w.sessions == map[]
    case TruthfulRemoval => a.Delete? ==> a.fault != FailsAfter
    case ResultStored => a.Abort? && a.name in w.sessions ==> w.sessions[a.name].phase != Deleted(true)
    case FinalizerGoes => a.ReleaseFails? && a.name in w.sessions ==> !w.sessions[a.name].client.NoopClient?
  }

  predicate Disciplined(w: World, a: Action) {
    ObeysAllBut({}, w, a)
  }

  /** Every hypothesis holds for the action, except possibly those in `but`. */
  predicate ObeysAllBut(but: set<Hypothesis>, w: World, a: Action) {
    && (LockUntouched !in but ==> Obeys(LockUntouched, w, a))
    && (NoRename !in but ==> Obeys(NoRename, w, a))
    && (NotRemoved !in but ==> Obeys(NotRemoved, w, a))
    && (Serial !in but ==> Obeys(Serial, w, a))
    && (TruthfulRemoval !in but ==> Obeys(TruthfulRemoval, w, a))
    && (ResultStored !in but ==> Obeys(ResultStored, w, a))
    && (FinalizerGoes !in but ==> Obeys(FinalizerGoes, w, a))
  }

  predicate RunBut(but: set<Hypothesis>, w: World, acts: seq<Action>)
    decreases |acts|
  {
    acts == []
    || (Enabled(w, acts[0]) && ObeysAllBut(but, w, acts[0]) && RunBut(but, Step(w, acts[0]), acts[1..]))
  }

  predicate DisciplinedRun(w: World, acts: seq<Action>) {
    RunBut({}, w, acts)
  }

  // ---- invariant

  /** The resource has claimed its bucket, in memory or in store, and has not
      removed it. */
  predicate Holds(w: World, r: string) {
    && r in w.stored
    && !C.AlreadyDeleted(w.stored[r].bucket.status)
    && (Locked(w.stored[r].bucket) || (r in w.sessions && Locked(w.sessions[r].bucket)))
    && !(r in w.sessions && w.sessions[r].phase == Deleted(true))
  }

  function HeldId(w: World, r: string): BucketId
    requires r in w.stored
  {
    IdOf(w.stored[r].bucket)
  }

  /** No resource but `r` holds this bucket. */
  ghost predicate NobodyElse(w: World, r: string, id: BucketId) {
    forall q :: q != r && Holds(w, q) ==> HeldId(w, q) != id
  }

  ghost predicate SessionClaim(w: World, r: string)
    requires r in w.sessions && r in w.stored
  {
    var s, b := w.sessions[r], w.stored[r].bucket;
    && IdOf(s.bucket) == IdOf(b)
    && (Locked(b) ==> Locked(s.bucket))
    && (!s.phase.Created? ==> (Locked(s.bucket) <==> Locked(b)))
    && (s.client.NoopClient? <==> C.AlreadyDeleted(b.status))
    && (s.phase == Saw(false) && s.client.S3Client? ==> !Locked(b) && NobodyElse(w, r, IdOf(b)))
  }

  ghost predicate Exclusive(w: World) {
    && (forall q, r :: q in w.sessions && r in w.sessions ==> q == r)
    && (forall r :: r in w.sessions ==> r in w.stored && SessionClaim(w, r))
    && (forall r :: Holds(w, r) ==> Owned(w.s3, HeldId(w, r)))
    && (forall r :: Holds(w, r) ==> NobodyElse(w, r, HeldId(w, r)))
  }

  // ---- preservation

  /** The other resources hold what they held and the store kept it, resource
      `r` holds what it held or something nobody else does. */
  lemma ExclusiveFrame(w: World, w': World, r: string)
    requires Exclusive(w)
    requires forall q :: q in w'.sessions ==> q == r
    requires forall q :: q != r && Holds(w', q) ==> Holds(w, q) && HeldId(w', q) == HeldId(w, q) && Owned(w'.s3, HeldId(w, q))
    requires Holds(w', r) ==> Owned(w'.s3, HeldId(w', r)) && NobodyElse(w, r, HeldId(w', r))
    requires r in w'.sessions ==> r in w'.stored && SessionClaim(w', r)
    ensures Exclusive(w')
  {
  }

  /** Steps of others: the store changes, but no bucket of ours goes. */
  lemma StoreChange(w: World, w': World)
    requires Exclusive(w) && w' == w.(s3 := w'.s3)
    requires forall id :: Owned(w.s3, id) ==> Owned(w'.s3, id)
    ensures Exclusive(w')
  {
    forall r | Holds(w', r) ensures Owned(w'.s3, HeldId(w', r)) && NobodyElse(w', r, HeldId(w', r)) {
      assert Holds(w, r);
      assert forall q :: Holds(w', q) ==> Holds(w, q);
    }
    forall r | r in w'.sessions ensures SessionClaim(w', r) {
      assert SessionClaim(w, r);
      assert forall q :: Holds(w', q) ==> Holds(w, q);
    }
  }

  /** A write to resource `r` that keeps its bucket if it may matter. */
  lemma WriteExclusive(w: World, r: string, b: BucketObject)
    requires Exclusive(w) && (r in w.sessions ==> r in w.stored)
    requires r in w.stored ==> (Locked(b) ==> Locked(w.stored[r].bucket))
    requires r !in w.stored ==> !Locked(b)
    requires Holds(w, r) || r in w.sessions ==> IdOf(b) == HeldId(w, r)
    requires r in w.sessions ==> (Locked(b) <==> Locked(w.stored[r].bucket))
    requires r in w.stored && (Locked(b) || r in w.sessions) ==> b.status == w.stored[r].bucket.status
    ensures Exclusive(Write(w, r, b))
  {
    var w' := Write(w, r, b);
    assert Holds(w', r) ==> Holds(w, r);
    forall q | Holds(w', q) ensures Holds(w, q) && HeldId(w', q) == HeldId(w, q) {}
    forall q | q in w'.sessions ensures SessionClaim(w', q) {
      assert SessionClaim(w, q);
    }
  }

  lemma UserStepExclusive(w: World, a: Action)
    requires Sound(w) && Exclusive(w) && Enabled(w, a) && Disciplined(w, a)
    requires a.UserCreate? || a.UserUpdate? || a.UserDelete?
    ensures Exclusive(Step(w, a))
  {
    var b := Step(w, a).stored[a.name].bucket;
    if a.UserUpdate? && Holds(w, a.name) {
      assert IdOf(b) == HeldId(w, a.name);
    }
    WriteExclusive(w, a.name, b);
  }

  /** A step of the session of `r` that leaves everything stored alone. */
  lemma SessionExclusive(w: World, w': World, r: string)
    requires Exclusive(w) && r in w.stored && r in w'.sessions
    requires w'.stored == w.stored && w'.sessions == w.sessions[r := w'.sessions[r]]
    requires r in w.sessions || w.sessions == map[]
    requires forall id :: Owned(w.s3, id) && !(Holds(w, r) && id == HeldId(w, r)) ==> Owned(w'.s3, id)
    requires Holds(w', r) ==> Owned(w'.s3, HeldId(w, r)) && NobodyElse(w, r, HeldId(w, r))
    requires SessionClaim(w', r)
    ensures Exclusive(w')
  {
    forall q | q != r && Holds(w', q)
      ensures Holds(w, q) && HeldId(w', q) == HeldId(w, q) && Owned(w'.s3, HeldId(w, q))
    {
      assert Holds(w, q);
      assert NobodyElse(w, q, HeldId(w, q));
    }
    ExclusiveFrame(w, w', r);
  }

  /** What another resource holds does not depend on the session of `r`. */
  lemma NobodyElseSame(w: World, w': World, r: string, id: BucketId)
    requires NobodyElse(w, r, id)
    requires forall q :: q != r && Holds(w', q) ==> Holds(w, q) && HeldId(w', q) == HeldId(w, q)
    ensures NobodyElse(w', r, id)
  {
  }

  lemma BeginExclusive(w: World, a: Action)
    requires Exclusive(w) && Enabled(w, a) && Disciplined(w, a) && a.Begin?
    ensures Exclusive(Step(w, a))
  {
    SessionExclusive(w, Step(w, a), a.name);
  }

  lemma ObserveExclusive(w: World, a: Action)
    requires Sound(w) && Exclusive(w) && Enabled(w, a) && a.Observe?
    ensures Exclusive(Step(w, a))
  {
    var r, w' := a.name, Step(w, a);
    var s, s' := w.sessions[r], w'.sessions[r];
    ObservedSession(w.s3, s, w.log, w.clock, a.read);
    assert SessionClaim(w, r);
    if s'.phase == Saw(false) && s'.client.S3Client? {
      // the bucket is absent, so nobody holds it
      assert s.client.endpoint == GetEndpoint(s.bucket);
      assert !Owned(w.s3, IdOf(s.bucket));
      NobodyElseSame(w, w', r, IdOf(s.bucket));
    }
    SessionExclusive(w, w', r);
  }

  lemma CreateExclusive(w: World, a: Action)
    requires Sound(w) && Exclusive(w) && Enabled(w, a) && a.Create?
    ensures Exclusive(Step(w, a))
  {
    var r, w' := a.name, Step(w, a);
    var s := w.sessions[r];
    assert SessionClaim(w, r);
    if s.client.S3Client? {
      C.CreateClaims(s.bucket, s.client.endpoint, w.s3, a.faults);
    }
    SessionExclusive(w, w', r);
  }

  lemma DeleteExclusive(w: World, a: Action)
    requires Sound(w) && Exclusive(w) && Enabled(w, a) && Disciplined(w, a) && a.Delete?
    ensures Exclusive(Step(w, a))
  {
    var r, w' := a.name, Step(w, a);
    var s := w.sessions[r];
    assert SessionClaim(w, r);
    assert Holds(w, r) && HeldId(w, r) == BucketId(s.client.endpoint, s.bucket.status.bucketName);
    C.DeleteReach(s.bucket, s.client.endpoint, w.s3, a.emptying, a.fault);
    SessionExclusive(w, w', r);
  }

  /** A session ends with a write that leaves resource `r` no more than it had. */
  lemma EndWithWrite(w: World, r: string, b: BucketObject)
    requires Exclusive(w) && r in w.sessions && r in w.stored
    requires IdOf(b) == HeldId(w, r)
    requires Locked(b) && !C.AlreadyDeleted(b.status) ==> Holds(w, r)
    ensures Exclusive(EndSession(Write(w, r, b), r))
  {
    var w' := EndSession(Write(w, r, b), r);
    forall q | Holds(w', q) ensures Holds(w, q) && HeldId(w', q) == HeldId(w, q) {}
    ExclusiveFrame(w, w', r);
  }

  lemma PersistExclusive(w: World, a: Action)
    requires Sound(w) && Exclusive(w) && Enabled(w, a)
    requires a.PersistStatus? || a.PersistAnnotations?
    ensures Exclusive(Step(w, a))
  {
    var r := a.name;
    var s, b := w.sessions[r], w.stored[r].bucket;
    assert SessionClaim(w, r);
    if a.PersistStatus? {
      FinalStatusDeleted(s, w.log);
      EndWithWrite(w, r, b.(status := FinalStatus(s)));
    } else {
      EndWithWrite(w, r, b.(annotations := b.annotations + s.bucket.annotations));
    }
  }

  lemma ReleaseFailsExclusive(w: World, a: Action)
    requires Exclusive(w) && Enabled(w, a) && Disciplined(w, a) && a.ReleaseFails?
    requires PhaseOk(w.sessions[a.name], w.log)
    ensures Exclusive(Step(w, a))
  {
    var r := a.name;
    var s, b := w.sessions[r], w.stored[r].bucket;
    assert SessionClaim(w, r);
    EndWithWrite(w, r, b.(status := C.Concluded(s.bucket.status, Some(DELETING), RECONCILE_ERROR)));
  }

  /** A session ends, or a resource goes, and nothing else changes. */
  lemma LessExclusive(w: World, w': World, r: string)
    requires Exclusive(w) && w'.s3 == w.s3 && w'.sessions == w.sessions - {r}
    requires w'.stored == w.stored || w'.stored == w.stored - {r}
    requires r in w.sessions ==> w.sessions[r].phase != Deleted(true) || w'.stored == w.stored - {r}
    ensures Exclusive(w')
  {
    forall q | Holds(w', q) ensures Holds(w, q) && HeldId(w', q) == HeldId(w, q) {}
    forall q | q in w'.sessions ensures SessionClaim(w', q) {
      assert SessionClaim(w, q);
    }
  }

  lemma OthersExclusive(w: World, a: Action)
    requires Exclusive(w) && Enabled(w, a) && Disciplined(w, a)
    requires a.PutObjects? || a.OutsideMake? || a.OutsideRemove? || a.ForeignMake? || a.ForeignRemove?
    ensures Exclusive(Step(w, a))
  {
    if !a.OutsideRemove? {
      StoreChange(w, Step(w, a));
    }
  }

  lemma EndExclusive(w: World, a: Action)
    requires Exclusive(w) && Enabled(w, a) && Disciplined(w, a)
    requires a.Release? || a.ReleaseOrphan? || a.Abort?
    ensures Exclusive(Step(w, a))
  {
    if a.ReleaseOrphan? {
      assert w.sessions - {a.name} == w.sessions;
    }
    LessExclusive(w, Step(w, a), a.name);
  }

  lemma StepExclusive(w: World, a: Action)
    requires Sound(w) && Exclusive(w) && Enabled(w, a) && Disciplined(w, a)
    ensures Exclusive(Step(w, a))
  {
    if a.UserCreate? || a.UserUpdate? || a.UserDelete? {
      UserStepExclusive(w, a);
    } else if a.Begin? {
      BeginExclusive(w, a);
    } else if a.Observe? {
      ObserveExclusive(w, a);
    } else if a.Create? {
      CreateExclusive(w, a);
    } else if a.Delete? {
      DeleteExclusive(w, a);
    } else if a.PersistStatus? || a.PersistAnnotations? {
      PersistExclusive(w, a);
    } else if a.ReleaseFails? {
      ReleaseFailsExclusive(w, a);
    } else if a.Release? || a.ReleaseOrphan? || a.Abort? {
      EndExclusive(w, a);
    } else {
      OthersExclusive(w, a);
    }
  }

  lemma {:induction false} RunExclusive(w: World, acts: seq<Action>)
    requires Sound(w) && Exclusive(w) && DisciplinedRun(w, acts)
    ensures Run(w, acts) && Sound(After(w, acts)) && Exclusive(After(w, acts))
    decreases |acts|
  {
    if acts != [] {
      StepSound(w, acts[0]);
      StepExclusive(w, acts[0]);
      RunExclusive(Step(w, acts[0]), acts[1..]);
    }
  }

  // ---- main results

  /** In every disciplined run, the bucket of a resource that holds one exists,
      and two resources never hold the same bucket. This includes resources that
      are being deleted, until their bucket is removed. */
  lemma ExclusiveClaim(w: World, acts: seq<Action>, q: string, r: string)
    requires Initial(w) && DisciplinedRun(w, acts)
    ensures Run(w, acts)
    ensures var w' := After(w, acts);
      && (Holds(w', r) ==> Owned(w'.s3, HeldId(w', r)))
      && (Holds(w', q) && Holds(w', r) && q != r ==> HeldId(w', q) != HeldId(w', r))
  {
    RunExclusive(w, acts);
    assert Holds(After(w, acts), r) ==> NobodyElse(After(w, acts), r, HeldId(After(w, acts), r));
  }

  /** In every disciplined run, deleting one resource leaves the bucket that
      another resource holds, and all its objects, as they are. */
  lemma NeverAnothersBucket(w: World, acts: seq<Action>, a: Action, q: string)
    requires Initial(w) && DisciplinedRun(w, acts)
    requires Run(w, acts) && a.Delete? && Enabled(After(w, acts), a) && Disciplined(After(w, acts), a)
    requires q != a.name && Holds(After(w, acts), q)
    ensures var before, after, id := After(w, acts), Step(After(w, acts), a), HeldId(After(w, acts), q);
      Owned(before.s3, id) && id in after.s3 && after.s3[id] == before.s3[id]
  {
    RunExclusive(w, acts);
    var w' := After(w, acts);
    var s := w'.sessions[a.name];
    assert SessionClaim(w', a.name);
    assert Holds(w', a.name);
    assert NobodyElse(w', a.name, HeldId(w', a.name));
    C.DeleteReach(s.bucket, s.client.endpoint, w'.s3, a.emptying, a.fault);
  }
}

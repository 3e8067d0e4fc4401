/** When a bucket that was made for a resource stays claimed by it. Claiming is
    two writes, one to the object store and one to the cluster: the lock is lost
    exactly if something comes between them or takes it away again, and a bucket
    is made without a claim exactly if the first write is not confirmed. */
module BucketClaims {
  import opened Kube
  import opened BucketApi
  import opened S3
  import opened BucketProtocol
  import opened BucketSafety
  import C = BucketController
  import T = BucketTheorems

  // ---- a claim stays

  /** The reconcile of `r` set the lock, but did not store it yet. */
  predicate AboutToStore(w: World, r: string) {
    r in w.sessions && w.sessions[r].phase == Created(true) && Locked(w.sessions[r].bucket)
  }

  predicate Kept(w: World, r: string) {
    r in w.stored && (Locked(w.stored[r].bucket) || AboutToStore(w, r))
  }

  /** A crash before the lock is stored, or a user who takes it away. */
  predicate LosesLock(w: World, a: Action, r: string) {
    || (a == Abort(r) && AboutToStore(w, r) && r in w.stored && !Locked(w.stored[r].bucket))
    || (a.UserUpdate? && a.name == r && LOCK_ANNOTATION !in a.annotations && !AboutToStore(w, r))
  }

  /** The steps after which a resource lives on without the lock it had are
      exactly those that lose it. */
  lemma LockLost(w: World, a: Action, r: string)
    requires Enabled(w, a) && Kept(w, r)
    ensures r in Step(w, a).stored && !Kept(Step(w, a), r) <==> LosesLock(w, a, r)
  {
    if a.UserUpdate? || a.Abort? {
      LockTaken(w, a, r);
    } else {
      LockNotTaken(w, a, r);
    }
  }

  lemma LockTaken(w: World, a: Action, r: string)
    requires Enabled(w, a) && Kept(w, r) && (a.UserUpdate? || a.Abort?)
    ensures r in Step(w, a).stored && !Kept(Step(w, a), r) <==> LosesLock(w, a, r)
  {
  }

  lemma LockNotTaken(w: World, a: Action, r: string)
    requires Enabled(w, a) && Kept(w, r) && !a.UserUpdate? && !a.Abort?
    ensures r in Step(w, a).stored ==> Kept(Step(w, a), r)
  {
    if a.PersistAnnotations? {
      LockStored(w, a, r);
    } else if a.PersistStatus? || a.ReleaseFails? {
      LockNotWritten(w, a, r);
    } else if a.Begin? || a.Observe? || a.Create? || a.Delete? {
      LockInSession(w, a, r);
    } else {
      LockStays(w, a, r);
    }
  }

  lemma LockStored(w: World, a: Action, r: string)
    requires Enabled(w, a) && Kept(w, r) && a.PersistAnnotations?
    ensures Kept(Step(w, a), r)
  {
  }

  lemma LockNotWritten(w: World, a: Action, r: string)
    requires Enabled(w, a) && Kept(w, r) && (a.PersistStatus? || a.ReleaseFails?)
    ensures Kept(Step(w, a), r)
  {
  }

  lemma LockInSession(w: World, a: Action, r: string)
    requires Enabled(w, a) && Kept(w, r) && (a.Begin? || a.Observe? || a.Create? || a.Delete?)
    ensures Kept(Step(w, a), r)
  {
    assert Step(w, a).stored == w.stored;
    if a.name != r {
      assert r in w.sessions ==> Step(w, a).sessions[r] == w.sessions[r];
    }
  }

  lemma LockStays(w: World, a: Action, r: string)
    requires Enabled(w, a) && Kept(w, r)
    requires !a.UserUpdate? && !a.Abort? && !a.PersistAnnotations? && !a.PersistStatus? && !a.ReleaseFails?
    requires !a.Begin? && !a.Observe? && !a.Create? && !a.Delete?
    ensures r in Step(w, a).stored ==> Kept(Step(w, a), r)
  {
  }

  predicate KeepingRun(w: World, acts: seq<Action>, r: string)
    decreases |acts|
  {
    acts == []
    || (Enabled(w, acts[0]) && !(Kept(w, r) && LosesLock(w, acts[0], r)) && KeepingRun(Step(w, acts[0]), acts[1..], r))
  }

  /** If this version of `r` ever claimed a bucket, it has its lock. */
  ghost predicate ClaimKept(w: World, r: string) {
    r in w.stored ==>
      forall e :: e in w.log && e.Claimed? && e.uid == w.stored[r].bucket.uid ==> Kept(w, r)
  }

  lemma ClaimStep(w: World, a: Action, r: string)
    requires Sound(w) && ClaimKept(w, r) && Enabled(w, a) && !(Kept(w, r) && LosesLock(w, a, r))
    ensures ClaimKept(Step(w, a), r)
  {
    var w' := Step(w, a);
    if r in w'.stored {
      forall e | e in w'.log && e.Claimed? && e.uid == w'.stored[r].bucket.uid ensures Kept(w', r) {
        if e in w.log {
          OldClaim(w, a, r, e);
          LockLost(w, a, r);
        } else {
          NewClaim(w, a, r, e);
        }
      }
    }
  }

  lemma OldClaim(w: World, a: Action, r: string, e: Event)
    requires Sound(w) && Enabled(w, a) && e in w.log
    requires r in Step(w, a).stored && e.uid == Step(w, a).stored[r].bucket.uid
    ensures r in w.stored && w.stored[r].bucket.uid == e.uid
  {
  }

  lemma NewClaim(w: World, a: Action, r: string, e: Event)
    requires Sound(w) && Enabled(w, a) && e in Step(w, a).log && e !in w.log && e.Claimed?
    requires r in Step(w, a).stored && e.uid == Step(w, a).stored[r].bucket.uid
    ensures AboutToStore(Step(w, a), r)
  {
    if a.Create? {
      assert Agrees(w.sessions[a.name], w.stored[a.name]);
      assert a.name == r;
    } else {
      NoClaim(w, a, e);
    }
  }

  lemma NoClaim(w: World, a: Action, e: Event)
    requires Enabled(w, a) && !a.Create? && e in Step(w, a).log && e.Claimed?
    ensures e in w.log
  {
  }

  lemma {:induction false} KeptRun(w: World, acts: seq<Action>, r: string)
    requires Sound(w) && ClaimKept(w, r) && KeepingRun(w, acts, r)
    ensures Run(w, acts) && ClaimKept(After(w, acts), r)
    decreases |acts|
  {
    if acts != [] {
      StepSound(w, acts[0]);
      ClaimStep(w, acts[0], r);
      KeptRun(Step(w, acts[0]), acts[1..], r);
    }
  }

  /** As long as no crash comes between a successful Create of `r` and the write
      of its lock, and no user takes the lock away: once `r` claimed a bucket,
      the lock is in store, or the reconcile that claimed is about to store it,
      so `r` does not refuse its own bucket. */
  lemma ClaimStays(w: World, acts: seq<Action>, r: string, e: Event)
    requires Initial(w) && KeepingRun(w, acts, r)
    ensures Run(w, acts)
    ensures var w' := After(w, acts);
      r in w'.stored && e in w'.log && e.Claimed? && e.uid == w'.stored[r].bucket.uid ==>
        Kept(w', r) && !T.Refused(w', r)
  {
    KeptRun(w, acts, r);
  }

  // ---- a bucket that is made is claimed

  /** A call that makes bucket `id` and does not claim it: the reply to
      MakeBucket is lost, and so is the answer of the check. */
  predicate LosesReply(w: World, a: Action, id: BucketId) {
    && a.Create? && a.name in w.sessions
    && var s := w.sessions[a.name];
    && s.client.S3Client? && BucketId(s.client.endpoint, GetBucketName(s.bucket)) == id && id !in w.s3
    && a.faults.make == FailsAfter && a.faults.check.Fails?
  }

  ghost predicate EverClaimed(log: seq<Event>, id: BucketId) {
    exists e :: e in log && e.Claimed? && e.id == id
  }

  /** The steps that give us a bucket which they do not claim are exactly those
      of others, and those that lose the reply. */
  lemma MadeUnclaimed(w: World, a: Action, id: BucketId)
    requires Enabled(w, a) && !Owned(w.s3, id)
    ensures w.log <= Step(w, a).log
    ensures Owned(Step(w, a).s3, id) && !EverClaimed(Step(w, a).log[|w.log|..], id)
       <==> a == OutsideMake(id) || LosesReply(w, a, id)
  {
    LogGrows(w, a);
    if a.Create? {
      CreateMakes(w, a, id);
    } else if a.Delete? {
      DeleteMakesNone(w, a, id);
    }
  }

  lemma CreateMakes(w: World, a: Action, id: BucketId)
    requires Enabled(w, a) && a.Create? && !Owned(w.s3, id)
    ensures w.log <= Step(w, a).log
    ensures Owned(Step(w, a).s3, id) && !EverClaimed(Step(w, a).log[|w.log|..], id) <==> LosesReply(w, a, id)
  {
    var s := w.sessions[a.name];
    var (_, _, events) := CreateSession(w.s3, s, a.faults);
    assert Step(w, a).log[|w.log|..] == events;
    if s.client.S3Client? {
      C.CreateClaims(s.bucket, s.client.endpoint, w.s3, a.faults);
      C.CreateStrands(s.bucket, s.client.endpoint, w.s3, a.faults);
      if events != [] {
        assert events[0] in events;
      }
    }
  }

  lemma DeleteMakesNone(w: World, a: Action, id: BucketId)
    requires Enabled(w, a) && a.Delete? && !Owned(w.s3, id)
    ensures !Owned(Step(w, a).s3, id)
  {
    var s := w.sessions[a.name];
    if s.client.S3Client? {
      C.DeleteReach(s.bucket, s.client.endpoint, w.s3, a.emptying, a.fault);
    }
  }

  lemma LogGrows(w: World, a: Action)
    requires Enabled(w, a)
    ensures w.log <= Step(w, a).log
  {
  }

  predicate ConfirmedRun(w: World, acts: seq<Action>, id: BucketId)
    decreases |acts|
  {
    acts == []
    || (Enabled(w, acts[0]) && acts[0] != OutsideMake(id) && !LosesReply(w, acts[0], id)
        && ConfirmedRun(Step(w, acts[0]), acts[1..], id))
  }

  lemma {:induction false} ClaimedRun(w: World, acts: seq<Action>, id: BucketId)
    requires ConfirmedRun(w, acts, id) && (Owned(w.s3, id) ==> EverClaimed(w.log, id))
    ensures Run(w, acts) && (Owned(After(w, acts).s3, id) ==> EverClaimed(After(w, acts).log, id))
    decreases |acts|
  {
    if acts != [] {
      var w' := Step(w, acts[0]);
      LogGrows(w, acts[0]);
      if Owned(w.s3, id) {
        var e :| e in w.log && e.Claimed? && e.id == id;
        assert e in w'.log;
      } else {
        MadeUnclaimed(w, acts[0], id);
      }
      ClaimedRun(w', acts[1..], id);
    }
  }

  /** As long as nobody else makes bucket `id` with our account, and no reply to
      the making of it is lost without being confirmed: if it was not there at
      the start, it is there only because some resource claimed it. */
  lemma MadeIsClaimed(w: World, acts: seq<Action>, id: BucketId)
    requires Initial(w) && !Owned(w.s3, id) && ConfirmedRun(w, acts, id)
    ensures Run(w, acts) && (Owned(After(w, acts).s3, id) ==> EverClaimed(After(w, acts).log, id))
  {
    ClaimedRun(w, acts, id);
  }
}

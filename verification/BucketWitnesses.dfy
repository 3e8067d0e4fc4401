/** Runs that show why each hypothesis of the exclusive claim is there: each
    obeys all hypotheses but one and ends with the claim broken. Two more runs
    obey them all and still strand a bucket. */
module BucketWitnesses {
  import opened Kube
  import opened BucketApi
  import opened S3
  import opened BucketProtocol
  import opened BucketExclusive
  import opened BucketTraces
  import C = BucketController
  import Drain
  import T = BucketTheorems

  const EMPTY := World(map[], map[], map[], [], 0)

  const NOTHING := C.Emptying([], [Drain.CloseObjects, Drain.CloseReports, Drain.Return])

  /** Resource `q` holds a bucket that is gone, or that `r` holds as well. */
  predicate Broken(w: World, q: string, r: string) {
    Holds(w, q) && (!Owned(w.s3, HeldId(w, q)) || (q != r && Holds(w, r) && HeldId(w, r) == HeldId(w, q)))
  }

  lemma NothingIsComplete()
    ensures C.Complete(NOTHING)
  {
  }

  function SpecFor(name: string): BucketSpec {
    BucketSpec(name, "region", DeleteIfEmpty, false)
  }

  // ---- building blocks

  /** A resource is created for the bucket `name`. */
  lemma NewResource(but: set<Hypothesis>, t: Trace, r: string, name: string) returns (t': Trace)
    requires Ok(but, t) && r != "" && r !in t.world.stored
    ensures Ok(but, t') && t'.start == t.start
    ensures r in t'.world.stored && t'.world.stored == t.world.stored[r := t'.world.stored[r]]
    ensures t'.world.stored[r].bucket == BucketObject(r, t'.world.stored[r].bucket.uid, map[], false, SpecFor(name), NO_STATUS)
    ensures t'.world.sessions == t.world.sessions && t'.world.s3 == t.world.s3
  {
    t' := Then(but, t, UserCreate(r, map[], SpecFor(name)));
  }

  /** A deleted resource finds its empty bucket and removes it. */
  lemma RemoveEmpty(but: set<Hypothesis>, t: Trace, r: string, fault: CallFault) returns (t': Trace)
    requires Ok(but, t) && t.world.sessions == map[] && r in t.world.stored
    requires var b := t.world.stored[r].bucket;
      && b.deleting && Locked(b) && !C.AlreadyDeleted(b.status) && b.spec == SpecFor("x")
      && IdOf(b) in t.world.s3 && t.world.s3[IdOf(b)] == Ours({})
    requires fault != FailsBefore && (TruthfulRemoval !in but ==> fault == Works)
    ensures Ok(but, t') && t'.start == t.start && t'.world.stored == t.world.stored
    ensures t'.world.sessions.Keys == {r} && Fresh(t'.world, r)
    ensures t'.world.sessions[r].phase == Deleted(fault == Works)
    ensures t'.world.s3 == t.world.s3 - {IdOf(t.world.stored[r].bucket)}
  {
    NothingIsComplete();
    t' := Remove(but, t, r, NOTHING, fault);
  }

  /** And stores the result. */
  lemma StoreResult(but: set<Hypothesis>, t: Trace, r: string) returns (t': Trace)
    requires Ok(but, t) && t.world.sessions.Keys == {r} && Fresh(t.world, r) && t.world.sessions[r].phase.Deleted?
    ensures Ok(but, t') && t'.start == t.start && t'.world.sessions == map[] && t'.world.s3 == t.world.s3
    ensures r in t'.world.stored && t'.world.stored == t.world.stored[r := t'.world.stored[r]]
    ensures var b, b' := t.world.stored[r].bucket, t'.world.stored[r].bucket;
      b' == b.(status := b'.status) && (C.AlreadyDeleted(b'.status) <==> t.world.sessions[r].phase == Deleted(true))
  {
    t' := Conclude(but, t, r);
    assert t'.world.sessions == map[];
  }

  /** The finalizer of a resource whose bucket is gone cannot be removed. */
  lemma FailToRelease(but: set<Hypothesis>, t: Trace, r: string) returns (t': Trace)
    requires Ok(but, t) && t.world.sessions == map[] && r in t.world.stored && FinalizerGoes in but
    requires var b := t.world.stored[r].bucket; C.AlreadyDeleted(b.status) && b.deleting && !b.spec.orphan
    ensures Ok(but, t') && t'.start == t.start && t'.world.sessions == map[] && t'.world.s3 == t.world.s3
    ensures r in t'.world.stored && t'.world.stored == t.world.stored[r := t'.world.stored[r]]
    ensures var b, b' := t.world.stored[r].bucket, t'.world.stored[r].bucket;
      b' == b.(status := b'.status) && !C.AlreadyDeleted(b'.status)
  {
    var b := t.world.stored[r].bucket;
    t' := StartNoop(but, t, r);
    t' := LookNoop(but, t', r);
    C.ConcludedDeleted(b.status, Some(DELETING), RECONCILE_ERROR);
    t' := Then(but, t', ReleaseFails(r));
    assert t'.world.sessions == map[];
  }

  /** From a live claim of `a` to a state where the bucket is gone while `a`
      would still delete it: then `b` claims the name and loses its bucket. */
  lemma Steal(but: set<Hypothesis>, t: Trace, a: string, b: string) returns (t': Trace)
    requires Ok(but, t) && t.world.sessions == map[] && b != "" && a in t.world.stored && b !in t.world.stored
    requires var o := t.world.stored[a].bucket;
      && o.deleting && Locked(o) && !C.AlreadyDeleted(o.status) && o.spec == SpecFor("x")
      && IdOf(o) !in t.world.s3
    ensures Ok(but, t') && t'.start == t.start && Broken(t'.world, b, a)
  {
    var t1 := NewResource(but, t, b, "x");
    var t2 := Claim(but, t1, b);
    t' := RemoveEmpty(but, t2, a, Works);
    assert Holds(t'.world, b);
  }

  /** Resource `a` claimed bucket "x". */
  lemma Claimed(but: set<Hypothesis>, a: string) returns (t: Trace)
    requires a != ""
    ensures Ok(but, t) && t.start == EMPTY && t.world.sessions == map[] && t.world.stored.Keys == {a}
    ensures var o := t.world.stored[a].bucket;
      && Locked(o) && !o.deleting && o.spec == SpecFor("x") && o.status == NO_STATUS && o.name == a
      && t.world.s3 == map[IdOf(o) := Ours({})]
  {
    var t0 := From(EMPTY);
    var t1 := NewResource(but, t0, a, "x");
    t := Claim(but, t1, a);
  }

  /** Resource `a` claimed bucket "x", and then a user deleted the resource. */
  lemma ClaimedAndDeleted(but: set<Hypothesis>, a: string) returns (t: Trace)
    requires a != ""
    ensures Ok(but, t) && t.start == EMPTY && t.world.sessions == map[] && t.world.stored.Keys == {a}
    ensures var o := t.world.stored[a].bucket;
      && Locked(o) && o.deleting && o.spec == SpecFor("x") && o.status == NO_STATUS && o.name == a
      && t.world.s3 == map[IdOf(o) := Ours({})]
  {
    t := Claimed(but, a);
    t := Then(but, t, UserDelete(a));
  }

  // ---- the witnesses

  lemma BothAbsent(a: string, b: string) returns (t: Trace)
    requires a != "" && b != "" && a != b
    ensures Ok({Serial}, t) && t.start == EMPTY && t.world.s3 == map[]
    ensures InPhase(t.world, a, Saw(false)) && InPhase(t.world, b, Saw(false))
    ensures forall r :: r in {a, b} ==>
      && var s, o := t.world.sessions[r], t.world.stored[r].bucket;
      && s.bucket.annotations == o.annotations && s.bucket.spec == o.spec == SpecFor("x") && o.status == NO_STATUS
      && !s.bucket.deleting && !o.deleting && s.client == C.S3Client(GetEndpoint(o))
  {
    var but := {Serial};
    t := NewResource(but, From(EMPTY), a, "x");
    t := NewResource(but, t, b, "x");
    t := StartOf(but, t, a);
    t := StartOf(but, t, b);
    t := Look(but, t, a);
    t := Look(but, t, b);
  }

  /** Two reconciles that observe before either creates both take the lock. */
  lemma SerialIsNeeded(a: string, b: string) returns (acts: seq<Action>)
    requires a != "" && b != "" && a != b
    ensures RunBut({Serial}, EMPTY, acts) && Run(EMPTY, acts) && Broken(After(EMPTY, acts), a, b)
  {
    var t := BothAbsent(a, b);
    t := Make({Serial}, t, a);
    t := Make({Serial}, t, b);
    t := StoreLock({Serial}, t, a);
    t := StoreLock({Serial}, t, b);
    assert Holds(t.world, a) && Holds(t.world, b);
    acts := t.acts;
  }

  lemma LockUntouchedIsNeeded(a: string, b: string) returns (acts: seq<Action>)
    requires a != "" && b != "" && a != b
    ensures RunBut({LockUntouched}, EMPTY, acts) && Run(EMPTY, acts) && Broken(After(EMPTY, acts), a, b)
  {
    var t := Claimed({LockUntouched}, a);
    t := Then({LockUntouched}, t, UserCreate(b, map[LOCK_ANNOTATION := "claimed"], SpecFor("x")));
    assert Holds(t.world, a) && Holds(t.world, b);
    acts := t.acts;
  }

  lemma NotRemovedIsNeeded(a: string) returns (acts: seq<Action>)
    requires a != ""
    ensures RunBut({NotRemoved}, EMPTY, acts) && Run(EMPTY, acts) && Broken(After(EMPTY, acts), a, a)
  {
    var t := Claimed({NotRemoved}, a);
    t := Then({NotRemoved}, t, OutsideRemove(IdOf(t.world.stored[a].bucket)));
    acts := t.acts;
  }

  /** The webhook admits a rename between the claim and the next Observe. */
  lemma NoRenameIsNeeded(a: string) returns (acts: seq<Action>)
    requires a != ""
    ensures RunBut({NoRename}, EMPTY, acts) && Run(EMPTY, acts) && Broken(After(EMPTY, acts), a, a)
  {
    var t := Claimed({NoRename}, a);
    var b := t.world.stored[a].bucket;
    var renamed := b.(spec := SpecFor("another"));
    assert |GetBucketName(renamed)| == 7 && |GetBucketName(b)| == 1;
    assert IdOf(renamed) != IdOf(b);
    t := Then({NoRename}, t, UserUpdate(a, b.annotations, SpecFor("another")));
    acts := t.acts;
  }

  /** So it does while the reconcile that claims the bucket is going on. */
  lemma NoRenameInFlightIsNeeded(a: string) returns (acts: seq<Action>)
    requires a != ""
    ensures RunBut({NoRename}, EMPTY, acts) && Run(EMPTY, acts) && Broken(After(EMPTY, acts), a, a)
  {
    var but := {NoRename};
    var t := NewResource(but, From(EMPTY), a, "x");
    t := StartOf(but, t, a);
    t := Look(but, t, a);
    t := Make(but, t, a);
    var b := t.world.stored[a].bucket;
    var renamed := b.(spec := SpecFor("another"));
    assert |GetBucketName(renamed)| == 7 && |GetBucketName(b)| == 1;
    assert IdOf(renamed) != IdOf(b);
    t := Rename(but, t, a, "another");
    t := StoreLock(but, t, a);
    assert Holds(t.world, a);
    acts := t.acts;
  }

  lemma Rename(but: set<Hypothesis>, t: Trace, r: string, name: string) returns (t': Trace)
    requires Ok(but, t) && NoRename in but && r in t.world.stored && t.world.stored[r].bucket.status == NO_STATUS
    ensures Ok(but, t') && t'.start == t.start && t'.world.sessions == t.world.sessions && t'.world.s3 == t.world.s3
    ensures r in t'.world.stored && t'.world.stored[r].bucket == t.world.stored[r].bucket.(spec := SpecFor(name))
  {
    t' := Then(but, t, UserUpdate(r, t.world.stored[r].bucket.annotations, SpecFor(name)));
  }

  /** A crash between removing the bucket and storing that it is removed. */
  lemma ResultStoredIsNeeded(a: string, b: string) returns (acts: seq<Action>)
    requires a != "" && b != "" && a != b
    ensures RunBut({ResultStored}, EMPTY, acts) && Run(EMPTY, acts) && Broken(After(EMPTY, acts), b, a)
  {
    var but := {ResultStored};
    var t := ClaimedAndDeleted(but, a);
    t := RemoveEmpty(but, t, a, Works);
    t := Then(but, t, Abort(a));
    assert t.world.sessions == map[];
    t := Steal(but, t, a, b);
    acts := t.acts;
  }

  /** RemoveBucket removes the bucket, but its reply is lost. */
  lemma TruthfulRemovalIsNeeded(a: string, b: string) returns (acts: seq<Action>)
    requires a != "" && b != "" && a != b
    ensures RunBut({TruthfulRemoval}, EMPTY, acts) && Run(EMPTY, acts) && Broken(After(EMPTY, acts), b, a)
  {
    var but := {TruthfulRemoval};
    var t := ClaimedAndDeleted(but, a);
    t := RemoveEmpty(but, t, a, FailsAfter);
    t := StoreResult(but, t, a);
    t := Steal(but, t, a, b);
    acts := t.acts;
  }

  /** After a failed removal of the finalizer the four criteria no longer
      hold, and the resource deletes its bucket again. */
  lemma FinalizerGoesIsNeeded(a: string, b: string) returns (acts: seq<Action>)
    requires a != "" && b != "" && a != b
    ensures RunBut({FinalizerGoes}, EMPTY, acts) && Run(EMPTY, acts) && Broken(After(EMPTY, acts), b, a)
  {
    var but := {FinalizerGoes};
    var t := ClaimedAndDeleted(but, a);
    t := RemoveEmpty(but, t, a, Works);
    t := StoreResult(but, t, a);
    t := FailToRelease(but, t, a);
    t := Steal(but, t, a, b);
    acts := t.acts;
  }

  // ---- stranded buckets

  /** The bucket of `r` was made for it just now, and `r` refuses it. */
  predicate Stranded(w: World, r: string) {
    T.Refused(w, r) && r !in w.sessions && w.s3.Keys == {IdOf(w.stored[r].bucket)}
  }

  lemma AboutToMake(a: string) returns (t: Trace)
    requires a != ""
    ensures Ok({}, t) && t.start == EMPTY && t.world.s3 == map[] && InPhase(t.world, a, Saw(false))
    ensures var s, o := t.world.sessions[a], t.world.stored[a].bucket;
      && o.spec == SpecFor("x") && o.annotations == map[] && o.status == NO_STATUS && !s.bucket.deleting
      && IdOf(s.bucket) == IdOf(o) && s.client == C.S3Client(GetEndpoint(s.bucket))
  {
    t := NewResource({}, From(EMPTY), a, "x");
    t := StartOf({}, t, a);
    t := Look({}, t, a);
  }

  lemma GiveUp(t: Trace, r: string) returns (t': Trace)
    requires Ok({}, t) && r in t.world.sessions && t.world.sessions[r].phase.Created?
    ensures Ok({}, t') && t'.start == t.start && t'.world == t.world.(sessions := t.world.sessions - {r})
  {
    t' := Then({}, t, Abort(r));
  }

  /** A bucket whose making was answered with an error, and that could not be
      confirmed either, is refused by its own resource from then on. */
  lemma LostReplyStrandsBucket(a: string) returns (acts: seq<Action>)
    requires a != ""
    ensures DisciplinedRun(EMPTY, acts) && Run(EMPTY, acts) && Stranded(After(EMPTY, acts), a)
  {
    var t := AboutToMake(a);
    t := Then({}, t, Create(a, C.CreateFaults(FailsAfter, Fails(503))));
    t := GiveUp(t, a);
    acts := t.acts;
  }

  /** So is one whose claim was not stored because of a crash. */
  lemma CrashStrandsBucket(a: string) returns (acts: seq<Action>)
    requires a != ""
    ensures DisciplinedRun(EMPTY, acts) && Run(EMPTY, acts) && Stranded(After(EMPTY, acts), a)
  {
    var t := AboutToMake(a);
    t := Make({}, t, a);
    t := GiveUp(t, a);
    acts := t.acts;
  }
}

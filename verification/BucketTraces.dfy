/** Runs of the bucket protocol put together step by step: the reconciles that
    meet no failure but the one asked for. */
module BucketTraces {
  import opened Kube
  import opened BucketApi
  import opened S3
  import opened BucketProtocol
  import opened BucketExclusive
  import C = BucketController
  import Credentials
  import Drain
  import T = BucketTheorems

  const SECRET := Some(Some(map[Credentials.ACCESS_KEY_ID := "a", Credentials.SECRET_ACCESS_KEY := "s"]))

  const NO_FAULTS := C.CreateFaults(Works, Answers)

  datatype Trace = Trace(start: World, acts: seq<Action>, world: World)

  /** The actions lead from `start` to `world` and obey all hypotheses, except
      possibly those in `but`. */
  ghost predicate Ok(but: set<Hypothesis>, t: Trace) {
    RunBut(but, t.start, t.acts) && Run(t.start, t.acts) && After(t.start, t.acts) == t.world
  }

  function From(w: World): Trace {
    Trace(w, [], w)
  }

  lemma {:induction false} Extend(but: set<Hypothesis>, w: World, acts: seq<Action>, a: Action)
    requires RunBut(but, w, acts) && Run(w, acts)
    requires Enabled(After(w, acts), a) && ObeysAllBut(but, After(w, acts), a)
    ensures RunBut(but, w, acts + [a]) && Run(w, acts + [a])
    ensures After(w, acts + [a]) == Step(After(w, acts), a)
    decreases |acts|
  {
    if acts == [] {
      assert acts + [a] == [a];
    } else {
      Extend(but, Step(w, acts[0]), acts[1..], a);
      assert (acts + [a])[1..] == acts[1..] + [a];
    }
  }

  lemma Then(but: set<Hypothesis>, t: Trace, a: Action) returns (t': Trace)
    requires Ok(but, t) && Enabled(t.world, a) && ObeysAllBut(but, t.world, a)
    ensures Ok(but, t') && t'.start == t.start && t'.acts == t.acts + [a] && t'.world == Step(t.world, a)
  {
    Extend(but, t.start, t.acts, a);
    t' := Trace(t.start, t.acts + [a], Step(t.world, a));
  }

  // ---- the steps of a reconcile

  /** The second trace goes on from the first, by reconciles of `r` alone. */
  predicate Follows(t: Trace, t': Trace, r: string) {
    t'.start == t.start && forall a :: a in t'.acts ==> a in t.acts || T.Reconciles(a, r)
  }

  lemma StartOf(but: set<Hypothesis>, t: Trace, r: string) returns (t': Trace)
    requires Ok(but, t) && r in t.world.stored && r !in t.world.sessions
    requires Serial !in but ==> t.world.sessions == map[]
    requires var b := t.world.stored[r].bucket; !C.AlreadyDeleted(b.status) && !(b.deleting && b.spec.orphan)
    ensures Ok(but, t') && Follows(t, t', r) && t'.world.stored == t.world.stored && t'.world.s3 == t.world.s3
    ensures r in t'.world.sessions && t'.world.sessions == t.world.sessions[r := t'.world.sessions[r]]
    ensures var s, st := t'.world.sessions[r], t.world.stored[r];
      s == Session(s.sid, st.rv, st.bucket, C.S3Client(GetEndpoint(st.bucket)), Connected)
  {
    t' := Then(but, t, Begin(r, SECRET, true));
  }

  /** The session finds its bucket absent, or present while it has the lock. */
  lemma Look(but: set<Hypothesis>, t: Trace, r: string) returns (t': Trace)
    requires Ok(but, t) && InPhase(t.world, r, Connected)
    requires var s := t.world.sessions[r]; var id := IdOf(s.bucket);
      s.client == C.S3Client(id.endpoint) && (id !in t.world.s3 || (Owned(t.world.s3, id) && Locked(s.bucket)))
    ensures Ok(but, t') && Follows(t, t', r) && t'.world.stored == t.world.stored && t'.world.s3 == t.world.s3
    ensures r in t'.world.sessions && t'.world.sessions == t.world.sessions[r := t'.world.sessions[r]]
    ensures var s, s' := t.world.sessions[r], t'.world.sessions[r]; var found := IdOf(s.bucket) in t.world.s3;
      && s' == s.(bucket := s.bucket.(status := s'.bucket.status), phase := Saw(found))
      && (found ==>
            && s'.bucket.status.bucketName == GetBucketName(s.bucket)
            && FindCondition(s'.bucket.status.conditions, Ready) == Some(AVAILABLE))
  {
    var s := t.world.sessions[r];
    FindAfterSet(s.bucket.status.conditions, AVAILABLE, Ready);
    t' := Then(but, t, Observe(r, Answers));
  }

  lemma Make(but: set<Hypothesis>, t: Trace, r: string) returns (t': Trace)
    requires Ok(but, t) && InPhase(t.world, r, Saw(false)) && !t.world.sessions[r].bucket.deleting
    requires var s := t.world.sessions[r]; var id := IdOf(s.bucket);
      s.client == C.S3Client(id.endpoint) && (id !in t.world.s3 || Owned(t.world.s3, id))
    ensures Ok(but, t') && Follows(t, t', r) && t'.world.stored == t.world.stored
    ensures var s := t.world.sessions[r]; var id := IdOf(s.bucket);
      && t'.world.s3 == (if id in t.world.s3 then t.world.s3 else t.world.s3[id := Ours({})])
      && t'.world.sessions == t.world.sessions[r := s.(bucket := C.SetLock(s.bucket), phase := Created(true))]
  {
    t' := Then(but, t, Create(r, NO_FAULTS));
  }

  lemma StoreLock(but: set<Hypothesis>, t: Trace, r: string) returns (t': Trace)
    requires Ok(but, t) && InPhase(t.world, r, Created(true))
    requires t.world.sessions[r].bucket.annotations == C.SetLock(t.world.stored[r].bucket).annotations
    ensures Ok(but, t') && Follows(t, t', r)
    ensures t'.world.s3 == t.world.s3 && t'.world.sessions == t.world.sessions - {r}
    ensures r in t'.world.stored && t'.world.stored == t.world.stored[r := t'.world.stored[r]]
    ensures t'.world.stored[r].bucket == C.SetLock(t.world.stored[r].bucket)
  {
    t' := Then(but, t, PersistAnnotations(r));
    var b := t.world.stored[r].bucket;
    assert b.annotations + C.SetLock(b).annotations == C.SetLock(b).annotations;
  }

  /** The bucket is removed, emptied before if the policy says so. */
  lemma TakeAway(but: set<Hypothesis>, t: Trace, r: string, e: C.Emptying, fault: CallFault) returns (t': Trace)
    requires Ok(but, t) && InPhase(t.world, r, Saw(true)) && t.world.sessions[r].bucket.deleting && C.Complete(e)
    requires var s := t.world.sessions[r]; var id := IdOf(s.bucket);
      && s.client == C.S3Client(id.endpoint) && s.bucket.status.bucketName == id.name
      && Owned(t.world.s3, id) && Removable(s.bucket, t.world.s3[id].objects, e)
    requires fault != FailsBefore && (TruthfulRemoval !in but ==> fault == Works)
    ensures Ok(but, t') && Follows(t, t', r) && t'.world.stored == t.world.stored
    ensures t'.world.sessions == t.world.sessions[r := t.world.sessions[r].(phase := Deleted(fault == Works))]
    ensures t'.world.s3 == t.world.s3 - {IdOf(t.world.sessions[r].bucket)}
  {
    var s := t.world.sessions[r];
    RemovableGoes(s.bucket, GetEndpoint(s.bucket), t.world.s3, e, fault);
    t' := Then(but, t, Delete(r, e, fault));
  }

  /** Delete will take the bucket away: it is empty, or it will be emptied. */
  predicate Removable(b: BucketObject, objects: set<string>, e: C.Emptying)
    requires C.Complete(e)
  {
    if b.spec.policy == DeleteAll then
      Drain.Exec(Drain.Start(e.listing), e.moves).main == Drain.ReturnedNil && objects <= Drain.Listed(e.listing)
    else objects == {}
  }

  lemma RemovableGoes(b: BucketObject, endpoint: string, store: Store, e: C.Emptying, fault: CallFault)
    requires C.Complete(e) && fault != FailsBefore
    requires var id := BucketId(endpoint, b.status.bucketName);
      Owned(store, id) && Removable(b, store[id].objects, e)
    ensures C.Delete(b, endpoint, store, e, fault) == (store - {BucketId(endpoint, b.status.bucketName)}, fault == Works)
  {
    var id := BucketId(endpoint, b.status.bucketName);
    C.EmptyingEffect(store, id, e);
    C.NothingLeft(store[id].objects, Drain.Listed(e.listing));
    if b.spec.policy == DeleteAll {
      assert C.DeleteAllObjects(store, id, e).0 - {id} == store - {id};
    }
  }

  /** After Delete, or after finding the bucket of a resource that is to stay,
      the session stores its status and ends. */
  lemma Conclude(but: set<Hypothesis>, t: Trace, r: string) returns (t': Trace)
    requires Ok(but, t) && Fresh(t.world, r) && Storable(t.world.sessions[r]) && t.world.sessions[r].phase != Stopped
    ensures Ok(but, t') && Follows(t, t', r)
    ensures t'.world.s3 == t.world.s3 && t'.world.sessions == t.world.sessions - {r}
    ensures r in t'.world.stored && t'.world.stored == t.world.stored[r := t'.world.stored[r]]
    ensures t'.world.stored[r].bucket == t.world.stored[r].bucket.(status := FinalStatus(t.world.sessions[r]))
    ensures t.world.sessions[r].phase.Deleted? ==>
      (C.AlreadyDeleted(t'.world.stored[r].bucket.status) <==> t.world.sessions[r].phase == Deleted(true))
  {
    var s := t.world.sessions[r];
    C.ConcludedDeleted(s.bucket.status, Some(DELETING), RECONCILE_ERROR);
    C.ConcludedDeleted(s.bucket.status, Some(DELETING), RECONCILE_SUCCESS);
    t' := Then(but, t, PersistStatus(r));
  }

  lemma StartNoop(but: set<Hypothesis>, t: Trace, r: string) returns (t': Trace)
    requires Ok(but, t) && r in t.world.stored && r !in t.world.sessions
    requires Serial !in but ==> t.world.sessions == map[]
    requires var b := t.world.stored[r].bucket; C.AlreadyDeleted(b.status) && !b.spec.orphan
    ensures Ok(but, t') && Follows(t, t', r) && t'.world.stored == t.world.stored && t'.world.s3 == t.world.s3
    ensures r in t'.world.sessions && t'.world.sessions == t.world.sessions[r := t'.world.sessions[r]]
    ensures var s, st := t'.world.sessions[r], t.world.stored[r];
      s == Session(s.sid, st.rv, st.bucket, C.NoopClient, Connected)
  {
    t' := Then(but, t, Begin(r, SECRET, true));
  }

  lemma LookNoop(but: set<Hypothesis>, t: Trace, r: string) returns (t': Trace)
    requires Ok(but, t) && InPhase(t.world, r, Connected) && t.world.sessions[r].client == C.NoopClient
    ensures Ok(but, t') && Follows(t, t', r) && t'.world.stored == t.world.stored && t'.world.s3 == t.world.s3
    ensures t'.world.sessions == t.world.sessions[r := t.world.sessions[r].(phase := Saw(false))]
  {
    t' := Then(but, t, Observe(r, Answers));
  }

  lemma LetGo(but: set<Hypothesis>, t: Trace, r: string) returns (t': Trace)
    requires Ok(but, t) && InPhase(t.world, r, Saw(false)) && t.world.sessions[r].bucket.deleting && Fresh(t.world, r)
    ensures Ok(but, t') && Follows(t, t', r) && t'.world.s3 == t.world.s3
    ensures t'.world.stored == t.world.stored - {r}
  {
    t' := Then(but, t, Release(r));
  }

  // ---- whole reconciles

  /** A reconcile up to the answer of Observe. */
  lemma Visit(but: set<Hypothesis>, t: Trace, r: string) returns (t': Trace)
    requires Ok(but, t) && r in t.world.stored && r !in t.world.sessions
    requires Serial !in but ==> t.world.sessions == map[]
    requires var b := t.world.stored[r].bucket;
      && !C.AlreadyDeleted(b.status) && !(b.deleting && b.spec.orphan)
      && (IdOf(b) !in t.world.s3 || (Owned(t.world.s3, IdOf(b)) && Locked(b)))
    ensures Ok(but, t') && Follows(t, t', r) && t'.world.stored == t.world.stored && t'.world.s3 == t.world.s3
    ensures r in t'.world.sessions && t'.world.sessions == t.world.sessions[r := t'.world.sessions[r]] && Fresh(t'.world, r)
    ensures var s, b := t'.world.sessions[r], t.world.stored[r].bucket; var found := IdOf(b) in t.world.s3;
      && s.bucket == b.(status := s.bucket.status)
      && s.client == C.S3Client(GetEndpoint(b)) && s.phase == Saw(found)
      && (found ==>
            && s.bucket.status.bucketName == GetBucketName(b)
            && FindCondition(s.bucket.status.conditions, Ready) == Some(AVAILABLE))
  {
    t' := StartOf(but, t, r);
    t' := Look(but, t', r);
  }

  /** A full reconcile of a resource whose bucket is absent claims it. */
  lemma Claim(but: set<Hypothesis>, t: Trace, r: string) returns (t': Trace)
    requires Ok(but, t) && r in t.world.stored && r !in t.world.sessions
    requires Serial !in but ==> t.world.sessions == map[]
    requires var b := t.world.stored[r].bucket; !b.deleting && !C.AlreadyDeleted(b.status) && IdOf(b) !in t.world.s3
    ensures Ok(but, t') && Follows(t, t', r) && t'.world.sessions == t.world.sessions
    ensures r in t'.world.stored && t'.world.stored == t.world.stored[r := t'.world.stored[r]]
    ensures t'.world.stored[r].bucket == C.SetLock(t.world.stored[r].bucket)
    ensures t'.world.s3 == t.world.s3[IdOf(t.world.stored[r].bucket) := Ours({})]
  {
    t' := Visit(but, t, r);
    t' := Make(but, t', r);
    t' := StoreLock(but, t', r);
    assert t'.world.sessions == t.world.sessions;
  }

  /** A reconcile of a deleted resource that finds its bucket, up to the
      answer of Delete. */
  lemma Remove(but: set<Hypothesis>, t: Trace, r: string, e: C.Emptying, fault: CallFault) returns (t': Trace)
    requires Ok(but, t) && r in t.world.stored && r !in t.world.sessions
    requires Serial !in but ==> t.world.sessions == map[]
    requires var b := t.world.stored[r].bucket; var id := IdOf(b);
      && b.deleting && Locked(b) && !C.AlreadyDeleted(b.status) && !b.spec.orphan
      && Owned(t.world.s3, id) && C.Complete(e) && Removable(b, t.world.s3[id].objects, e)
    requires fault != FailsBefore && (TruthfulRemoval !in but ==> fault == Works)
    ensures Ok(but, t') && Follows(t, t', r) && t'.world.stored == t.world.stored
    ensures t'.world.sessions.Keys == t.world.sessions.Keys + {r} && Fresh(t'.world, r)
    ensures t'.world.sessions == t.world.sessions[r := t'.world.sessions[r]]
    ensures t'.world.sessions[r].phase == Deleted(fault == Works)
    ensures t'.world.s3 == t.world.s3 - {IdOf(t.world.stored[r].bucket)}
  {
    t' := Visit(but, t, r);
    t' := TakeAway(but, t', r, e, fault);
  }
}

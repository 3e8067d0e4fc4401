/** What holds in every run of the bucket protocol, whatever users, other
    reconciles, failures and lost replies do in between. */
module BucketSafety {
  import opened Kube
  import opened History
  import opened BucketApi
  import opened S3
  import opened BucketProtocol
  import C = BucketController

  // ---- the history

  ghost predicate SeenAbsent(log: seq<Event>, sid: nat, uid: nat, id: BucketId) {
    exists e :: e in log && e.Looked? && e.sid == sid && e.uid == uid && e.id == id && !e.found
  }

  ghost predicate RemovedBy(log: seq<Event>, uid: nat, id: BucketId) {
    exists e :: e in log && e.RemoveCalled? && e.uid == uid && e.id == id && e.ok
  }

  /** What must have happened before an event. The lock is taken only by a
      reconcile that saw the bucket absent. A destructive call needs that
      the same reconcile found that very bucket while holding the lock; a
      release needs that the same reconcile saw the bucket absent, or that the
      resource removed it. */
  ghost predicate Justified(before: seq<Event>, e: Event) {
    match e
    case Looked(_, _, _, _, _) => true
    case Claimed(sid, uid, id) => SeenAbsent(before, sid, uid, id)
    case EmptyCalled(sid, uid, id) => Looked(sid, uid, id, true, true) in before
    case RemoveCalled(sid, uid, id, _) => Looked(sid, uid, id, true, true) in before
    case Released(sid, uid, id) => SeenAbsent(before, sid, uid, id) || RemovedBy(before, uid, id)
  }

  lemma Remembered(log: seq<Event>, more: seq<Event>, sid: nat, uid: nat, id: BucketId)
    ensures SeenAbsent(log, sid, uid, id) ==> SeenAbsent(log + more, sid, uid, id)
    ensures RemovedBy(log, uid, id) ==> RemovedBy(log + more, uid, id)
  {
  }

  // ---- the invariant

  /** A name in status is the name in force, beside the endpoint in force. */
  predicate Frozen(b: BucketObject) {
    b.status.bucketName != "" ==>
      && b.status.bucketName == GetBucketName(b)
      && b.status.endpoint == GetEndpoint(b) && b.status.endpointURL == GetEndpointURL(b)
  }

  ghost predicate StoredOk(r: string, st: Stored, log: seq<Event>, clock: nat) {
    && r != "" && st.bucket.name == r
    && st.rv < clock && st.bucket.uid < clock
    && Frozen(st.bucket)
    && (C.AlreadyDeleted(st.bucket.status) ==>
          && st.bucket.deleting && st.bucket.status.bucketName != ""
          && RemovedBy(log, st.bucket.uid, IdOf(st.bucket)))
  }

  /** A session whose resource was not written meanwhile agrees with it. */
  predicate Agrees(s: Session, st: Stored) {
    && s.bucket.name == st.bucket.name
    && s.bucket.uid == st.bucket.uid
    && (s.bucket.deleting ==> st.bucket.deleting)
    && s.rv <= st.rv
    && (s.rv == st.rv ==>
          && s.bucket.spec == st.bucket.spec
          && s.bucket.deleting == st.bucket.deleting
          && (st.bucket.status.bucketName != "" ==> s.bucket.status.bucketName == st.bucket.status.bucketName))
  }

  /** The session found its bucket while holding the lock. */
  ghost predicate Found(s: Session, log: seq<Event>) {
    && s.client.S3Client?
    && Locked(s.bucket)
    && s.bucket.status.bucketName == GetBucketName(s.bucket)
    && Looked(s.sid, s.bucket.uid, IdOf(s.bucket), true, true) in log
  }

  ghost predicate PhaseOk(s: Session, log: seq<Event>) {
    match s.phase
    case Connected => !s.client.ConnectFailed?
    case Stopped => !s.client.NoopClient?
    case Saw(true) => Found(s, log) && FindCondition(s.bucket.status.conditions, Ready) == Some(AVAILABLE)
    case Saw(false) =>
      !s.client.ConnectFailed? && (s.client.S3Client? ==> SeenAbsent(log, s.sid, s.bucket.uid, IdOf(s.bucket)))
    case Created(_) => !s.bucket.deleting
    case Deleted(ok) =>
      && s.bucket.deleting && Found(s, log)
      && (ok ==> RemovedBy(log, s.bucket.uid, IdOf(s.bucket)))
  }

  ghost predicate SessionOk(s: Session, log: seq<Event>, clock: nat) {
    && s.sid < clock
    && s.bucket.name != ""
    && Frozen(s.bucket)
    && (s.client.S3Client? ==> s.client.endpoint == GetEndpoint(s.bucket))
    && (s.client.NoopClient? ==>
          && s.bucket.deleting && s.bucket.status.bucketName != ""
          && RemovedBy(log, s.bucket.uid, IdOf(s.bucket)))
    && PhaseOk(s, log)
  }

  ghost predicate Sound(w: World) {
    && (forall r :: r in w.stored ==> StoredOk(r, w.stored[r], w.log, w.clock))
    && (forall r :: r in w.sessions ==>
          && r in w.stored && Agrees(w.sessions[r], w.stored[r])
          && SessionOk(w.sessions[r], w.log, w.clock))
    && (forall q, r :: q in w.stored && r in w.stored && q != r ==> w.stored[q].bucket.uid != w.stored[r].bucket.uid)
    && (forall e :: e in w.log ==> e.uid < w.clock)
    && JustifiedLog(w.log, Justified)
  }

  // ---- preservation

  lemma StoredGrows(r: string, st: Stored, log: seq<Event>, more: seq<Event>, clock: nat, clock': nat)
    requires StoredOk(r, st, log, clock) && clock <= clock'
    ensures StoredOk(r, st, log + more, clock')
  {
  }

  lemma SessionGrows(s: Session, log: seq<Event>, more: seq<Event>, clock: nat, clock': nat)
    requires SessionOk(s, log, clock) && clock <= clock'
    ensures SessionOk(s, log + more, clock')
  {
  }

  /** A step that touches resource `r` only keeps the invariant if `r` does. */
  lemma SoundFrame(w: World, w': World, r: string, more: seq<Event>)
    requires Sound(w)
    requires w'.log == w.log + more && w.clock <= w'.clock && JustifiedLog(w'.log, Justified)
    requires w'.stored - {r} == w.stored - {r} && w'.sessions - {r} == w.sessions - {r}
    requires forall e :: e in more ==> r in w.stored && e.uid == w.stored[r].bucket.uid
    requires r in w'.stored ==> (if r in w.stored then w'.stored[r].bucket.uid == w.stored[r].bucket.uid
                                 else w'.stored[r].bucket.uid == w.clock)
    requires r in w'.stored ==> StoredOk(r, w'.stored[r], w'.log, w'.clock)
    requires r in w'.sessions ==>
      && r in w'.stored && Agrees(w'.sessions[r], w'.stored[r])
      && SessionOk(w'.sessions[r], w'.log, w'.clock)
    ensures Sound(w')
  {
    forall q | q in w'.stored ensures StoredOk(q, w'.stored[q], w'.log, w'.clock) {
      if q != r {
        assert q in w'.stored - {r} && (w'.stored - {r})[q] == (w.stored - {r})[q];
        StoredGrows(q, w.stored[q], w.log, more, w.clock, w'.clock);
      }
    }
    forall q | q in w'.sessions
      ensures q in w'.stored && Agrees(w'.sessions[q], w'.stored[q]) && SessionOk(w'.sessions[q], w'.log, w'.clock)
    {
      if q != r {
        assert q in w'.sessions - {r} && (w'.sessions - {r})[q] == (w.sessions - {r})[q];
        assert q in w.stored - {r} && (w'.stored - {r})[q] == (w.stored - {r})[q];
        SessionGrows(w.sessions[q], w.log, more, w.clock, w'.clock);
      }
    }
    forall p, q | p in w'.stored && q in w'.stored && p != q
      ensures w'.stored[p].bucket.uid != w'.stored[q].bucket.uid
    {
      assert p != r ==> p in w'.stored - {r} && (w'.stored - {r})[p] == (w.stored - {r})[p];
      assert q != r ==> q in w'.stored - {r} && (w'.stored - {r})[q] == (w.stored - {r})[q];
    }
    if r in w.stored {
      assert StoredOk(r, w.stored[r], w.log, w.clock);
    }
  }

  lemma WrittenOk(w: World, r: string, b: BucketObject)
    requires Sound(w) && r in w.stored && Frozen(b)
    requires b.name == r && b.uid == w.stored[r].bucket.uid
    requires w.stored[r].bucket.deleting ==> b.deleting
    requires C.AlreadyDeleted(b.status) ==>
      b.deleting && b.status.bucketName != "" && RemovedBy(w.log, b.uid, IdOf(b))
    ensures Sound(Write(w, r, b))
  {
    var w' := Write(w, r, b);
    assert w.log + [] == w.log;
    if r in w.sessions {
      SessionGrows(w.sessions[r], w.log, [], w.clock, w'.clock);
    }
    SoundFrame(w, w', r, []);
  }

  lemma EndedOk(w: World, r: string)
    requires Sound(w)
    ensures Sound(EndSession(w, r))
  {
  }

  lemma UserStepSound(w: World, a: Action)
    requires Sound(w) && Enabled(w, a)
    requires a.UserCreate? || a.UserUpdate? || a.UserDelete?
    ensures Sound(Step(w, a))
  {
    var r, w' := a.name, Step(w, a);
    if a.UserCreate? {
      assert w.log + [] == w.log;
      SoundFrame(w, w', r, []);
    } else {
      WrittenOk(w, r, w'.stored[r].bucket);
    }
  }

  lemma BeginSound(w: World, a: Action)
    requires Sound(w) && Enabled(w, a) && a.Begin?
    ensures Sound(Step(w, a))
  {
  }

  lemma ObservedSession(s3: Store, s: Session, log: seq<Event>, clock: nat, read: ReadFault)
    requires SessionOk(s, log, clock) && s.phase == Connected
    ensures var (s', events) := ObserveSession(s3, s, read);
      && SessionOk(s', log + events, clock)
      && (forall e :: e in events ==> e.Looked?) && |events| <= 1
      && s'.rv == s.rv && s'.bucket.(status := s.bucket.status) == s.bucket
      && (s.bucket.status.bucketName != "" ==> s'.bucket.status.bucketName == s.bucket.status.bucketName)
  {
    var (s', events) := ObserveSession(s3, s, read);
    Remembered(log, events, s.sid, s.bucket.uid, IdOf(s.bucket));
    if s.client.S3Client? {
      FindAfterSet(s.bucket.status.conditions, AVAILABLE, Ready);
      if s'.phase.Saw? {
        assert events[0] in log + events;
      }
    }
  }

  lemma ObserveSound(w: World, a: Action)
    requires Sound(w) && Enabled(w, a) && a.Observe?
    ensures Sound(Step(w, a))
  {
    var w', s := Step(w, a), w.sessions[a.name];
    var (_, events) := ObserveSession(w.s3, s, a.read);
    ObservedSession(w.s3, s, w.log, w.clock, a.read);
    StoredGrows(a.name, w.stored[a.name], w.log, events, w.clock, w.clock);
    if events == [] {
      assert w'.log == w.log;
    } else {
      assert w'.log == w.log + [events[0]];
      assert events[0] in events;
      Append(w.log, events[0], Justified);
    }
    SoundFrame(w, w', a.name, events);
  }

  lemma CreatedSession(s3: Store, s: Session, log: seq<Event>, clock: nat, faults: C.CreateFaults)
    requires SessionOk(s, log, clock) && s.phase == Saw(false) && !s.bucket.deleting
    requires JustifiedLog(log, Justified)
    ensures var (s', s3', events) := CreateSession(s3, s, faults);
      && SessionOk(s', log + events, clock) && JustifiedLog(log + events, Justified)
      && s'.rv == s.rv && s'.bucket == s.bucket.(annotations := s'.bucket.annotations)
  {
    var (s', s3', events) := CreateSession(s3, s, faults);
    Remembered(log, events, s.sid, s.bucket.uid, IdOf(s.bucket));
    if events == [] {
      assert log + events == log;
    } else {
      assert events == [Claimed(s.sid, s.bucket.uid, IdOf(s.bucket))];
      Append(log, events[0], Justified);
    }
  }

  lemma CreateSound(w: World, a: Action)
    requires Sound(w) && Enabled(w, a) && a.Create?
    ensures Sound(Step(w, a))
  {
    var w', s := Step(w, a), w.sessions[a.name];
    var (_, _, events) := CreateSession(w.s3, s, a.faults);
    CreatedSession(w.s3, s, w.log, w.clock, a.faults);
    StoredGrows(a.name, w.stored[a.name], w.log, events, w.clock, w.clock);
    SoundFrame(w, w', a.name, events);
  }

  lemma DeletedSession(s3: Store, s: Session, log: seq<Event>, clock: nat, e: C.Emptying, fault: CallFault)
    requires SessionOk(s, log, clock) && s.phase == Saw(true) && s.bucket.deleting && C.Complete(e)
    requires JustifiedLog(log, Justified)
    ensures var (s', s3', events) := DeleteSession(s3, s, e, fault);
      && SessionOk(s', log + events, clock) && JustifiedLog(log + events, Justified)
      && s' == s.(phase := s'.phase) && s'.phase.Deleted?
  {
    var (s', s3', events) := DeleteSession(s3, s, e, fault);
    var id := IdOf(s.bucket);
    Remembered(log, events, s.sid, s.bucket.uid, id);
    var first := EmptyCalled(s.sid, s.bucket.uid, id);
    var second := RemoveCalled(s.sid, s.bucket.uid, id, s'.phase.ok);
    Append(log, first, Justified);
    Append(log, second, Justified);
    Append(log + [first], second, Justified);
    assert log + [first] + [second] == log + ([first] + [second]);
    assert log + [] == log;
    if s'.phase.ok {
      assert second in log + events;
      assert RemovedBy(log + events, s.bucket.uid, id);
    }
    assert events == [] || events == [first] || events == [second] || events == [first] + [second];
  }

  lemma DeleteSound(w: World, a: Action)
    requires Sound(w) && Enabled(w, a) && a.Delete?
    ensures Sound(Step(w, a))
  {
    var w', s := Step(w, a), w.sessions[a.name];
    var (s', s3', events) := DeleteSession(w.s3, s, a.emptying, a.fault);
    DeletedSession(w.s3, s, w.log, w.clock, a.emptying, a.fault);
    StoredGrows(a.name, w.stored[a.name], w.log, events, w.clock, w.clock);
    SoundFrame(w, w', a.name, events);
  }

  /** Only a session that removed the bucket leaves the four criteria behind. */
  lemma FinalStatusDeleted(s: Session, log: seq<Event>)
    requires PhaseOk(s, log) && Storable(s)
    ensures C.AlreadyDeleted(FinalStatus(s)) <==> s.phase == Deleted(true)
    ensures FinalStatus(s) == s.bucket.status.(conditions := FinalStatus(s).conditions)
  {
    var ready := if s.phase.Deleted? then Some(DELETING) else None;
    C.ConcludedDeleted(s.bucket.status, ready, RECONCILE_SUCCESS);
    C.ConcludedDeleted(s.bucket.status, ready, RECONCILE_ERROR);
  }

  lemma PersistStatusSound(w: World, a: Action)
    requires Sound(w) && Enabled(w, a) && a.PersistStatus?
    ensures Sound(Step(w, a))
  {
    var r, s := a.name, w.sessions[a.name];
    var b := w.stored[r].bucket.(status := FinalStatus(s));
    FinalStatusDeleted(s, w.log);
    assert GetBucketName(b) == GetBucketName(s.bucket) && GetEndpoint(b) == GetEndpoint(s.bucket);
    WrittenOk(w, r, b);
    EndedOk(Write(w, r, b), r);
  }

  lemma PersistAnnotationsSound(w: World, a: Action)
    requires Sound(w) && Enabled(w, a) && a.PersistAnnotations?
    ensures Sound(Step(w, a))
  {
    var r := a.name;
    var b := w.stored[r].bucket.(annotations := w.stored[r].bucket.annotations + w.sessions[r].bucket.annotations);
    assert StoredOk(r, w.stored[r], w.log, w.clock);
    WrittenOk(w, r, b);
    EndedOk(Write(w, r, b), r);
  }

  lemma ReleaseFailsSound(w: World, a: Action)
    requires Sound(w) && Enabled(w, a) && a.ReleaseFails?
    ensures Sound(Step(w, a))
  {
    var r, s := a.name, w.sessions[a.name];
    var b := w.stored[r].bucket.(status := C.Concluded(s.bucket.status, Some(DELETING), RECONCILE_ERROR));
    C.ConcludedDeleted(s.bucket.status, Some(DELETING), RECONCILE_ERROR);
    WrittenOk(w, r, b);
    EndedOk(Write(w, r, b), r);
  }

  lemma ReleaseSound(w: World, a: Action)
    requires Sound(w) && Enabled(w, a) && a.Release?
    ensures Sound(Step(w, a))
  {
    var s := w.sessions[a.name];
    var released := Released(s.sid, s.bucket.uid, IdOf(s.bucket));
    assert Justified(w.log, released);
    Append(w.log, released, Justified);
    SoundFrame(w, Step(w, a), a.name, [released]);
  }

  lemma ReleaseOrphanSound(w: World, a: Action)
    requires Sound(w) && Enabled(w, a) && a.ReleaseOrphan?
    ensures Sound(Step(w, a))
  {
    assert w.log + [] == w.log;
    SoundFrame(w, Step(w, a), a.name, []);
  }

  /** The steps that end a session. */
  lemma EndingSound(w: World, a: Action)
    requires Sound(w) && Enabled(w, a)
    requires a.PersistStatus? || a.PersistAnnotations? || a.Release? || a.ReleaseOrphan? || a.ReleaseFails? || a.Abort?
    ensures Sound(Step(w, a))
  {
    if a.PersistStatus? {
      PersistStatusSound(w, a);
    } else if a.PersistAnnotations? {
      PersistAnnotationsSound(w, a);
    } else if a.ReleaseFails? {
      ReleaseFailsSound(w, a);
    } else if a.Abort? {
      EndedOk(w, a.name);
    } else if a.ReleaseOrphan? {
      ReleaseOrphanSound(w, a);
    } else {
      ReleaseSound(w, a);
    }
  }

  /** The calls of a session. */
  lemma CallSound(w: World, a: Action)
    requires Sound(w) && Enabled(w, a) && (a.Begin? || a.Observe? || a.Create? || a.Delete?)
    ensures Sound(Step(w, a))
  {
    if a.Begin? {
      BeginSound(w, a);
    } else if a.Observe? {
      ObserveSound(w, a);
    } else if a.Create? {
      CreateSound(w, a);
    } else {
      DeleteSound(w, a);
    }
  }

  /** The store changes, and nothing else. */
  lemma OthersSound(w: World, a: Action)
    requires Sound(w) && Enabled(w, a)
    requires a.PutObjects? || a.OutsideMake? || a.OutsideRemove? || a.ForeignMake? || a.ForeignRemove?
    ensures Sound(Step(w, a))
  {
  }

  lemma StepSound(w: World, a: Action)
    requires Sound(w) && Enabled(w, a)
    ensures Sound(Step(w, a))
  {
    if a.UserCreate? || a.UserUpdate? || a.UserDelete? {
      UserStepSound(w, a);
    } else if a.Begin? || a.Observe? || a.Create? || a.Delete? {
      CallSound(w, a);
    } else if a.PutObjects? || a.OutsideMake? || a.OutsideRemove? || a.ForeignMake? || a.ForeignRemove? {
      OthersSound(w, a);
    } else {
      EndingSound(w, a);
    }
  }

  lemma {:induction false} RunSound(w: World, acts: seq<Action>)
    requires Sound(w) && Run(w, acts)
    ensures Sound(After(w, acts))
    decreases |acts|
  {
    if acts != [] {
      StepSound(w, acts[0]);
      RunSound(Step(w, acts[0]), acts[1..]);
    }
  }
}

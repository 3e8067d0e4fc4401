/** What holds in every disciplined run of the ObjectsUser protocol: a user is
    created at most once per resource, its ID is never lost, and no call ever
    concerns a user of somebody else. Sessions of different resources
    interleave freely. */
module UserIdentity {
  import opened Kube
  import opened History
  import opened UserApi
  import opened UserService
  import opened UserProtocol
  import C = UserController

  // ---- the history

  predicate CreatedFor(log: seq<Event>, uid: nat, id: string) {
    CreatedUser(uid, id) in log
  }

  predicate NothingCreated(log: seq<Event>, uid: nat) {
    forall e :: e in log && e.CreatedUser? ==> e.uid != uid
  }

  ghost predicate SeenMissing(log: seq<Event>, sid: nat, uid: nat) {
    exists id :: GetCalled(sid, uid, id, NotFound) in log
  }

  /** No request before was given this ID, whether its answer arrived or not. */
  predicate Unused(log: seq<Event>, id: string) {
    id != "" && forall e :: e in log && (e.CreatedUser? || e.LostUser?) ==> e.id != id
  }

  predicate JustRequested(log: seq<Event>, uid: nat) {
    log != [] && log[|log| - 1].CreateCalled? && log[|log| - 1].uid == uid
  }

  /** What must have happened before an event: calls go to the user that was
      created for the resource, a user is created only by a request of a
      resource that has none and under an ID nobody had, and a release needs
      that there never was a user or that a Get of the same reconcile answered
      404. */
  ghost predicate Justified(before: seq<Event>, e: Event) {
    match e
    case GetCalled(_, uid, id, _) => id != "" && CreatedFor(before, uid, id)
    case UpdateCalled(_, uid, id) => id != "" && CreatedFor(before, uid, id)
    case DeleteCalled(_, uid, id) => id != "" && CreatedFor(before, uid, id)
    case CreateCalled(_, uid) => NothingCreated(before, uid)
    case CreatedUser(uid, id) => JustRequested(before, uid) && NothingCreated(before, uid) && Unused(before, id)
    case LostUser(uid, id) => JustRequested(before, uid) && Unused(before, id)
    case Released(sid, uid) => NothingCreated(before, uid) || SeenMissing(before, sid, uid)
  }

  // ---- the invariant

  /** The ID in status and the ID in the annotation. */
  function Ids(u: UserObject): (string, Option<string>) {
    (u.status.userID, if C.HasIdAnnotation(u) then Some(u.annotations[USER_ID_ANNOTATION]) else None)
  }

  const NO_IDS: (string, Option<string>) := ("", None)

  predicate HasId(ids: (string, Option<string>), id: string) {
    ids.0 == id || ids.1 == Some(id)
  }

  /** Only IDs created for this resource are recorded, and they agree. */
  predicate IdsOk(u: UserObject, log: seq<Event>) {
    && (Ids(u).0 != "" ==> CreatedFor(log, u.uid, Ids(u).0))
    && (Ids(u).1.Some? ==> Ids(u).1.value != "" && CreatedFor(log, u.uid, Ids(u).1.value))
    && (Ids(u).0 != "" && Ids(u).1.Some? ==> Ids(u).0 == Ids(u).1.value)
  }

  /** The session just got a new user; its ID is not stored yet. */
  predicate Pending(s: Session, st: Stored) {
    s.phase.Created? && Ids(st.user) == NO_IDS && Ids(s.user).0 == "" && Ids(s.user).1.Some?
  }

  /** The session moved the ID from the annotation to status. */
  predicate Moved(s: Session, st: Stored) {
    Ids(st.user).0 == "" && Ids(st.user).1.Some? && Ids(s.user) == (Ids(st.user).1.value, None)
  }

  predicate StoredOk(r: string, st: Stored, clock: nat, log: seq<Event>) {
    r != "" && st.user.name == r && st.rv < clock && st.user.uid < clock && IdsOk(st.user, log)
  }

  ghost predicate SessionOk(s: Session, st: Stored, log: seq<Event>) {
    && s.user.name == st.user.name && s.user.uid == st.user.uid
    && (s.user.deleting ==> st.user.deleting)
    && s.rv <= st.rv && (s.rv == st.rv ==> s.user.deleting == st.user.deleting)
    && IdsOk(s.user, log)
    && (Ids(s.user) == Ids(st.user) || Moved(s, st) || Pending(s, st))
    && (s.phase == Connected ==> Ids(s.user) == Ids(st.user))
    && (s.phase.Saw? && s.phase.found ==> s.user.status.userID != "")
    && (s.phase.Updated? || s.phase.Deleted? ==> s.user.status.userID != "")
    && (s.phase.Saw? && !s.phase.found ==>
          && (s.user.status.userID == "" ==> Ids(s.user) == NO_IDS)
          && (s.user.deleting && s.user.status.userID != "" ==> SeenMissing(log, s.sid, s.user.uid)))
  }

  /** Every user created for the resource is recorded, in store or in memory. */
  ghost predicate Recorded(w: World, r: string)
    requires r in w.stored
  {
    forall e :: e in w.log && e.CreatedUser? && e.uid == w.stored[r].user.uid ==>
      || HasId(Ids(w.stored[r].user), e.id)
      || (r in w.sessions && Pending(w.sessions[r], w.stored[r]) && HasId(Ids(w.sessions[r].user), e.id))
  }

  ghost predicate ResourceOk(w: World, r: string) {
    && (r in w.stored ==> StoredOk(r, w.stored[r], w.clock, w.log) && Recorded(w, r))
    && (r in w.sessions ==> r in w.stored && SessionOk(w.sessions[r], w.stored[r], w.log))
  }

  ghost predicate Sound(w: World) {
    && (forall r :: ResourceOk(w, r))
    && (forall q, r :: q in w.stored && r in w.stored && q != r ==> w.stored[q].user.uid != w.stored[r].user.uid)
    && JustifiedLog(w.log, Justified)
    && (forall e :: e in w.log && (e.CreatedUser? || e.LostUser?) ==> e.id in w.issued && e.uid < w.clock)
    && w.users.Keys <= w.issued
  }

  // ---- preservation

  /** The history and the resource of another step. */
  lemma OtherOk(w: World, w': World, q: string, uid: nat)
    requires ResourceOk(w, q)
    requires w.log <= w'.log && w.clock <= w'.clock
    requires forall e :: e in w'.log && e.CreatedUser? ==> e in w.log || e.uid == uid
    requires q in w.stored ==> w.stored[q].user.uid != uid
    requires q in w'.stored <==> q in w.stored
    requires q in w'.stored ==> w'.stored[q] == w.stored[q]
    requires q in w'.sessions <==> q in w.sessions
    requires q in w'.sessions ==> w'.sessions[q] == w.sessions[q]
    ensures ResourceOk(w', q)
  {
  }

  /** A step about resource `r` only keeps the invariant if `r` does. */
  lemma SoundFrame(w: World, w': World, r: string)
    requires Sound(w)
    requires w.log <= w'.log && w.clock <= w'.clock && JustifiedLog(w'.log, Justified)
    requires w'.stored - {r} == w.stored - {r} && w'.sessions - {r} == w.sessions - {r}
    requires r in w'.stored ==> r in w.stored && w'.stored[r].user.uid == w.stored[r].user.uid
    requires forall e :: e in w'.log && e.CreatedUser? && e !in w.log ==> r in w.stored && e.uid == w.stored[r].user.uid
    requires forall e :: e in w'.log && (e.CreatedUser? || e.LostUser?) ==> e.id in w'.issued && e.uid < w'.clock
    requires w'.users.Keys <= w'.issued
    requires ResourceOk(w', r)
    ensures Sound(w')
  {
    forall q ensures ResourceOk(w', q) {
      if q != r {
        SameElsewhere(w.stored, w'.stored, r, q);
        SameElsewhere(w.sessions, w'.sessions, r, q);
        OtherOk(w, w', q, if r in w.stored then w.stored[r].user.uid else w.clock);
      }
    }
    forall p, q | p in w'.stored && q in w'.stored && p != q
      ensures w'.stored[p].user.uid != w'.stored[q].user.uid
    {
      SameElsewhere(w.stored, w'.stored, r, p);
      SameElsewhere(w.stored, w'.stored, r, q);
    }
  }

  lemma SameElsewhere<T>(m: map<string, T>, m': map<string, T>, r: string, q: string)
    requires m' - {r} == m - {r}
    ensures q != r ==> (q in m' <==> q in m) && (q in m ==> m'[q] == m[q])
  {
    if q != r {
      assert q in m' <==> q in m' - {r};
      assert q in m <==> q in m - {r};
      if q in m {
        assert m'[q] == (m' - {r})[q];
      }
    }
  }

  lemma UserCreateSound(w: World, a: Action)
    requires Sound(w) && Enabled(w, a) && Disciplined(w, a) && a.UserCreate?
    ensures Sound(Step(w, a))
  {
    var w' := Step(w, a);
    forall q ensures ResourceOk(w', q) {
      assert ResourceOk(w, q);
    }
    forall q | q in w.stored ensures w.stored[q].user.uid < w.clock {
      assert ResourceOk(w, q);
    }
  }

  /** A write to the stored resource that keeps its IDs. */
  lemma WrittenOk(w: World, r: string, u: UserObject)
    requires Sound(w) && r in w.stored
    requires u.name == r && u.uid == w.stored[r].user.uid && Ids(u) == Ids(w.stored[r].user)
    requires w.stored[r].user.deleting ==> u.deleting
    ensures Sound(Write(w, r, u))
  {
    assert ResourceOk(w, r);
    SoundFrame(w, Write(w, r, u), r);
  }

  lemma UserStepSound(w: World, a: Action)
    requires Sound(w) && Enabled(w, a) && Disciplined(w, a) && (a.UserUpdate? || a.UserDelete?)
    ensures Sound(Step(w, a))
  {
    assert ResourceOk(w, a.name);
    WrittenOk(w, a.name, Step(w, a).stored[a.name].user);
  }

  lemma BeginSound(w: World, a: Action)
    requires Sound(w) && Enabled(w, a) && a.Begin?
    ensures Sound(Step(w, a))
  {
    assert ResourceOk(w, a.name);
    SoundFrame(w, Step(w, a), a.name);
  }

  /** Observe moves the ID to status, or finds none. */
  lemma ObservedIds(u: UserObject, users: Users, read: ReadFault)
    ensures var (o, obs) := C.Observe(u, users, read);
      && o.name == u.name && o.uid == u.uid && o.deleting == u.deleting && o.spec == u.spec
      && (C.TakeOver(u).None? ==> o == u && Ids(u) == NO_IDS && obs == Observed(false, false))
      && (C.TakeOver(u).Some? ==>
            && Ids(o) == (if Ids(u).0 != "" then Ids(u) else (Ids(u).1.value, None))
            && (obs == Observed(false, false) <==> Get(users, Ids(o).0, read) == GetError(NOT_FOUND))
            && (obs.Observed? && !obs.found ==> obs == Observed(false, false)))
  {
  }

  lemma ObservedSession(users: Users, s: Session, st: Stored, log: seq<Event>, read: ReadFault)
    requires JustifiedLog(log, Justified) && IdsOk(st.user, log)
    requires SessionOk(s, st, log) && s.phase == Connected
    ensures var (s', events) := ObserveSession(users, s, read);
      && JustifiedLog(log + events, Justified) && SessionOk(s', st, log + events)
      && forall e :: e in events ==> e.GetCalled?
  {
    var (s', events) := ObserveSession(users, s, read);
    ObservedIds(s.user, users, read);
    if C.TakeOver(s.user).None? {
      assert log + events == log;
    } else {
      var e := GetCalled(s.sid, s.user.uid, Ids(s'.user).0, AnswerOf(Get(users, Ids(s'.user).0, read)));
      assert events == [e];
      Append(log, e, Justified);
      assert e in log + events;
      assert IdsOk(s'.user, log + events);
      assert Ids(s'.user) == Ids(st.user) || Moved(s', st);
    }
  }

  lemma ObserveSound(w: World, a: Action)
    requires Sound(w) && Enabled(w, a) && a.Observe?
    ensures Sound(Step(w, a))
  {
    var r := a.name;
    assert ResourceOk(w, r);
    ObservedSession(w.users, w.sessions[r], w.stored[r], w.log, a.read);
    SoundFrame(w, Step(w, a), r);
  }

  /** A session without any ID means that no user was created yet. */
  lemma NothingYet(w: World, r: string)
    requires Sound(w) && Missing(w, r) && Asks(w.sessions[r])
    ensures Ids(w.stored[r].user) == NO_IDS && NothingCreated(w.log, w.stored[r].user.uid)
  {
    assert ResourceOk(w, r);
    forall e | e in w.log && e.CreatedUser? ensures e.uid != w.stored[r].user.uid {
      CreatedIdsNonEmpty(w.log, e);
    }
  }

  lemma CreateSound(w: World, a: Action)
    requires Sound(w) && Enabled(w, a) && a.Create?
    ensures Sound(Step(w, a))
  {
    CreatedLog(w, a);
    CreatedResource(w, a);
    SoundFrame(w, Step(w, a), a.name);
  }

  lemma CreatedLog(w: World, a: Action)
    requires Sound(w) && Enabled(w, a) && a.Create?
    ensures w.log <= Step(w, a).log && JustifiedLog(Step(w, a).log, Justified)
    ensures forall e :: e in Step(w, a).log && (e.CreatedUser? || e.LostUser?) && e !in w.log ==>
      e.id == a.id && e.uid == w.stored[a.name].user.uid
  {
    var r, w' := a.name, Step(w, a);
    var s := w.sessions[r];
    var events := CreateEvents(s, a.id, a.fault);
    assert ResourceOk(w, r);
    if events == [] {
      assert w'.log == w.log;
    } else {
      NothingYet(w, r);
      var call := CreateCalled(s.sid, s.user.uid);
      Append(w.log, call, Justified);
      if a.fault == FailsBefore {
        assert w'.log == w.log + [call];
      } else {
        assert w'.log == w.log + [call] + [events[1]];
        Append(w.log + [call], events[1], Justified);
      }
    }
  }

  lemma CreatedResource(w: World, a: Action)
    requires Sound(w) && Enabled(w, a) && a.Create?
    ensures ResourceOk(Step(w, a), a.name)
  {
    var r, w' := a.name, Step(w, a);
    assert ResourceOk(w, r);
    assert w.log <= w'.log;
    if Asks(w.sessions[r]) {
      NothingYet(w, r);
      assert IdsOk(w'.sessions[r].user, w'.log);
    }
  }

  /** No two resources get the same user. */
  lemma IdsUnique(log: seq<Event>, u: nat, v: nat, id: string)
    requires JustifiedLog(log, Justified) && CreatedFor(log, u, id) && CreatedFor(log, v, id)
    ensures u == v
  {
  }

  lemma CreatedIdsNonEmpty(log: seq<Event>, e: Event)
    requires JustifiedLog(log, Justified) && e in log && e.CreatedUser?
    ensures e.id != ""
  {
  }

  lemma UpdateSound(w: World, a: Action)
    requires Sound(w) && Enabled(w, a) && a.Update?
    ensures Sound(Step(w, a))
  {
    assert ResourceOk(w, a.name);
    UpdatedLog(w, a);
    C.UpdateEffect(w.sessions[a.name].user, w.users, a.faults);
    SoundFrame(w, Step(w, a), a.name);
  }

  lemma UpdatedLog(w: World, a: Action)
    requires Sound(w) && Enabled(w, a) && a.Update?
    ensures w.log <= Step(w, a).log && JustifiedLog(Step(w, a).log, Justified)
    ensures forall e :: e in Step(w, a).log && e !in w.log ==> e.UpdateCalled?
  {
    assert ResourceOk(w, a.name);
    var s := w.sessions[a.name];
    var call := UpdateCalled(s.sid, s.user.uid, s.user.status.userID);
    Append(w.log, call, Justified);
    Append(w.log + [call], call, Justified);
    assert w.log + [call] + [call] == w.log + [call, call];
  }

  lemma DeleteSound(w: World, a: Action)
    requires Sound(w) && Enabled(w, a) && a.Delete?
    ensures Sound(Step(w, a))
  {
    var r, s := a.name, w.sessions[a.name];
    assert ResourceOk(w, r);
    Append(w.log, DeleteCalled(s.sid, s.user.uid, s.user.status.userID), Justified);
    SoundFrame(w, Step(w, a), r);
  }

  /** A session ends and stores IDs that say what was said before. */
  lemma EndedWithWrite(w: World, r: string, u: UserObject)
    requires Sound(w) && r in w.sessions && r in w.stored
    requires u.name == r && u.uid == w.stored[r].user.uid && IdsOk(u, w.log)
    requires forall id :: id != "" && HasId(Ids(w.stored[r].user), id) ==> HasId(Ids(u), id)
    requires Pending(w.sessions[r], w.stored[r]) ==>
      forall id :: id != "" && HasId(Ids(w.sessions[r].user), id) ==> HasId(Ids(u), id)
    ensures Sound(EndSession(Write(w, r, u), r))
  {
    var w' := EndSession(Write(w, r, u), r);
    assert ResourceOk(w, r);
    forall e | e in w.log && e.CreatedUser? ensures e.id != "" {
      CreatedIdsNonEmpty(w.log, e);
    }
    SoundFrame(w, w', r);
  }

  lemma PersistSound(w: World, a: Action)
    requires Sound(w) && Enabled(w, a) && (a.PersistStatus? || a.PersistAnnotations? || a.ReleaseFails?)
    ensures Sound(Step(w, a))
  {
    var r := a.name;
    assert ResourceOk(w, r);
    var s, u := w.sessions[r], w.stored[r].user;
    if a.PersistStatus? {
      EndedWithWrite(w, r, u.(status := FinalStatus(s), annotations := KeptAnnotations(u, s.user, a.removalSticks)));
    } else if a.PersistAnnotations? {
      EndedWithWrite(w, r, u.(annotations := u.annotations + s.user.annotations));
    } else {
      EndedWithWrite(w, r, u.(status := Concluded(s.user.status, Some(DELETING), RECONCILE_ERROR)));
    }
  }

  lemma WriteMetadataSound(w: World, a: Action)
    requires Sound(w) && Enabled(w, a) && Disciplined(w, a) && a.WriteMetadata?
    ensures Sound(Step(w, a))
  {
    assert ResourceOk(w, a.name);
    SoundFrame(w, Step(w, a), a.name);
  }

  lemma ReleaseJustified(w: World, r: string)
    requires Sound(w) && Missing(w, r) && w.sessions[r].user.deleting
    ensures Justified(w.log, Released(w.sessions[r].sid, w.sessions[r].user.uid))
  {
    var s := w.sessions[r];
    assert ResourceOk(w, r);
    if s.user.status.userID == "" {
      forall e | e in w.log && e.CreatedUser? ensures e.uid != s.user.uid {
        CreatedIdsNonEmpty(w.log, e);
      }
    }
  }

  lemma ReleaseSound(w: World, a: Action)
    requires Sound(w) && Enabled(w, a) && a.Release?
    ensures Sound(Step(w, a))
  {
    var s := w.sessions[a.name];
    ReleaseJustified(w, a.name);
    Append(w.log, Released(s.sid, s.user.uid), Justified);
    SoundFrame(w, Step(w, a), a.name);
  }

  lemma EndSound(w: World, a: Action)
    requires Sound(w) && Enabled(w, a) && Disciplined(w, a) && (a.Abort? || a.ReleaseOrphan?)
    ensures Sound(Step(w, a))
  {
    assert ResourceOk(w, a.name);
    SoundFrame(w, Step(w, a), a.name);
  }

  lemma OutsideSound(w: World, a: Action)
    requires Sound(w) && Enabled(w, a) && (a.OutsideWrite? || a.OutsideRemove?)
    ensures Sound(Step(w, a))
  {
    forall r ensures ResourceOk(Step(w, a), r) {
      assert ResourceOk(w, r);
    }
  }

  lemma StepSound(w: World, a: Action)
    requires Sound(w) && Enabled(w, a) && Disciplined(w, a)
    ensures Sound(Step(w, a))
  {
    if a.UserCreate? {
      UserCreateSound(w, a);
    } else if a.UserUpdate? || a.UserDelete? {
      UserStepSound(w, a);
    } else if a.OutsideWrite? || a.OutsideRemove? {
      OutsideSound(w, a);
    } else if a.Begin? {
      BeginSound(w, a);
    } else if a.Observe? {
      ObserveSound(w, a);
    } else if a.Create? {
      CreateSound(w, a);
    } else if a.Update? {
      UpdateSound(w, a);
    } else if a.Delete? {
      DeleteSound(w, a);
    } else if a.WriteMetadata? {
      WriteMetadataSound(w, a);
    } else if a.Release? {
      ReleaseSound(w, a);
    } else if a.Abort? || a.ReleaseOrphan? {
      EndSound(w, a);
    } else {
      PersistSound(w, a);
    }
  }

  lemma {:induction false} RunSound(w: World, acts: seq<Action>)
    requires Sound(w) && Run(w, acts)
    ensures Sound(After({}, w, acts))
    decreases |acts|
  {
    if acts != [] {
      StepSound(w, acts[0]);
      RunSound(Step(w, acts[0]), acts[1..]);
    }
  }
}

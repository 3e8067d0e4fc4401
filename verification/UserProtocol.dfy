/** ObjectsUser resources, the cloudscale.ch API, users and the reconciler as
    one step system, built like the bucket protocol: sessions work on a copy
    and anything may happen between two steps of a session. */
module UserProtocol {
  import opened Kube
  import opened Credentials
  import opened UserApi
  import opened UserService
  import C = UserController

  datatype Stored = Stored(rv: nat, user: UserObject)

  datatype Phase =
    | Connected
    | Stopped              // Connect or Observe failed
    | Saw(found: bool, upToDate: bool)
    | Created(ok: bool)
    | Updated(ok: bool)
    | Deleted(ok: bool)

  datatype Session = Session(sid: nat, rv: nat, user: UserObject, phase: Phase)

  datatype Answer = Found | NotFound | Failed

  datatype Event =
    | GetCalled(sid: nat, uid: nat, id: string, answer: Answer)
    | CreateCalled(sid: nat, uid: nat)
    | CreatedUser(uid: nat, id: string)   // the request was answered with an ID
    | LostUser(uid: nat, id: string)      // it took effect, but the answer was lost
    | UpdateCalled(sid: nat, uid: nat, id: string)
    | DeleteCalled(sid: nat, uid: nat, id: string)
    | Released(sid: nat, uid: nat)

  /** `issued` holds every ID the service handed out so far. */
  datatype World = World(
    stored: map<string, Stored>,
    sessions: map<string, Session>,
    users: Users,
    issued: set<string>,
    log: seq<Event>,
    clock: nat)

  datatype Action =
    // users and others
    | UserCreate(name: string, annotations: map<string, string>, spec: UserSpec)
    | UserUpdate(name: string, annotations: map<string, string>, spec: UserSpec)
    | UserDelete(name: string)
    | OutsideWrite(id: string, user: CsUser)
    | OutsideRemove(id: string)
    // the reconciler
    | Begin(name: string, connects: bool)
    | Observe(name: string, read: ReadFault)
    | Create(name: string, id: string, keys: Keys, fault: CallFault, secret: CallFault)
    | Update(name: string, faults: C.UpdateFaults)
    | Delete(name: string, fault: CallFault)
    | PersistStatus(name: string, removalSticks: bool)
    | PersistAnnotations(name: string)
    | WriteMetadata(name: string)  // before Create; replaces the copy by the answer
    | Release(name: string)
    | ReleaseFails(name: string)
    | ReleaseOrphan(name: string)
    | Abort(name: string)

  predicate Active(w: World, r: string) {
    r in w.sessions && r in w.stored
  }

  predicate Fresh(w: World, r: string) {
    Active(w, r) && w.sessions[r].rv == w.stored[r].rv
  }

  predicate Storable(s: Session) {
    match s.phase
    case Stopped => true
    case Updated(_) => true
    case Deleted(_) => true
    case Saw(found, upToDate) => found && upToDate && !s.user.deleting
    case _ => false
  }

  predicate Missing(w: World, r: string) {
    Active(w, r) && w.sessions[r].phase.Saw? && !w.sessions[r].phase.found
  }

  predicate Enabled(w: World, a: Action) {
    match a
    case UserCreate(r, _, _) => r !in w.stored && r != ""
    case UserUpdate(r, _, _) => r in w.stored
    case UserDelete(r) => r in w.stored
    case OutsideWrite(id, _) => id != "" && (id in w.users || id !in w.issued)
    case OutsideRemove(id) => id in w.users
    case Begin(r, _) =>
      r in w.stored && r !in w.sessions && !(w.stored[r].user.deleting && w.stored[r].user.spec.orphan)
    case Observe(r, _) => Active(w, r) && w.sessions[r].phase == Connected
    case Create(r, id, _, _, _) =>
      Missing(w, r) && !w.sessions[r].user.deleting && id != "" && id !in w.issued
    case Update(r, _) => Active(w, r) && w.sessions[r].phase == Saw(true, false) && !w.sessions[r].user.deleting
    case Delete(r, _) =>
      Active(w, r) && w.sessions[r].phase.Saw? && w.sessions[r].phase.found && w.sessions[r].user.deleting
    case PersistStatus(r, _) => Fresh(w, r) && Storable(w.sessions[r])
    case PersistAnnotations(r) => Active(w, r) && w.sessions[r].phase.Created?
    case WriteMetadata(r) => Missing(w, r) && !w.sessions[r].user.deleting && Fresh(w, r)
    case Release(r) => Missing(w, r) && w.sessions[r].user.deleting && Fresh(w, r)
    case ReleaseFails(r) => Missing(w, r) && w.sessions[r].user.deleting && Fresh(w, r)
    case ReleaseOrphan(r) =>
      r in w.stored && r !in w.sessions && w.stored[r].user.deleting && w.stored[r].user.spec.orphan
    case Abort(r) => r in w.sessions
  }

  function Write(w: World, r: string, u: UserObject): World {
    w.(stored := w.stored[r := Stored(w.clock, u)], clock := w.clock + 1)
  }

  function EndSession(w: World, r: string): World {
    w.(sessions := w.sessions - {r})
  }

  function ObserveSession(users: Users, s: Session, read: ReadFault): (Session, seq<Event>) {
    var (u, obs) := C.Observe(s.user, users, read);
    var id := u.status.userID;
    (s.(user := u, phase := if obs.ObserveFailed? then Stopped else Saw(obs.found, obs.upToDate)),
     if C.TakeOver(s.user).None? then []
     else [GetCalled(s.sid, s.user.uid, id, AnswerOf(Get(users, id, read)))])
  }

  function AnswerOf(reply: GetReply): Answer {
    match reply
    case Got(_) => Found
    case GetError(code) => if code == NOT_FOUND then NotFound else Failed
  }

  /** Whether Create asks the service for a user, and whether it gets one. */
  predicate Asks(s: Session) {
    s.user.status.userID == ""
  }

  function CreateEvents(s: Session, id: string, fault: CallFault): seq<Event> {
    var call := CreateCalled(s.sid, s.user.uid);
    if !Asks(s) then []
    else if fault == FailsBefore then [call]
    else [call, if fault == Works then CreatedUser(s.user.uid, id) else LostUser(s.user.uid, id)]
  }

  function UpdateEvents(s: Session, users: Users, faults: C.UpdateFaults): seq<Event> {
    var call := UpdateCalled(s.sid, s.user.uid, s.user.status.userID);
    if UpdateUser(users, s.user.status.userID, C.NameRequest(s.user), faults.name).1 then [call, call] else [call]
  }

  function Concluded(status: UserStatus, ready: Option<Condition>, synced: Condition): UserStatus {
    var conds := if ready.Some? then SetCondition(status.conditions, ready.value) else status.conditions;
    status.(conditions := SetCondition(conds, synced))
  }

  function FinalStatus(s: Session): UserStatus {
    match s.phase
    case Deleted(ok) => Concluded(s.user.status, Some(DELETING), if ok then RECONCILE_SUCCESS else RECONCILE_ERROR)
    case Updated(ok) => Concluded(s.user.status, None, if ok then RECONCILE_SUCCESS else RECONCILE_ERROR)
    case Saw(_, _) => Concluded(s.user.status, None, RECONCILE_SUCCESS)
    case _ => Concluded(s.user.status, None, RECONCILE_ERROR)
  }

  /** The annotations in store after status was written: the ID annotation
      goes only if the session dropped it and the removal sticks. */
  function KeptAnnotations(stored: UserObject, copy: UserObject, removalSticks: bool): map<string, string> {
    if removalSticks && !C.HasIdAnnotation(copy) then stored.annotations - {USER_ID_ANNOTATION} else stored.annotations
  }

  function Step(w: World, a: Action): World
    requires Enabled(w, a)
  {
    match a
    case UserCreate(r, annotations, spec) =>
      Write(w, r, UserObject(r, w.clock, annotations, false, spec, NO_STATUS))
    case UserUpdate(r, annotations, spec) =>
      Write(w, r, w.stored[r].user.(annotations := annotations, spec := spec))
    case UserDelete(r) => Write(w, r, w.stored[r].user.(deleting := true))
    case OutsideWrite(id, user) => w.(users := w.users[id := user], issued := w.issued + {id})
    case OutsideRemove(id) => w.(users := w.users - {id})
    case Begin(r, connects) =>
      var s := Session(w.clock, w.stored[r].rv, w.stored[r].user, if connects then Connected else Stopped);
      w.(sessions := w.sessions[r := s], clock := w.clock + 1)
    case Observe(r, read) =>
      var (s, events) := ObserveSession(w.users, w.sessions[r], read);
      w.(sessions := w.sessions[r := s], log := w.log + events)
    case Create(r, id, keys, fault, secret) =>
      var s := w.sessions[r];
      var out := C.Create(s.user, w.users, id, keys, fault, secret);
      w.(sessions := w.sessions[r := s.(user := out.user, phase := Created(out.ok))],
         users := out.users, issued := w.issued + {id}, log := w.log + CreateEvents(s, id, fault))
    case Update(r, faults) =>
      var s := w.sessions[r];
      var (after, ok) := C.Update(s.user, w.users, faults);
      w.(sessions := w.sessions[r := s.(phase := Updated(ok))],
         users := after, log := w.log + UpdateEvents(s, w.users, faults))
    case Delete(r, fault) =>
      var s := w.sessions[r];
      var (after, ok) := C.Delete(s.user, w.users, fault);
      w.(sessions := w.sessions[r := s.(phase := Deleted(ok))],
         users := after, log := w.log + [DeleteCalled(s.sid, s.user.uid, s.user.status.userID)])
    case PersistStatus(r, sticks) =>
      var s, u := w.sessions[r], w.stored[r].user;
      var u' := u.(status := FinalStatus(s), annotations := KeptAnnotations(u, s.user, sticks));
      EndSession(Write(w, r, u'), r)
    case PersistAnnotations(r) =>
      var u := w.stored[r].user;
      EndSession(Write(w, r, u.(annotations := u.annotations + w.sessions[r].user.annotations)), r)
    case WriteMetadata(r) =>
      var s, u := w.sessions[r], w.stored[r].user;
      var u' := u.(annotations := s.user.annotations);
      Write(w, r, u').(sessions := w.sessions[r := s.(rv := w.clock, user := u')])
    case Release(r) =>
      var s := w.sessions[r];
      EndSession(w.(stored := w.stored - {r}, log := w.log + [Released(s.sid, s.user.uid)]), r)
    case ReleaseFails(r) =>
      var s := w.sessions[r];
      var u' := w.stored[r].user.(status := Concluded(s.user.status, Some(DELETING), RECONCILE_ERROR));
      EndSession(Write(w, r, u'), r)
    case ReleaseOrphan(r) => w.(stored := w.stored - {r})
    case Abort(r) => EndSession(w, r)
  }

  // ---- hypotheses

  datatype Hypothesis =
    | AnnotationsStored  // what Create put into the annotations is stored
    | RemovalWithStatus  // the ID annotation is not removed without storing the ID in status
    | IdUntouched        // users leave the ID annotation alone

  predicate SameId(a: map<string, string>, b: map<string, string>) {
    && (USER_ID_ANNOTATION in a <==> USER_ID_ANNOTATION in b)
    && (USER_ID_ANNOTATION in a ==> a[USER_ID_ANNOTATION] == b[USER_ID_ANNOTATION])
  }

  /** The witness runs show that none of these can be dropped. */
  predicate Obeys(h: Hypothesis, w: World, a: Action) {
    match h
    case AnnotationsStored =>
      a.Abort? && Active(w, a.name) && w.sessions[a.name].phase.Created? ==>
        (C.HasIdAnnotation(w.sessions[a.name].user) ==> C.HasIdAnnotation(w.stored[a.name].user))
    case RemovalWithStatus =>
      a.WriteMetadata? && Active(w, a.name) && C.HasIdAnnotation(w.stored[a.name].user) ==>
        C.HasIdAnnotation(w.sessions[a.name].user)
    case IdUntouched =>
      && (a.UserCreate? ==> USER_ID_ANNOTATION !in a.annotations)
      && (a.UserUpdate? && a.name in w.stored ==> SameId(a.annotations, w.stored[a.name].user.annotations))
  }

  predicate Disciplined(w: World, a: Action) {
    ObeysAllBut({}, w, a)
  }

  /** Every hypothesis holds for the action, except possibly those in `but`. */
  predicate ObeysAllBut(but: set<Hypothesis>, w: World, a: Action) {
    && (AnnotationsStored !in but ==> Obeys(AnnotationsStored, w, a))
    && (RemovalWithStatus !in but ==> Obeys(RemovalWithStatus, w, a))
    && (IdUntouched !in but ==> Obeys(IdUntouched, w, a))
  }

  // ---- runs

  predicate Initial(w: World) {
    w.stored == map[] && w.sessions == map[] && w.log == [] && w.users.Keys <= w.issued
  }

  predicate RunBut(but: set<Hypothesis>, w: World, acts: seq<Action>)
    decreases |acts|
  {
    acts == []
    || (Enabled(w, acts[0]) && ObeysAllBut(but, w, acts[0]) && RunBut(but, Step(w, acts[0]), acts[1..]))
  }

  predicate Run(w: World, acts: seq<Action>) {
    RunBut({}, w, acts)
  }

  function After(but: set<Hypothesis>, w: World, acts: seq<Action>): World
    requires RunBut(but, w, acts)
    decreases |acts|
  {
    if acts == [] then w else After(but, Step(w, acts[0]), acts[1..])
  }
}

/** Convergence of an ObjectsUser: while its specification stays and nobody
    else changes or removes its user, every step of a reconcile brings the
    user closer to what is desired or leaves it where it is. */
module UserConvergence {
  import opened Kube
  import opened Credentials
  import opened UserApi
  import opened UserService
  import opened UserProtocol
  import opened UserIdentity
  import C = UserController

  /** The ID of the user of `r`: in store, or about to be stored. */
  function IdOf(w: World, r: string): string
    requires r in w.stored
  {
    var ids := Ids(w.stored[r].user);
    if ids.0 != "" then ids.0
    else if ids.1.Some? then ids.1.value
    else if r in w.sessions && w.sessions[r].phase.Created? && Ids(w.sessions[r].user).1.Some?
    then Ids(w.sessions[r].user).1.value
    else ""
  }

  /** 2: there is no user. 1: name or tags differ. 0: up to date. */
  function Rank(w: World, r: string): nat
    requires r in w.stored
  {
    var id := IdOf(w, r);
    if id == "" then 2
    else if id in w.users && C.AsDesired(w.stored[r].user, w.users[id]) then 0
    else 1
  }

  /** The user of `r` is there, and has the desired name and tags. */
  predicate UpToDate(w: World, r: string)
    requires r in w.stored
  {
    IdOf(w, r) in w.users && C.AsDesired(w.stored[r].user, w.users[IdOf(w, r)])
  }

  /** Two versions of a resource that ask for the same. */
  predicate SameWish(u: UserObject, v: UserObject) {
    && u.name == v.name && u.uid == v.uid && u.spec == v.spec
    && u.annotations - {USER_ID_ANNOTATION} == v.annotations - {USER_ID_ANNOTATION}
  }

  lemma SameWishSettles(u: UserObject, v: UserObject, cs: CsUser)
    requires SameWish(u, v)
    ensures GetDisplayName(u) == GetDisplayName(v)
    ensures C.AsDesired(u, cs) == C.AsDesired(v, cs)
  {
    AnnotationsDiffer();
    var k := EXTERNAL_NAME_ANNOTATION;
    assert k in u.annotations <==> k in u.annotations - {USER_ID_ANNOTATION};
    assert k in v.annotations <==> k in v.annotations - {USER_ID_ANNOTATION};
    if k in u.annotations {
      assert (u.annotations - {USER_ID_ANNOTATION})[k] == u.annotations[k];
      assert (v.annotations - {USER_ID_ANNOTATION})[k] == v.annotations[k];
    }
  }

  /** Anything may happen but a change or deletion of the resource, a change or
      removal of its user by others, or a wrong 404 for it. */
  predicate Leaves(w: World, a: Action, r: string)
    requires r in w.stored
  {
    match a
    case UserUpdate(q, _, _) => q != r
    case UserDelete(q) => q != r
    case OutsideWrite(id, _) => id != IdOf(w, r)
    case OutsideRemove(id) => id != IdOf(w, r)
    case Observe(q, read) => q == r ==> read != Fails(NOT_FOUND)
    case _ => true
  }

  /** The reconcile found the user up to date, or made it so. */
  predicate Succeeded(s: Session) {
    s.phase == Saw(true, true) || s.phase == Created(true) || s.phase == Updated(true)
  }

  predicate SessionSteady(w: World, r: string)
    requires r in w.stored && r in w.sessions
  {
    var s := w.sessions[r];
    && SameWish(s.user, w.stored[r].user)
    && (s.phase == Connected ==> Ids(s.user) == Ids(w.stored[r].user))
    && (s.phase.Saw? && !s.phase.found ==> Asks(s))
    && (s.phase.Saw? && s.phase.found ==> Ids(s.user).0 == IdOf(w, r))
    && (s.phase == Saw(true, false) ==> Rank(w, r) == 1)
    && (Succeeded(s) ==> Rank(w, r) == 0)
  }

  /** The resource and its user live, and a reconcile knows what is desired. */
  ghost predicate Steady(w: World, r: string) {
    && Sound(w)
    && r in w.stored && !w.stored[r].user.deleting
    && (IdOf(w, r) != "" ==> IdOf(w, r) in w.users && CreatedFor(w.log, w.stored[r].user.uid, IdOf(w, r)))
    && (r in w.sessions ==> SessionSteady(w, r))
  }

  /** Between reconciles, every reachable state is steady in which the resource
      is not being deleted and its user, if it has one, is still there. */
  lemma ReachableIsSteady(w: World, acts: seq<Action>, r: string)
    requires Initial(w) && Run(w, acts)
    requires var w' := After({}, w, acts);
      && r in w'.stored && r !in w'.sessions && !w'.stored[r].user.deleting
      && (IdOf(w', r) != "" ==> IdOf(w', r) in w'.users)
    ensures Steady(After({}, w, acts), r)
  {
    RunSound(w, acts);
    assert ResourceOk(After({}, w, acts), r);
  }

  /** Events that change users on behalf of the resource with this `uid`. */
  predicate Writes(e: Event, uid: nat) {
    match e
    case CreateCalled(_, u) => u == uid
    case CreatedUser(u, _) => u == uid
    case LostUser(u, _) => u == uid
    case UpdateCalled(_, u, _) => u == uid
    case DeleteCalled(_, u, _) => u == uid
    case _ => false
  }

  predicate NoWrites(before: seq<Event>, after: seq<Event>, uid: nat) {
    before <= after && forall i :: |before| <= i < |after| ==> !Writes(after[i], uid)
  }

  // ---- steps elsewhere

  /** The action is about another resource or comes from outside. */
  predicate Elsewhere(a: Action, r: string) {
    a.OutsideWrite? || a.OutsideRemove? || a.name != r
  }

  /** A reconcile of another resource leaves the user of `r` alone. */
  lemma UserKept(w: World, a: Action, r: string)
    requires Steady(w, r) && Enabled(w, a) && Leaves(w, a, r) && Elsewhere(a, r) && IdOf(w, r) != ""
    ensures IdOf(w, r) in Step(w, a).users && Step(w, a).users[IdOf(w, r)] == w.users[IdOf(w, r)]
  {
    if a.Update? || a.Delete? {
      var s := w.sessions[a.name];
      assert ResourceOk(w, a.name);
      if s.user.status.userID == IdOf(w, r) {
        IdsUnique(w.log, s.user.uid, w.stored[r].user.uid, IdOf(w, r));
        assert false;
      }
      if a.Update? {
        C.UpdateEffect(s.user, w.users, a.faults);
      }
    }
  }

  lemma StepElsewhere(w: World, a: Action, r: string)
    requires Steady(w, r) && Enabled(w, a) && Disciplined(w, a) && Leaves(w, a, r) && Elsewhere(a, r)
    ensures Steady(Step(w, a), r) && Rank(Step(w, a), r) == Rank(w, r)
    ensures IdOf(Step(w, a), r) == IdOf(w, r)
  {
    var w' := Step(w, a);
    StepSound(w, a);
    SameResource(w, a, r);
    if IdOf(w, r) != "" {
      UserKept(w, a, r);
    }
  }

  lemma SameResource(w: World, a: Action, r: string)
    requires Enabled(w, a) && Elsewhere(a, r) && r in w.stored
    ensures var w' := Step(w, a);
      && r in w'.stored && w'.stored[r] == w.stored[r]
      && (r in w'.sessions <==> r in w.sessions)
      && (r in w.sessions ==> w'.sessions[r] == w.sessions[r])
      && w.log <= w'.log
  {
  }

  /** Nothing that is appended elsewhere is a write for this resource. */
  lemma NoWritesElsewhere(w: World, a: Action, r: string)
    requires Steady(w, r) && Enabled(w, a) && Elsewhere(a, r)
    ensures NoWrites(w.log, Step(w, a).log, w.stored[r].user.uid)
  {
    if !a.OutsideWrite? && !a.OutsideRemove? {
      assert ResourceOk(w, a.name);
    }
  }

  // ---- steps of the reconcile itself

  lemma BeginSteady(w: World, a: Action, r: string)
    requires Steady(w, r) && Enabled(w, a) && Disciplined(w, a) && a.Begin? && a.name == r
    ensures Steady(Step(w, a), r) && Rank(Step(w, a), r) == Rank(w, r) && IdOf(Step(w, a), r) == IdOf(w, r)
  {
    StepSound(w, a);
  }

  lemma ObserveKeepsWish(u: UserObject, users: Users, read: ReadFault)
    ensures SameWish(C.Observe(u, users, read).0, u)
  {
  }

  /** What Observe answers for a user that is there. */
  lemma ObserveAnswer(u: UserObject, users: Users, read: ReadFault)
    requires C.TakeOver(u).Some? && read != Fails(NOT_FOUND)
    requires var id := C.TakeOver(u).value.status.userID; id in users
    ensures var (o, obs) := C.Observe(u, users, read); var id := C.TakeOver(u).value.status.userID;
      && Ids(o).0 == id
      && (obs.Observed? ==> obs.found && (obs.upToDate <==> C.AsDesired(o, users[id])))
  {
    var id := C.TakeOver(u).value.status.userID;
    C.SettledExactly(C.TakeOver(u).value, users[id]);
    C.SettledExactly(C.Observe(u, users, read).0, users[id]);
  }

  lemma ObserveSteady(w: World, a: Action, r: string)
    requires Steady(w, r) && Enabled(w, a) && Disciplined(w, a) && Leaves(w, a, r) && a.Observe? && a.name == r
    ensures Steady(Step(w, a), r) && Rank(Step(w, a), r) == Rank(w, r) && IdOf(Step(w, a), r) == IdOf(w, r)
  {
    StepSound(w, a);
    assert ResourceOk(w, r);
    var s, id := w.sessions[r], IdOf(w, r);
    ObserveKeepsWish(s.user, w.users, a.read);
    if id != "" {
      ObserveAnswer(s.user, w.users, a.read);
      SameWishSettles(C.Observe(s.user, w.users, a.read).0, w.stored[r].user, w.users[id]);
    }
  }

  /** A user that was just created is what the resource asks for. */
  lemma CreatedSettled(u: UserObject, v: UserObject, users: Users, a: Action)
    requires a.Create? && u.status.userID == "" && u.name != "" && SameWish(u, v)
    ensures var out := C.Create(u, users, a.id, a.keys, a.fault, a.secret);
      && SameWish(out.user, v)
      && (a.fault == Works ==>
            && a.id in out.users && C.AsDesired(v, out.users[a.id])
            && out.user == u.(annotations := u.annotations[USER_ID_ANNOTATION := a.id]))
      && (a.fault != Works ==> out.user == u && !out.ok)
  {
    var out := C.Create(u, users, a.id, a.keys, a.fault, a.secret);
    assert out.user.annotations - {USER_ID_ANNOTATION} == u.annotations - {USER_ID_ANNOTATION};
    C.TwoRequestsAreOne(u, CsUser("", map[], a.keys));
    SameWishSettles(u, v, Patch(CsUser("", map[], a.keys), C.CreateRequest(u)));
  }

  lemma CreateSteady(w: World, a: Action, r: string)
    requires Steady(w, r) && Enabled(w, a) && Disciplined(w, a) && a.Create? && a.name == r
    ensures Steady(Step(w, a), r) && Rank(w, r) == 2
    ensures Rank(Step(w, a), r) == 0 || (Rank(Step(w, a), r) == 2 && !Succeeded(Step(w, a).sessions[r]))
  {
    StepSound(w, a);
    assert ResourceOk(w, r);
    var w', s := Step(w, a), w.sessions[r];
    NothingYet(w, r);
    CreatedSettled(s.user, w.stored[r].user, w.users, a);
    if a.fault == Works {
      assert Ids(w'.sessions[r].user) == ("", Some(a.id));
      CreatedIsLogged(w, a);
    } else {
      assert w'.sessions[r].user == s.user;
    }
  }

  lemma CreatedIsLogged(w: World, a: Action)
    requires Enabled(w, a) && a.Create? && Asks(w.sessions[a.name]) && a.fault == Works
    ensures CreatedFor(Step(w, a).log, w.sessions[a.name].user.uid, a.id)
  {
    assert CreateEvents(w.sessions[a.name], a.id, a.fault)[1] in Step(w, a).log;
  }

  lemma UpdateSteady(w: World, a: Action, r: string)
    requires Steady(w, r) && Enabled(w, a) && Disciplined(w, a) && a.Update? && a.name == r
    ensures Steady(Step(w, a), r) && Rank(w, r) == 1 && Rank(Step(w, a), r) <= 1
    ensures Succeeded(Step(w, a).sessions[r]) ==> Rank(Step(w, a), r) == 0
    ensures IdOf(Step(w, a), r) == IdOf(w, r)
  {
    StepSound(w, a);
    assert ResourceOk(w, r);
    var w', s, id := Step(w, a), w.sessions[r], IdOf(w, r);
    C.UpdateEffect(s.user, w.users, a.faults);
    SameWishSettles(s.user, w.stored[r].user, w'.users[id]);
  }

  lemma PersistSteady(w: World, a: Action, r: string)
    requires Steady(w, r) && Enabled(w, a) && Disciplined(w, a)
    requires (a.PersistStatus? || a.PersistAnnotations?) && a.name == r
    ensures Steady(Step(w, a), r) && Rank(Step(w, a), r) == Rank(w, r) && IdOf(Step(w, a), r) == IdOf(w, r)
  {
    StepSound(w, a);
    assert ResourceOk(w, r);
    PersistKeepsWish(w, a, r);
    if IdOf(w, r) != "" {
      SameWishSettles(Step(w, a).stored[r].user, w.stored[r].user, w.users[IdOf(w, r)]);
    }
  }

  lemma PersistKeepsWish(w: World, a: Action, r: string)
    requires Enabled(w, a) && r in w.sessions && r in w.stored && SessionSteady(w, r)
    requires (a.PersistStatus? || a.PersistAnnotations?) && a.name == r
    ensures SameWish(Step(w, a).stored[r].user, w.stored[r].user)
  {
    var u, u' := w.stored[r].user, Step(w, a).stored[r].user;
    assert u'.annotations - {USER_ID_ANNOTATION} == u.annotations - {USER_ID_ANNOTATION};
  }

  lemma AbortSteady(w: World, a: Action, r: string)
    requires Steady(w, r) && Enabled(w, a) && Disciplined(w, a) && a.Abort? && a.name == r
    ensures Steady(Step(w, a), r) && Rank(Step(w, a), r) == Rank(w, r) && IdOf(Step(w, a), r) == IdOf(w, r)
  {
    StepSound(w, a);
    assert ResourceOk(w, r);
  }

  lemma WriteMetadataSteady(w: World, a: Action, r: string)
    requires Steady(w, r) && Enabled(w, a) && Disciplined(w, a) && a.WriteMetadata? && a.name == r
    ensures Steady(Step(w, a), r) && Rank(Step(w, a), r) == Rank(w, r) && IdOf(Step(w, a), r) == IdOf(w, r)
  {
    StepSound(w, a);
    assert ResourceOk(w, r);
  }

  // ---- every step

  lemma StepSteady(w: World, a: Action, r: string)
    requires Steady(w, r) && Enabled(w, a) && Disciplined(w, a) && Leaves(w, a, r)
    ensures Steady(Step(w, a), r) && Rank(Step(w, a), r) <= Rank(w, r)
    ensures Rank(w, r) == 0 ==> IdOf(Step(w, a), r) == IdOf(w, r)
  {
    if Elsewhere(a, r) {
      StepElsewhere(w, a, r);
    } else if a.Begin? {
      BeginSteady(w, a, r);
    } else if a.Observe? {
      ObserveSteady(w, a, r);
    } else if a.Create? {
      CreateSteady(w, a, r);
    } else if a.Update? {
      UpdateSteady(w, a, r);
    } else if a.WriteMetadata? {
      WriteMetadataSteady(w, a, r);
    } else if a.Abort? {
      AbortSteady(w, a, r);
    } else {
      assert ResourceOk(w, r);
      PersistSteady(w, a, r);
    }
  }

  /** At rank 0 no write is made for the resource, and its user stays as it is. */
  lemma StepAtZero(w: World, a: Action, r: string)
    requires Steady(w, r) && Enabled(w, a) && Disciplined(w, a) && Leaves(w, a, r) && Rank(w, r) == 0
    ensures NoWrites(w.log, Step(w, a).log, w.stored[r].user.uid)
    ensures IdOf(w, r) in Step(w, a).users && Step(w, a).users[IdOf(w, r)] == w.users[IdOf(w, r)]
  {
    if Elsewhere(a, r) {
      NoWritesElsewhere(w, a, r);
      UserKept(w, a, r);
    } else {
      assert ResourceOk(w, r);
      if a.Create? {
        CreateSteady(w, a, r);
      } else if a.Update? {
        UpdateSteady(w, a, r);
      }
    }
  }

  // ---- runs

  predicate SteadyRun(w: World, acts: seq<Action>, r: string)
    decreases |acts|
  {
    acts == []
    || (r in w.stored && Enabled(w, acts[0]) && Disciplined(w, acts[0]) && Leaves(w, acts[0], r)
        && SteadyRun(Step(w, acts[0]), acts[1..], r))
  }

  /** In every run, however reconciles fail and interleave, the rank never
      grows; and it is 0 whenever a reconcile of the resource succeeded. */
  lemma {:induction false} NeverWorse(w: World, acts: seq<Action>, r: string)
    requires Steady(w, r) && SteadyRun(w, acts, r)
    ensures Run(w, acts) && Steady(After({}, w, acts), r)
    ensures Rank(After({}, w, acts), r) <= Rank(w, r)
    ensures var w' := After({}, w, acts);
      r in w'.sessions && Succeeded(w'.sessions[r]) ==> Rank(w', r) == 0 && UpToDate(w', r)
    decreases |acts|
  {
    if acts != [] {
      StepSteady(w, acts[0], r);
      NeverWorse(Step(w, acts[0]), acts[1..], r);
    }
  }

  /** Rank 0 is a fixed point: from there on no run makes an API write for the
      resource, and the user stays exactly as it is. */
  lemma {:induction false} ZeroIsFixed(w: World, acts: seq<Action>, r: string)
    requires Steady(w, r) && SteadyRun(w, acts, r) && Rank(w, r) == 0
    ensures Run(w, acts) && Steady(After({}, w, acts), r) && Rank(After({}, w, acts), r) == 0
    ensures var w' := After({}, w, acts);
      && NoWrites(w.log, w'.log, w.stored[r].user.uid)
      && IdOf(w', r) == IdOf(w, r) && w'.users[IdOf(w, r)] == w.users[IdOf(w, r)]
    decreases |acts|
  {
    if acts != [] {
      var next := Step(w, acts[0]);
      StepSteady(w, acts[0], r);
      StepAtZero(w, acts[0], r);
      SameUid(w, acts[0], r);
      ZeroIsFixed(next, acts[1..], r);
    }
  }

  lemma SameUid(w: World, a: Action, r: string)
    requires Steady(w, r) && Enabled(w, a) && Steady(Step(w, a), r)
    ensures Step(w, a).stored[r].user.uid == w.stored[r].user.uid
  {
  }

  /** One successful reconcile is enough for ever: after it, whatever the run
      does, the user is up to date and no write is made for it. */
  lemma Convergence(w: World, first: seq<Action>, later: seq<Action>, r: string)
    requires Steady(w, r) && SteadyRun(w, first, r) && Run(w, first)
    requires var mid := After({}, w, first);
      r in mid.sessions && Succeeded(mid.sessions[r]) && SteadyRun(mid, later, r)
    ensures var mid := After({}, w, first);
      && Run(mid, later) && Steady(After({}, mid, later), r)
      && Rank(After({}, mid, later), r) == 0 && UpToDate(After({}, mid, later), r)
      && NoWrites(mid.log, After({}, mid, later).log, mid.stored[r].user.uid)
  {
    NeverWorse(w, first, r);
    ZeroIsFixed(After({}, w, first), later, r);
  }

  lemma {:induction false} SteadyThen(w: World, acts: seq<Action>, a: Action, r: string)
    requires Steady(w, r) && SteadyRun(w, acts, r) && Run(w, acts)
    requires var w' := After({}, w, acts);
      Enabled(w', a) && Disciplined(w', a) && r in w'.stored && Leaves(w', a, r)
    ensures SteadyRun(w, acts + [a], r) && Run(w, acts + [a])
    ensures After({}, w, acts + [a]) == Step(After({}, w, acts), a)
    decreases |acts|
  {
    if acts == [] {
      assert acts + [a] == [a];
    } else {
      StepSteady(w, acts[0], r);
      SteadyThen(Step(w, acts[0]), acts[1..], a, r);
      assert (acts + [a])[1..] == acts[1..] + [a];
    }
  }

  lemma Started(w: World, r: string) returns (acts: seq<Action>)
    requires Steady(w, r) && r !in w.sessions
    ensures SteadyRun(w, acts, r) && Run(w, acts) && Steady(After({}, w, acts), r)
    ensures Active(After({}, w, acts), r) && After({}, w, acts).issued == w.issued
    ensures After({}, w, acts).sessions[r].phase == Connected && !After({}, w, acts).sessions[r].user.deleting
  {
    SteadyThen(w, [], Begin(r, true), r);
    StepSteady(w, Begin(r, true), r);
    acts := [] + [Begin(r, true)];
  }

  lemma LookAnswers(w: World, r: string)
    requires Steady(w, r) && Active(w, r) && w.sessions[r].phase == Connected && !w.sessions[r].user.deleting
    ensures var w' := Step(w, Observe(r, Answers));
      && Steady(w', r) && Active(w', r) && w'.issued == w.issued
      && w'.sessions[r].phase in {Saw(true, true), Saw(true, false), Saw(false, false)}
      && !w'.sessions[r].user.deleting
  {
    StepSteady(w, Observe(r, Answers), r);
  }

  /** A reconcile without failures looks at the resource. */
  lemma LooksAt(w: World, r: string) returns (acts: seq<Action>)
    requires Steady(w, r) && r !in w.sessions
    ensures SteadyRun(w, acts, r) && Run(w, acts) && Steady(After({}, w, acts), r)
    ensures Active(After({}, w, acts), r) && After({}, w, acts).issued == w.issued
    ensures var s := After({}, w, acts).sessions[r];
      s.phase in {Saw(true, true), Saw(true, false), Saw(false, false)} && !s.user.deleting
  {
    var start := Started(w, r);
    LookAnswers(After({}, w, start), r);
    SteadyThen(w, start, Observe(r, Answers), r);
    acts := start + [Observe(r, Answers)];
  }

  /** And it can always succeed: from any steady state between reconciles, one
      reconcile without failures reaches rank 0. */
  lemma OneReconcileSuffices(w: World, r: string, id: string, keys: Keys) returns (acts: seq<Action>)
    requires Steady(w, r) && r !in w.sessions && id != "" && id !in w.issued
    ensures SteadyRun(w, acts, r) && Run(w, acts) && Steady(After({}, w, acts), r)
    ensures r in After({}, w, acts).sessions && Succeeded(After({}, w, acts).sessions[r])
    ensures Rank(After({}, w, acts), r) == 0 && UpToDate(After({}, w, acts), r)
  {
    acts := LooksAt(w, r);
    var mid := After({}, w, acts);
    if mid.sessions[r].phase != Saw(true, true) {
      var a := if mid.sessions[r].phase.found then Update(r, C.UpdateFaults(Works, Works, Works))
               else Create(r, id, keys, Works, Works);
      SteadyThen(w, acts, a, r);
      acts := acts + [a];
      StepSteady(mid, a, r);
      ActSucceeds(mid, a, r);
    }
    NeverWorse(w, acts, r);
  }

  lemma ActSucceeds(w: World, a: Action, r: string)
    requires Steady(w, r) && Enabled(w, a) && (a.Create? || a.Update?) && a.name == r
    requires a.Create? ==> a.fault == Works && a.secret == Works
    requires a.Update? ==> a.faults == C.UpdateFaults(Works, Works, Works)
    ensures r in Step(w, a).sessions && Succeeded(Step(w, a).sessions[r])
  {
  }
}

/** Main results about every run of the ObjectsUser protocol. */
module UserTheorems {
  import opened History
  import opened UserApi
  import opened UserProtocol
  import opened UserIdentity
  import C = UserController

  // ---- at most one user per resource

  /** Whatever fails in between, and however often Observe answers 404: two
      create requests that were answered with an ID belong to two resources. */
  lemma AtMostOnce(w: World, acts: seq<Action>, i: nat, j: nat)
    requires Initial(w) && Run(w, acts)
    requires i < j < |After({}, w, acts).log|
    ensures var log := After({}, w, acts).log;
      log[i].CreatedUser? && log[j].CreatedUser? ==> log[i].uid != log[j].uid && log[i].id != log[j].id
  {
    RunSound(w, acts);
    var log := After({}, w, acts).log;
    assert Justified(log[..j], log[j]);
    assert log[..j][i] == log[i];
  }

  // ---- no lost identity

  /** The ID of every user that was created for a stored resource is recorded
      in its annotation or status, unless the reconcile that created it is
      about to store it. Both agree, and no other ID is ever recorded. */
  lemma NoLostIdentity(w: World, acts: seq<Action>, r: string, e: Event)
    requires Initial(w) && Run(w, acts) && r in After({}, w, acts).stored
    ensures var w' := After({}, w, acts); var st := w'.stored[r];
      && (e in w'.log && e.CreatedUser? && e.uid == st.user.uid ==>
            || HasId(Ids(st.user), e.id)
            || (r in w'.sessions && Pending(w'.sessions[r], st) && HasId(Ids(w'.sessions[r].user), e.id)))
      && IdsOk(st.user, w'.log)
  {
    RunSound(w, acts);
    assert ResourceOk(After({}, w, acts), r);
  }

  /** A request is answered or lost, never both, and a lost ID is not used again. */
  lemma LostIsNotCreated(log: seq<Event>, u: nat, v: nat, id: string)
    requires JustifiedLog(log, Justified) && LostUser(u, id) in log
    ensures id != "" && !CreatedFor(log, v, id)
  {
    var i :| 0 <= i < |log| && log[i] == LostUser(u, id);
    assert Justified(log[..i], log[i]);
  }

  /** Exactly the users whose create request was answered are recorded: the ID
      of one that was made for this resource is, unless its answer was lost;
      and an ID whose answer was lost is not recorded by any resource, nor by
      any reconcile. */
  lemma RecordedIffAnswered(w: World, acts: seq<Action>, r: string, e: Event)
    requires Initial(w) && Run(w, acts) && r in After({}, w, acts).stored
    requires e in After({}, w, acts).log && (e.CreatedUser? || e.LostUser?)
    ensures var w' := After({}, w, acts); var st := w'.stored[r];
      var known := HasId(Ids(st.user), e.id) || (r in w'.sessions && HasId(Ids(w'.sessions[r].user), e.id));
      && (known ==> e.CreatedUser? && e.uid == st.user.uid)
      && (e.uid == st.user.uid ==> (known <==> e.CreatedUser?))
  {
    RunSound(w, acts);
    var w' := After({}, w, acts);
    assert ResourceOk(w', r);
    if e.LostUser? {
      LostIsNotCreated(w'.log, e.uid, w'.stored[r].user.uid, e.id);
    } else {
      CreatedIdsNonEmpty(w'.log, e);
      assert CreatedFor(w'.log, e.uid, e.id);
      if CreatedFor(w'.log, w'.stored[r].user.uid, e.id) {
        IdsUnique(w'.log, e.uid, w'.stored[r].user.uid, e.id);
      }
    }
  }

  predicate StatusIs(w: World, r: string, uid: nat, id: string) {
    r in w.stored && w.stored[r].user.uid == uid && w.stored[r].user.status.userID == id != ""
  }

  predicate Gone(w: World, r: string, uid: nat) {
    uid < w.clock && (r in w.stored ==> w.stored[r].user.uid != uid)
  }

  lemma StatusStep(w: World, a: Action, r: string, uid: nat, id: string)
    requires Sound(w) && Enabled(w, a)
    ensures StatusIs(w, r, uid, id) ==> StatusIs(Step(w, a), r, uid, id) || Gone(Step(w, a), r, uid)
    ensures Gone(w, r, uid) ==> Gone(Step(w, a), r, uid)
  {
    assert ResourceOk(w, r);
  }

  lemma {:induction false} StatusRun(w: World, acts: seq<Action>, r: string, uid: nat, id: string)
    requires Sound(w) && Run(w, acts)
    requires StatusIs(w, r, uid, id) || Gone(w, r, uid)
    ensures StatusIs(After({}, w, acts), r, uid, id) || Gone(After({}, w, acts), r, uid)
    decreases |acts|
  {
    if acts != [] {
      StepSound(w, acts[0]);
      StatusStep(w, acts[0], r, uid, id);
      StatusRun(Step(w, acts[0]), acts[1..], r, uid, id);
    }
  }

  /** An ID in status never changes while the resource lives. */
  lemma StatusIdStays(w: World, first: seq<Action>, later: seq<Action>, r: string)
    requires Initial(w) && Run(w, first) && Run(After({}, w, first), later)
    requires r in After({}, w, first).stored && After({}, w, first).stored[r].user.status.userID != ""
    ensures var u := After({}, w, first).stored[r].user;
      var w' := After({}, After({}, w, first), later);
      r in w'.stored && w'.stored[r].user.uid == u.uid ==> w'.stored[r].user.status.userID == u.status.userID
  {
    RunSound(w, first);
    var u := After({}, w, first).stored[r].user;
    StatusRun(After({}, w, first), later, r, u.uid, u.status.userID);
  }

  // ---- own user only

  /** Every Get, Update and Delete call carries a non-empty ID that an earlier
      create request of the same resource was answered with. */
  lemma OwnUserOnly(w: World, acts: seq<Action>, i: nat)
    requires Initial(w) && Run(w, acts) && i < |After({}, w, acts).log|
    ensures var log := After({}, w, acts).log; var e := log[i];
      e.GetCalled? || e.UpdateCalled? || e.DeleteCalled? ==> e.id != "" && CreatedFor(log[..i], e.uid, e.id)
  {
    RunSound(w, acts);
    assert Justified(After({}, w, acts).log[..i], After({}, w, acts).log[i]);
  }

  predicate ByReconciler(a: Action) {
    !a.OutsideWrite? && !a.OutsideRemove?
  }

  /** Reconciling one resource leaves every user alone that was not created
      for it, and adds at most one that nobody had before. */
  lemma OthersUntouched(w: World, acts: seq<Action>, a: Action, id: string)
    requires Initial(w) && Run(w, acts) && Enabled(After({}, w, acts), a) && ByReconciler(a)
    ensures var before, after := After({}, w, acts), Step(After({}, w, acts), a);
      && (id in before.users && !(id in after.users && after.users[id] == before.users[id]) ==>
            a.name in before.stored && CreatedFor(before.log, before.stored[a.name].user.uid, id))
      && (id in after.users && id !in before.users ==> a.Create? && id == a.id && id !in before.issued)
  {
    RunSound(w, acts);
    var before := After({}, w, acts);
    if a.Update? {
      assert ResourceOk(before, a.name);
      C.UpdateEffect(before.sessions[a.name].user, before.users, a.faults);
    } else if a.Delete? {
      assert ResourceOk(before, a.name);
    }
  }

  // ---- release

  /** The finalizer is removed only if no user was ever created for the
      resource, or if a Get for its own ID answered 404 in that reconcile. */
  lemma SoundRelease(w: World, acts: seq<Action>, i: nat)
    requires Initial(w) && Run(w, acts) && i < |After({}, w, acts).log|
    ensures var log := After({}, w, acts).log; var e := log[i];
      e.Released? ==>
        || NothingCreated(log[..i], e.uid)
        || exists id :: GetCalled(e.sid, e.uid, id, NotFound) in log[..i] && CreatedFor(log[..i], e.uid, id)
  {
    RunSound(w, acts);
    var log := After({}, w, acts).log;
    assert Justified(log[..i], log[i]);
    if log[i].Released? && !NothingCreated(log[..i], log[i].uid) {
      var id :| GetCalled(log[i].sid, log[i].uid, id, NotFound) in log[..i];
      var k :| 0 <= k < i && log[k] == GetCalled(log[i].sid, log[i].uid, id, NotFound);
      assert Justified(log[..k], log[k]);
      assert CreatedUser(log[i].uid, id) in log[..i];
    }
  }

  // ---- errors

  /** Events by which a reconcile asks for something or gives something up. */
  predicate ActsIn(e: Event, sid: nat) {
    match e
    case CreateCalled(s, _) => s == sid
    case UpdateCalled(s, _, _) => s == sid
    case DeleteCalled(s, _, _) => s == sid
    case Released(s, _) => s == sid
    case _ => false
  }

  predicate FailedGet(e: Event) {
    e.GetCalled? && e.answer == Failed
  }

  /** A reconcile whose Get failed stands still until it is over. */
  ghost predicate Halting(w: World) {
    && (forall r :: r in w.sessions ==> w.sessions[r].sid < w.clock)
    && (forall q, r :: q in w.sessions && r in w.sessions && q != r ==> w.sessions[q].sid != w.sessions[r].sid)
    && (forall e :: e in w.log && e.GetCalled? ==> e.sid < w.clock)
    && (forall r, e :: r in w.sessions && e in w.log && FailedGet(e) && e.sid == w.sessions[r].sid ==>
          w.sessions[r].phase == Stopped)
    && (forall i, j :: 0 <= i < j < |w.log| && FailedGet(w.log[i]) ==> !ActsIn(w.log[j], w.log[i].sid))
  }

  /** A step of the session of `r` keeps this if a stopped session neither
      calls nor goes on, and a failing Get stops it. */
  lemma HaltingFrame(w: World, w': World, r: string, more: seq<Event>)
    requires Halting(w) && w'.log == w.log + more && w.clock <= w'.clock
    requires w'.sessions - {r} == w.sessions - {r}
    requires r in w'.sessions ==>
      if r in w.sessions then
        w'.sessions[r].sid == w.sessions[r].sid && (w.sessions[r].phase == Stopped ==> w'.sessions[r].phase == Stopped)
      else w'.sessions[r].sid == w.clock < w'.clock
    requires more != [] ==> r in w.sessions && w.sessions[r].phase != Stopped
    requires forall e :: e in more ==>
      && (e.GetCalled? ==> more == [e] && e.sid == w.sessions[r].sid)
      && (FailedGet(e) ==> r in w'.sessions && w'.sessions[r].phase == Stopped)
      && (forall s :: ActsIn(e, s) ==> s == w.sessions[r].sid)
    ensures Halting(w')
  {
    forall q ensures q != r ==> (q in w'.sessions <==> q in w.sessions) && (q in w.sessions ==> w'.sessions[q] == w.sessions[q]) {
      SameElsewhere(w.sessions, w'.sessions, r, q);
    }
    forall i, j | 0 <= i < j < |w'.log| && FailedGet(w'.log[i]) ensures !ActsIn(w'.log[j], w'.log[i].sid) {
      if j >= |w.log| {
        assert w'.log[j] in more;
      }
    }
  }

  lemma HaltingStep(w: World, a: Action)
    requires Halting(w) && Enabled(w, a)
    ensures Halting(Step(w, a))
  {
    if a.Observe? || a.Create? || a.Update? || a.Delete? || a.Release? {
      HaltingCall(w, a);
    } else if a.OutsideWrite? || a.OutsideRemove? {
      HaltingFrame(w, Step(w, a), "", []);
    } else {
      HaltingWrite(w, a);
    }
  }

  lemma HaltingCall(w: World, a: Action)
    requires Halting(w) && Enabled(w, a) && (a.Observe? || a.Create? || a.Update? || a.Delete? || a.Release?)
    ensures Halting(Step(w, a))
  {
    var s := w.sessions[a.name];
    var more :=
      if a.Observe? then ObserveSession(w.users, s, a.read).1
      else if a.Create? then CreateEvents(s, a.id, a.fault)
      else if a.Update? then UpdateEvents(s, w.users, a.faults)
      else if a.Delete? then [DeleteCalled(s.sid, s.user.uid, s.user.status.userID)]
      else [Released(s.sid, s.user.uid)];
    HaltingFrame(w, Step(w, a), a.name, more);
  }

  lemma HaltingWrite(w: World, a: Action)
    requires Halting(w) && Enabled(w, a) && !a.OutsideWrite? && !a.OutsideRemove?
    requires !a.Observe? && !a.Create? && !a.Update? && !a.Delete? && !a.Release?
    ensures Halting(Step(w, a))
  {
    assert w.log + [] == w.log;
    HaltingFrame(w, Step(w, a), a.name, []);
  }

  lemma {:induction false} HaltingRun(but: set<Hypothesis>, w: World, acts: seq<Action>)
    requires Halting(w) && RunBut(but, w, acts)
    ensures Halting(After(but, w, acts))
    decreases |acts|
  {
    if acts != [] {
      HaltingStep(w, acts[0]);
      HaltingRun(but, Step(w, acts[0]), acts[1..]);
    }
  }

  /** Once a Get failed with anything but a 404, the reconcile that made it
      never creates, updates, deletes or releases anything, whatever interleaves.
      No hypothesis is needed: `but` can hold them all. */
  lemma ErrorStops(but: set<Hypothesis>, w: World, acts: seq<Action>, i: nat, j: nat)
    requires Initial(w) && RunBut(but, w, acts) && i < j < |After(but, w, acts).log|
    ensures var log := After(but, w, acts).log; FailedGet(log[i]) ==> !ActsIn(log[j], log[i].sid)
  {
    HaltingRun(but, w, acts);
  }
}

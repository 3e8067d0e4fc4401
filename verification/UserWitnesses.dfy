/** Runs that show why each hypothesis of the ObjectsUser protocol is there,
    and what a lost reply of the API does. */
module UserWitnesses {
  import opened Kube
  import opened UserApi
  import opened UserService
  import opened UserProtocol
  import opened UserTraces
  import C = UserController

  const EMPTY := World(map[], map[], map[], {}, [], 0)

  const SPEC := UserSpec("display", map[], false, false)

  /** The service was asked twice for a user of the same resource. */
  predicate Twice(w: World, i: nat, j: nat) {
    && i < j < |w.log| && w.log[i].CreatedUser? && w.log[j].CreatedUser?
    && w.log[i].uid == w.log[j].uid
  }

  // ---- building runs

  predicate NoIds(u: UserObject) {
    u.status == NO_STATUS && !C.HasIdAnnotation(u) && u.name != "" && !u.deleting && u.spec == SPEC
  }

  lemma New(but: set<Hypothesis>, r: string) returns (t: Trace)
    requires r != ""
    ensures Ok(but, t) && t.start == EMPTY && r in t.world.stored && NoIds(t.world.stored[r].user)
    ensures t.world.sessions == map[] && t.world.issued == {} && t.world.users == map[] && t.world.log == []
  {
    t := Then(but, From(EMPTY), UserCreate(r, map[], SPEC));
  }

  /** A reconcile of a resource without any ID asks the service for a user. */
  lemma Ask(but: set<Hypothesis>, t: Trace, r: string, id: string, fault: CallFault) returns (t': Trace)
    requires Ok(but, t) && r in t.world.stored && r !in t.world.sessions && NoIds(t.world.stored[r].user)
    requires id != "" && id !in t.world.issued && fault != FailsBefore
    ensures Ok(but, t') && t'.start == t.start && t'.world.stored == t.world.stored && r in t'.world.sessions
    ensures t'.world.sessions == t.world.sessions[r := t'.world.sessions[r]]
    ensures t'.world.sessions[r].phase == Created(fault == Works)
    ensures var u := t.world.stored[r].user;
      t'.world.sessions[r].user == if fault == Works then u.(annotations := u.annotations[USER_ID_ANNOTATION := id]) else u
    ensures t'.world.issued == t.world.issued + {id} && id in t'.world.users && t.world.users.Keys <= t'.world.users.Keys
    ensures var uid := t.world.stored[r].user.uid;
      t'.world.log == t.world.log + [CreateCalled(t'.world.sessions[r].sid, uid),
                                     if fault == Works then CreatedUser(uid, id) else LostUser(uid, id)]
  {
    var t1 := Start(but, t, r);
    var t2 := LookInVain(but, t1, r);
    t' := Then(but, t2, Create(r, id, None, fault, Works));
  }

  lemma LookInVain(but: set<Hypothesis>, t: Trace, r: string) returns (t': Trace)
    requires Ok(but, t) && Active(t.world, r) && t.world.sessions[r].phase == Connected && NoIds(t.world.sessions[r].user)
    ensures Ok(but, t') && t'.start == t.start && t'.world.log == t.world.log
    ensures t'.world == t.world.(sessions := t.world.sessions[r := t.world.sessions[r].(phase := Saw(false, false))])
  {
    t' := Then(but, t, Observe(r, Answers));
    assert t'.world.log == t.world.log;
  }

  /** The first user of a resource, its ID stored in the annotation. */
  lemma Stored(but: set<Hypothesis>, r: string, id: string) returns (t: Trace)
    requires r != "" && id != ""
    ensures Ok(but, t) && t.start == EMPTY && t.world.sessions == map[] && t.world.issued == {id} && r in t.world.stored
    ensures var u := t.world.stored[r].user;
      && u.annotations == u.annotations[USER_ID_ANNOTATION := id] && u.status == NO_STATUS && u.spec == SPEC
      && u.name != "" && !u.deleting && |t.world.log| == 2 && t.world.log[1] == CreatedUser(u.uid, id)
  {
    t := New(but, r);
    t := Ask(but, t, r, id, Works);
    t := Then(but, t, PersistAnnotations(r));
    assert t.world.sessions == map[];
  }

  // ---- the witnesses

  /** A crash after the service answered, before the annotation is stored. */
  lemma AnnotationsStoredIsNeeded(r: string, id1: string, id2: string) returns (acts: seq<Action>)
    requires r != "" && id1 != "" && id2 != "" && id1 != id2
    ensures RunBut({AnnotationsStored}, EMPTY, acts)
    ensures Twice(After({AnnotationsStored}, EMPTY, acts), 1, 3)
  {
    var but := {AnnotationsStored};
    var t := New(but, r);
    t := Ask(but, t, r, id1, Works);
    var stored, log, issued := t.world.stored, t.world.log, t.world.issued;
    t := Then(but, t, Abort(r));
    assert t.world.stored == stored && t.world.log == log && t.world.issued == issued && r !in t.world.sessions;
    t := Ask(but, t, r, id2, Works);
    acts := t.acts;
  }

  /** Observe drops the annotation from its copy and gets a 404; the write that
      precedes Create stores the copy, but not the status. */
  lemma RemovalWithStatusIsNeeded(r: string, id1: string, id2: string) returns (acts: seq<Action>)
    requires r != "" && id1 != "" && id2 != "" && id1 != id2
    ensures RunBut({RemovalWithStatus}, EMPTY, acts)
    ensures Twice(After({RemovalWithStatus}, EMPTY, acts), 1, 4)
  {
    var but := {RemovalWithStatus};
    var t := DroppedId(r, id1);
    var uid := t.world.stored[r].user.uid;
    var t' := Then(but, t, Create(r, id2, None, Works, Works));
    assert t'.world.log == t.world.log + [CreateCalled(t.world.sessions[r].sid, uid), CreatedUser(uid, id2)];
    acts := t'.acts;
  }

  lemma DroppedId(r: string, id: string) returns (t: Trace)
    requires r != "" && id != ""
    ensures Ok({RemovalWithStatus}, t) && t.start == EMPTY && Active(t.world, r) && t.world.issued == {id}
    ensures var s := t.world.sessions[r];
      && s.phase == Saw(false, false) && Asks(s) && !s.user.deleting && s.user.uid == t.world.stored[r].user.uid
      && |t.world.log| == 3 && t.world.log[1] == CreatedUser(s.user.uid, id)
  {
    var but := {RemovalWithStatus};
    t := Stored(but, r, id);
    var u := t.world.stored[r].user;
    assert USER_ID_ANNOTATION in u.annotations;
    t := Then(but, t, Begin(r, true));
    assert t.world.sessions[r].user == u && t.world.stored[r].user == u;
    t := Then(but, t, Observe(r, Fails(NOT_FOUND)));
    assert t.world.sessions[r].phase == Saw(false, false) && t.world.stored[r].user == u;
    t := Then(but, t, WriteMetadata(r));
  }

  /** A user removes the annotation before the next Observe. */
  lemma IdUntouchedIsNeeded(r: string, id1: string, id2: string) returns (acts: seq<Action>)
    requires r != "" && id1 != "" && id2 != "" && id1 != id2
    ensures RunBut({IdUntouched}, EMPTY, acts)
    ensures Twice(After({IdUntouched}, EMPTY, acts), 1, 3)
  {
    var but := {IdUntouched};
    var t := Stored(but, r, id1);
    t := Then(but, t, UserUpdate(r, map[], SPEC));
    t := Ask(but, t, r, id2, Works);
    acts := t.acts;
  }

  /** With every hypothesis in force: if the reply to a create request is lost,
      its user stays behind and the resource gets another one. */
  lemma LostReplyLeaksUser(r: string, id1: string, id2: string) returns (acts: seq<Action>)
    requires r != "" && id1 != "" && id2 != "" && id1 != id2
    ensures RunBut({}, EMPTY, acts)
    ensures var w := After({}, EMPTY, acts);
      && r in w.stored && var uid := w.stored[r].user.uid;
      && id1 in w.users && id2 in w.users
      && LostUser(uid, id1) in w.log && CreatedUser(uid, id2) in w.log
  {
    var t := New({}, r);
    t := Ask({}, t, r, id1, FailsAfter);
    var before := t.world;
    t := Then({}, t, Abort(r));
    assert t.world == before.(sessions := before.sessions - {r});
    t := Ask({}, t, r, id2, Works);
    acts := t.acts;
  }
}

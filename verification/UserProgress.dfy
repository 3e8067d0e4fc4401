/** What reconciles without failures achieve for a deleted ObjectsUser. */
module UserProgress {
  import opened Kube
  import opened UserApi
  import opened UserProtocol
  import opened UserIdentity
  import opened UserTraces
  import C = UserController

  /** A reconcile that does not find the user lets the resource go. */
  lemma GoAtOnce(t: Trace, r: string) returns (t': Trace)
    requires Ok({}, t) && r in t.world.stored && r !in t.world.sessions
    requires var u := t.world.stored[r].user;
      u.deleting && !u.spec.orphan && !(C.KnownId(u) in t.world.users && C.TakeOver(u).Some?)
    ensures Ok({}, t') && Follows(t, t', r) && r !in t'.world.stored && t'.world.users == t.world.users
  {
    t' := Start({}, t, r);
    t' := Look({}, t', r);
    t' := Then({}, t', Release(r));
  }

  /** A reconcile that finds the user deletes it, and notes its ID. */
  lemma Remove(t: Trace, r: string) returns (t': Trace)
    requires Ok({}, t) && r in t.world.stored && r !in t.world.sessions
    requires var u := t.world.stored[r].user;
      u.deleting && !u.spec.orphan && C.KnownId(u) in t.world.users && C.TakeOver(u).Some?
    ensures Ok({}, t') && Follows(t, t', r) && r in t'.world.stored && r !in t'.world.sessions
    ensures var u, u' := t.world.stored[r].user, t'.world.stored[r].user;
      && u'.deleting && u'.spec == u.spec && u'.status.userID == C.KnownId(u)
      && t'.world.users == t.world.users - {C.KnownId(u)}
  {
    var t1 := Start({}, t, r);
    var t2 := Look({}, t1, r);
    var s := t2.world.sessions[r];
    C.DeleteEffect(s.user, t2.world.users, Works);
    var t3 := Then({}, t2, Delete(r, Works));
    assert t3.world.users == t2.world.users - {s.user.status.userID};
    t' := Then({}, t3, PersistStatus(r, true));
  }

  /** From every reachable state between reconciles of a deleted `r`, whatever
      the others are doing, its reconciles alone delete its user, if it has one
      that is still there, and release it; no other user goes. */
  lemma DeletionCompletes(w: World, acts: seq<Action>, r: string) returns (more: seq<Action>)
    requires Initial(w) && Run(w, acts)
    requires r in After({}, w, acts).stored && r !in After({}, w, acts).sessions
    requires var u := After({}, w, acts).stored[r].user; u.deleting && !u.spec.orphan
    ensures Run(After({}, w, acts), more) && forall a :: a in more ==> Reconciles(a, r)
    ensures var w0, end := After({}, w, acts), After({}, After({}, w, acts), more);
      var u := w0.stored[r].user;
      && r !in end.stored
      && (forall e :: e in w0.log && e.CreatedUser? && e.uid == u.uid ==> e.id !in end.users)
      && (forall id :: id in end.users ==> id in w0.users && end.users[id] == w0.users[id])
      && (forall id :: id in w0.users && id !in end.users ==> CreatedFor(w0.log, u.uid, id))
  {
    RunSound(w, acts);
    var w0 := After({}, w, acts);
    assert ResourceOk(w0, r);
    var u, t := w0.stored[r].user, From(w0);
    if C.TakeOver(u).Some? && C.KnownId(u) in w0.users {
      t := Remove(t, r);
    }
    t := GoAtOnce(t, r);
    more := t.acts;
  }
}

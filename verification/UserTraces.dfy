/** Runs of the ObjectsUser protocol put together step by step. */
module UserTraces {
  import opened Kube
  import opened UserApi
  import opened UserProtocol
  import C = UserController

  datatype Trace = Trace(start: World, acts: seq<Action>, world: World)

  /** The actions lead from `start` to `world` and obey all hypotheses, except
      possibly those in `but`. */
  predicate Ok(but: set<Hypothesis>, t: Trace) {
    RunBut(but, t.start, t.acts) && After(but, t.start, t.acts) == t.world
  }

  function From(w: World): Trace {
    Trace(w, [], w)
  }

  lemma {:induction false} Extend(but: set<Hypothesis>, w: World, acts: seq<Action>, a: Action)
    requires RunBut(but, w, acts)
    requires Enabled(After(but, w, acts), a) && ObeysAllBut(but, After(but, w, acts), a)
    ensures RunBut(but, w, acts + [a])
    ensures After(but, w, acts + [a]) == Step(After(but, w, acts), a)
    decreases |acts|
  {
    if acts == [] {
      assert acts + [a] == [a];
    } else {
      Extend(but, Step(w, acts[0]), acts[1..], a);
      assert (acts + [a])[1..] == acts[1..] + [a];
    }
  }

  lemma Then(but: set<Hypothesis>, t: Trace, a: Action) returns (t': Trace)
    requires Ok(but, t) && Enabled(t.world, a) && ObeysAllBut(but, t.world, a)
    ensures Ok(but, t') && t'.start == t.start && t'.acts == t.acts + [a] && t'.world == Step(t.world, a)
  {
    Extend(but, t.start, t.acts, a);
    t' := Trace(t.start, t.acts + [a], Step(t.world, a));
  }

  // ---- the steps of a reconcile

  /** A step of a reconcile of resource `r`. */
  predicate Reconciles(a: Action, r: string) {
    match a
    case Begin(q, _) => q == r
    case Observe(q, _) => q == r
    case Create(q, _, _, _, _) => q == r
    case Update(q, _) => q == r
    case Delete(q, _) => q == r
    case PersistStatus(q, _) => q == r
    case PersistAnnotations(q) => q == r
    case WriteMetadata(q) => q == r
    case Release(q) => q == r
    case ReleaseFails(q) => q == r
    case Abort(q) => q == r
    case _ => false
  }

  /** The second trace goes on from the first, by reconciles of `r` alone. */
  predicate Follows(t: Trace, t': Trace, r: string) {
    t'.start == t.start && forall a :: a in t'.acts ==> a in t.acts || Reconciles(a, r)
  }

  lemma Start(but: set<Hypothesis>, t: Trace, r: string) returns (t': Trace)
    requires Ok(but, t) && r in t.world.stored && r !in t.world.sessions
    requires var u := t.world.stored[r].user; !(u.deleting && u.spec.orphan)
    ensures Ok(but, t') && Follows(t, t', r) && Fresh(t'.world, r) && t'.world.clock == t.world.clock + 1
    ensures t'.world == t.world.(sessions := t.world.sessions[r := t'.world.sessions[r]], clock := t'.world.clock)
    ensures t'.world.sessions[r].user == t.world.stored[r].user && t'.world.sessions[r].phase == Connected
  {
    t' := Then(but, t, Begin(r, true));
  }

  /** The API answers for the ID that the resource has, or is not asked. */
  lemma Look(but: set<Hypothesis>, t: Trace, r: string) returns (t': Trace)
    requires Ok(but, t) && Fresh(t.world, r) && t.world.sessions[r].phase == Connected
    ensures Ok(but, t') && Follows(t, t', r) && Fresh(t'.world, r)
    ensures t'.world == t.world.(sessions := t.world.sessions[r := t'.world.sessions[r]], log := t'.world.log)
    ensures var u, s := t.world.sessions[r].user, t'.world.sessions[r]; var id := C.KnownId(u);
      && s.user == u.(status := s.user.status, annotations := s.user.annotations)
      && s.user.status.userID == id && !(id != "" && u.status.userID == "" && C.HasIdAnnotation(s.user))
      && s.phase.Saw? && (id in t.world.users && C.TakeOver(u).Some? <==> s.phase.found)
      && (!s.phase.found ==> !s.phase.upToDate)
  {
    C.HandOff(t.world.sessions[r].user, t.world.users, Answers);
    C.ObserveReports(t.world.sessions[r].user, t.world.users, Answers);
    t' := Then(but, t, Observe(r, Answers));
  }
}

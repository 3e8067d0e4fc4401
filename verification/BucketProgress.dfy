/** What reconciles without failures achieve: a resource becomes ready, and a
    deleted resource goes as far as its policy allows. */
module BucketProgress {
  import opened Kube
  import opened BucketApi
  import opened S3
  import opened BucketProtocol
  import opened BucketSafety
  import opened BucketExclusive
  import opened BucketTraces
  import C = BucketController
  import Drain
  import T = BucketTheorems

  // ---- becoming ready

  /** The claim is stored, status names the bucket, and both conditions hold. */
  predicate IsReady(w: World, r: string) {
    && r in w.stored && var b := w.stored[r].bucket;
    && Locked(b) && Owned(w.s3, IdOf(b)) && b.status.bucketName == GetBucketName(b)
    && FindCondition(b.status.conditions, Ready) == Some(AVAILABLE)
    && FindCondition(b.status.conditions, Synced) == Some(RECONCILE_SUCCESS)
  }

  /** A reconcile that finds the bucket of a resource that is to stay. */
  lemma Confirm(t: Trace, r: string) returns (t': Trace)
    requires Ok({Serial}, t) && r in t.world.stored && r !in t.world.sessions
    requires var b := t.world.stored[r].bucket;
      !b.deleting && !C.AlreadyDeleted(b.status) && Locked(b) && Owned(t.world.s3, IdOf(b))
    ensures Ok({Serial}, t') && Follows(t, t', r) && t'.world.s3 == t.world.s3
    ensures r !in t'.world.sessions && IsReady(t'.world, r)
    ensures var b, b' := t.world.stored[r].bucket, t'.world.stored[r].bucket; b' == b.(status := b'.status)
  {
    var t1 := Visit({Serial}, t, r);
    var s := t1.world.sessions[r];
    FindAfterSet(s.bucket.status.conditions, RECONCILE_SUCCESS, Ready);
    FindAfterSet(s.bucket.status.conditions, RECONCILE_SUCCESS, Synced);
    t' := Conclude({Serial}, t1, r);
  }

  /** From every reachable state between reconciles of `r`, whatever the others
      are doing, the reconciles of `r` alone make it ready: if the bucket is absent, one reconcile claims it, and if it is
      there with the lock held, one reconcile makes the resource ready. */
  lemma GetsReady(w: World, acts: seq<Action>, r: string) returns (claim: seq<Action>, confirm: seq<Action>)
    requires Initial(w) && Run(w, acts)
    requires r in After(w, acts).stored && r !in After(w, acts).sessions
    requires var (s3, b) := (After(w, acts).s3, After(w, acts).stored[r].bucket);
      !b.deleting && (IdOf(b) !in s3 || (Owned(s3, IdOf(b)) && Locked(b)))
    ensures forall a :: a in claim + confirm ==> T.Reconciles(a, r)
    ensures var w0 := After(w, acts); var id := IdOf(w0.stored[r].bucket);
      && Run(w0, claim) && (id in w0.s3 ==> claim == [])
      && var w1 := After(w0, claim);
      && r in w1.stored && r !in w1.sessions && Locked(w1.stored[r].bucket) && Owned(w1.s3, id)
      && Run(w1, confirm)
      && var w2 := After(w1, confirm);
      && r !in w2.sessions && IsReady(w2, r) && IdOf(w2.stored[r].bucket) == id
  {
    RunSound(w, acts);
    var w0 := After(w, acts);
    var t := From(w0);
    if IdOf(w0.stored[r].bucket) !in w0.s3 {
      t := Claim({Serial}, t, r);
    }
    claim := t.acts;
    var t' := Confirm(From(t.world), r);
    confirm := t'.acts;
  }

  // ---- being deleted

  /** An emptying that takes away what the policy wants away. */
  lemma CanEmpty(b: BucketObject, objects: set<string>) returns (e: C.Emptying)
    requires b.spec.policy == DeleteAll || objects == {}
    ensures C.Complete(e) && Removable(b, objects, e)
  {
    var listing, moves := Drain.CanDrain(objects);
    e := C.Emptying(listing, moves);
  }

  /** A reconcile of a resource with the four criteria lets it go. */
  lemma Forget(t: Trace, r: string) returns (t': Trace)
    requires Ok({Serial}, t) && r in t.world.stored && r !in t.world.sessions
    requires var b := t.world.stored[r].bucket; C.AlreadyDeleted(b.status) && b.deleting && !b.spec.orphan
    ensures Ok({Serial}, t') && Follows(t, t', r) && t'.world.s3 == t.world.s3 && r !in t'.world.stored
  {
    t' := StartNoop({Serial}, t, r);
    t' := LookNoop({Serial}, t', r);
    t' := LetGo({Serial}, t', r);
  }

  /** A deleted resource that holds its bucket removes it, and then goes. */
  lemma RemoveAndForget(t: Trace, r: string) returns (t': Trace)
    requires Ok({Serial}, t) && r in t.world.stored && r !in t.world.sessions
    requires var b := t.world.stored[r].bucket; var id := IdOf(b);
      && b.deleting && !b.spec.orphan && !C.AlreadyDeleted(b.status) && Locked(b) && Owned(t.world.s3, id)
      && (b.spec.policy == DeleteAll || t.world.s3[id].objects == {})
    ensures Ok({Serial}, t') && Follows(t, t', r) && r !in t'.world.stored
    ensures t'.world.s3 == t.world.s3 - {IdOf(t.world.stored[r].bucket)}
  {
    var b := t.world.stored[r].bucket;
    var e := CanEmpty(b, t.world.s3[IdOf(b)].objects);
    var t1 := Remove({Serial}, t, r, e, Works);
    var t2 := Conclude({Serial}, t1, r);
    t' := Forget(t2, r);
  }

  /** A deleted resource whose bucket is absent goes at once. */
  lemma GoAtOnce(t: Trace, r: string) returns (t': Trace)
    requires Ok({Serial}, t) && r in t.world.stored && r !in t.world.sessions
    requires var b := t.world.stored[r].bucket;
      b.deleting && !b.spec.orphan && !C.AlreadyDeleted(b.status) && IdOf(b) !in t.world.s3
    ensures Ok({Serial}, t') && Follows(t, t', r) && t'.world.s3 == t.world.s3 && r !in t'.world.stored
  {
    t' := Visit({Serial}, t, r);
    t' := LetGo({Serial}, t', r);
  }

  /** From every reachable state between reconciles of a deleted `r`, whatever
      the others are doing, its reconciles alone release it if its bucket
      is absent, if it removed it before, or if it holds the bucket and the
      policy is DeleteAll or the bucket is empty. If a bucket goes, then that one. */
  lemma DeletionCompletes(w: World, acts: seq<Action>, r: string) returns (more: seq<Action>)
    requires Initial(w) && Run(w, acts)
    requires r in After(w, acts).stored && r !in After(w, acts).sessions
    requires var b := After(w, acts).stored[r].bucket; b.deleting && !b.spec.orphan
    requires var (s3, b) := (After(w, acts).s3, After(w, acts).stored[r].bucket); var id := IdOf(b);
      || C.AlreadyDeleted(b.status) || id !in s3
      || (Owned(s3, id) && Locked(b) && (b.spec.policy == DeleteAll || s3[id].objects == {}))
    ensures Run(After(w, acts), more) && forall a :: a in more ==> T.Reconciles(a, r)
    ensures var w0, end := After(w, acts), After(After(w, acts), more);
      var b := w0.stored[r].bucket;
      && r !in end.stored
      && end.s3 == (if C.AlreadyDeleted(b.status) then w0.s3 else w0.s3 - {IdOf(b)})
  {
    var w0 := After(w, acts);
    var b, t := w0.stored[r].bucket, From(w0);
    if C.AlreadyDeleted(b.status) {
      t := Forget(t, r);
    } else if IdOf(b) !in w0.s3 {
      t := GoAtOnce(t, r);
    } else {
      t := RemoveAndForget(t, r);
    }
    more := t.acts;
  }
}

/** The parts of Kubernetes and of the Crossplane API machinery that both
    controllers rely on: optional values, status conditions, the ways in
    which a call can fail and the answer of an `Observe` call. */
module Kube {

  datatype Option<+T> = None | Some(value: T)

  datatype ConditionKind = Ready | Synced | OtherKind(kind: string)

  datatype ConditionStatus = ConditionTrue | ConditionFalse | ConditionUnknown

  datatype Reason =
    | ReasonAvailable
    | ReasonCreating
    | ReasonDeleting
    | ReasonReconcileSuccess
    | ReasonReconcileError
    | OtherReason(text: string)

  datatype Condition = Condition(kind: ConditionKind, status: ConditionStatus, reason: Reason)

  const AVAILABLE := Condition(Ready, ConditionTrue, ReasonAvailable)
  const DELETING := Condition(Ready, ConditionFalse, ReasonDeleting)
  const RECONCILE_SUCCESS := Condition(Synced, ConditionTrue, ReasonReconcileSuccess)
  const RECONCILE_ERROR := Condition(Synced, ConditionFalse, ReasonReconcileError)

  /** How a write meets its service: `FailsAfter` is a write that took effect
      although its reply was lost. */
  datatype CallFault = Works | FailsBefore | FailsAfter

  datatype ReadFault = Answers | Fails(code: int)

  /** What `Observe` tells the reconciler: an error, or whether the external
      resource exists and whether it matches the specification. */
  datatype Observation<+E> = ObserveFailed(error: E) | Observed(found: bool, upToDate: bool)

  /** The first condition of the given kind. */
  function FindCondition(conds: seq<Condition>, kind: ConditionKind): (found: Option<Condition>)
    ensures found.Some? ==> found.value.kind == kind
  {
    if conds == [] then None
    else if conds[0].kind == kind then Some(conds[0])
    else FindCondition(conds[1..], kind)
  }

  /** Replaces every condition of the kind of `c`, or appends `c` when there is none. */
  function SetCondition(conds: seq<Condition>, c: Condition): seq<Condition> {
    if FindCondition(conds, c.kind).None? then conds + [c]
    else seq(|conds|, i requires 0 <= i < |conds| => if conds[i].kind == c.kind then c else conds[i])
  }

  /** A condition that was set is the one found, and no other kind is touched. */
  lemma {:induction false} FindAfterSet(conds: seq<Condition>, c: Condition, kind: ConditionKind)
    ensures FindCondition(SetCondition(conds, c), kind)
         == if kind == c.kind then Some(c) else FindCondition(conds, kind)
  {
    var after := SetCondition(conds, c);
    if conds != [] {
      FindAfterSet(conds[1..], c, kind);
      var tail := SetCondition(conds[1..], c);
      if FindCondition(conds, c.kind).None? {
        assert after == [conds[0]] + tail;
      } else if FindCondition(conds[1..], c.kind).Some? {
        assert after[1..] == tail;
      } else {
        NoneFound(conds[1..], c.kind);
        assert after[1..] == conds[1..];
      }
    }
  }

  /** Position `i` holds the first condition of its kind. */
  predicate IsFirst(conds: seq<Condition>, i: nat, kind: ConditionKind) {
    i < |conds| && conds[i].kind == kind && forall j :: 0 <= j < i ==> conds[j].kind != kind
  }

  /** The condition found is the one at the first position of its kind. */
  lemma {:induction false} FoundIsFirst(conds: seq<Condition>, kind: ConditionKind, c: Condition)
    ensures FindCondition(conds, kind) == Some(c) <==> exists i: nat :: IsFirst(conds, i, kind) && conds[i] == c
  {
    if conds == [] {
    } else if conds[0].kind == kind {
      assert IsFirst(conds, 0, kind);
    } else {
      FoundIsFirst(conds[1..], kind, c);
      if i: nat :| IsFirst(conds[1..], i, kind) && conds[1..][i] == c {
        assert IsFirst(conds, i + 1, kind);
      }
      if i: nat :| IsFirst(conds, i, kind) && conds[i] == c {
        assert forall j :: 0 <= j < i - 1 ==> conds[1..][j] == conds[j + 1];
        assert IsFirst(conds[1..], i - 1, kind);
      }
    }
  }

  lemma {:induction false} NoneFound(conds: seq<Condition>, kind: ConditionKind)
    requires FindCondition(conds, kind).None?
    ensures forall i :: 0 <= i < |conds| ==> conds[i].kind != kind
  {
    if conds != [] {
      NoneFound(conds[1..], kind);
      assert forall i :: 1 <= i < |conds| ==> conds[i] == conds[1..][i - 1];
    }
  }
}

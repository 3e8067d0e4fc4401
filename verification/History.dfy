/** Histories of events in which every event had its reason. */
module History {

  /** Each event is justified by the events before it. */
  ghost predicate JustifiedLog<E(!new)>(log: seq<E>, justified: (seq<E>, E) -> bool) {
    forall i :: 0 <= i < |log| ==> justified(log[..i], log[i])
  }

  lemma Append<E(!new)>(log: seq<E>, e: E, justified: (seq<E>, E) -> bool)
    requires JustifiedLog(log, justified) && justified(log, e)
    ensures JustifiedLog(log + [e], justified)
  {
    var longer := log + [e];
    forall i | 0 <= i < |longer| ensures justified(longer[..i], longer[i]) {
      assert longer[..i] == log[..i];
      assert log[..|log|] == log;
    }
  }
}

/** `deleteAllObjects`: a goroutine lists the objects of a bucket and hands
    them over an unbuffered channel to the remover of the S3 client, which
    collects batches, deletes them and reports only failures. The calling
    function returns on the first report, or when the reports are closed.
    Each move below is one atomic action of one of the three parties; a
    schedule is any interleaving of them. */
module Drain {

  /** What listing yields: an object, or an entry that carries an error. */
  datatype Entry = Entry(key: string, failed: bool)

  datatype Remover = Gathering | Flushing | Closed

  datatype MainResult = Waiting | ReturnedNil | ReturnedError(key: string)

  datatype State = State(
    listing: seq<Entry>,  // not yet read by the listing goroutine
    closed: bool,         // objectsCh is closed
    batch: seq<string>,   // received by the remover, not yet dealt with
    remover: Remover,
    removed: set<string>,
    main: MainResult)

  datatype Move =
    | SkipFailed
    | Handoff
    | CloseObjects
    | Flush
    | DeleteNext
    | RefuseNext(goneAnyway: bool)
    | CloseReports
    | Return

  const BATCH := 1000

  function Start(listing: seq<Entry>): State {
    State(listing, false, [], Gathering, {}, Waiting)
  }

  predicate Enabled(s: State, m: Move) {
    match m
    case SkipFailed => s.listing != [] && s.listing[0].failed
    case Handoff => s.listing != [] && !s.listing[0].failed && s.remover == Gathering && |s.batch| < BATCH
    case CloseObjects => s.listing == [] && !s.closed
    case Flush => s.remover == Gathering && s.batch != [] && (|s.batch| == BATCH || s.closed)
    case DeleteNext => s.remover == Flushing && s.batch != []
    case RefuseNext(_) => s.remover == Flushing && s.batch != [] && s.main == Waiting
    case CloseReports => s.remover == Gathering && s.batch == [] && s.closed
    case Return => s.remover == Closed && s.main == Waiting
  }

  function Next(s: State, m: Move): State
    requires Enabled(s, m)
  {
    match m
    case SkipFailed => s.(listing := s.listing[1..])
    case Handoff => s.(listing := s.listing[1..], batch := s.batch + [s.listing[0].key])
    case CloseObjects => s.(closed := true)
    case Flush => s.(remover := Flushing)
    case DeleteNext => Drop(s).(removed := s.removed + {s.batch[0]})
    case RefuseNext(gone) =>
      Drop(s).(removed := if gone then s.removed + {s.batch[0]} else s.removed,
               main := ReturnedError(s.batch[0]))
    case CloseReports => s.(remover := Closed)
    case Return => s.(main := ReturnedNil)
  }

  function Drop(s: State): State
    requires s.batch != []
  {
    s.(batch := s.batch[1..], remover := if |s.batch| == 1 then Gathering else Flushing)
  }

  predicate Schedule(s: State, moves: seq<Move>)
    decreases |moves|
  {
    moves == [] || (Enabled(s, moves[0]) && Schedule(Next(s, moves[0]), moves[1..]))
  }

  function Exec(s: State, moves: seq<Move>): State
    requires Schedule(s, moves)
    decreases |moves|
  {
    if moves == [] then s else Exec(Next(s, moves[0]), moves[1..])
  }

  /** The keys that were listed without an error. */
  function Listed(listing: seq<Entry>): set<string> {
    set e | e in listing && !e.failed :: e.key
  }

  /** What every move keeps. `all` are the keys listed at the start. */
  predicate Inv(s: State, all: set<string>) {
    && (s.closed ==> s.listing == [])
    && (s.remover == Flushing ==> s.batch != [])
    && (s.remover == Closed ==> s.closed && s.batch == [])
    && |s.batch| <= BATCH
    && Listed(s.listing) <= all && (set k | k in s.batch) <= all && s.removed <= all
    && (!s.main.ReturnedError? ==> Listed(s.listing) + (set k | k in s.batch) + s.removed == all)
    && (s.main == ReturnedNil ==> s.remover == Closed)
    && (s.main.ReturnedError? ==> s.main.key in all)
  }

  lemma InvNext(s: State, m: Move, all: set<string>)
    requires Inv(s, all) && Enabled(s, m)
    ensures Inv(Next(s, m), all)
  {
  }

  lemma {:induction false} InvExec(s: State, moves: seq<Move>, all: set<string>)
    requires Inv(s, all) && Schedule(s, moves)
    ensures Inv(Exec(s, moves), all)
    decreases |moves|
  {
    if moves != [] {
      InvNext(s, moves[0], all);
      InvExec(Next(s, moves[0]), moves[1..], all);
    }
  }

  /** Whatever the schedule: nothing but listed objects is removed; a nil
      result means that exactly the objects listed without an error are gone;
      an error names one of them. */
  lemma DrainExact(listing: seq<Entry>, moves: seq<Move>)
    requires Schedule(Start(listing), moves)
    ensures var s := Exec(Start(listing), moves);
      && s.removed <= Listed(listing)
      && (s.main == ReturnedNil ==> s.removed == Listed(listing))
      && (s.main.ReturnedError? ==> s.main.key in Listed(listing))
  {
    InvExec(Start(listing), moves, Listed(listing));
  }

  /** A bound on the number of moves that are left. */
  function Rank(s: State): nat {
    4 * |s.listing| + 2 * |s.batch|
    + (if s.closed then 0 else 1)
    + (match s.remover case Gathering => 2 case Flushing => 1 case Closed => 0)
    + (if s.main == Waiting then 1 else 0)
  }

  lemma RankNext(s: State, m: Move)
    requires Enabled(s, m)
    ensures Rank(Next(s, m)) < Rank(s)
  {
  }

  lemma {:induction false} RankExec(s: State, moves: seq<Move>)
    requires Schedule(s, moves)
    ensures Rank(Exec(s, moves)) + |moves| <= Rank(s)
    decreases |moves|
  {
    if moves != [] {
      RankNext(s, moves[0]);
      RankExec(Next(s, moves[0]), moves[1..]);
    }
  }

  /** A move that is possible as long as the caller waits, and no failure. */
  function NextMove(s: State): Move {
    if s.remover == Flushing then DeleteNext
    else if s.remover == Closed then Return
    else if |s.batch| == BATCH then Flush
    else if s.listing != [] then (if s.listing[0].failed then SkipFailed else Handoff)
    else if !s.closed then CloseObjects
    else if s.batch != [] then Flush
    else CloseReports
  }

  /** No schedule is endless and none gets stuck before the caller returned:
      as long as it waits, some party can move. */
  lemma DrainReturns(listing: seq<Entry>, moves: seq<Move>) returns (m: Move)
    requires Schedule(Start(listing), moves)
    ensures |moves| <= 4 * |listing| + 4
    ensures Exec(Start(listing), moves).main == Waiting ==> Enabled(Exec(Start(listing), moves), m)
  {
    RankExec(Start(listing), moves);
    InvExec(Start(listing), moves, Listed(listing));
    m := NextMove(Exec(Start(listing), moves));
  }

  /** Without failures the caller gets a nil result. */
  lemma {:induction false} Finishes(s: State, all: set<string>) returns (moves: seq<Move>)
    requires Inv(s, all) && s.main == Waiting
    ensures Schedule(s, moves) && Exec(s, moves).main == ReturnedNil
    decreases Rank(s)
  {
    var m := NextMove(s);
    InvNext(s, m, all);
    RankNext(s, m);
    var rest := [];
    if m != Return {
      rest := Finishes(Next(s, m), all);
    }
    moves := [m] + rest;
    assert moves[1..] == rest;
  }

  /** Any set of objects can be listed and drained without a failure. */
  lemma CanDrain(objects: set<string>) returns (listing: seq<Entry>, moves: seq<Move>)
    ensures Listed(listing) == objects
    ensures Schedule(Start(listing), moves) && Exec(Start(listing), moves).main == ReturnedNil
  {
    listing := ListingOf(objects);
    moves := Finishes(Start(listing), Listed(listing));
  }

  lemma {:induction false} ListingOf(objects: set<string>) returns (listing: seq<Entry>)
    ensures Listed(listing) == objects
    decreases |objects|
  {
    listing := [];
    if objects != {} {
      var k :| k in objects;
      var rest := ListingOf(objects - {k});
      listing := [Entry(k, false)] + rest;
      assert Listed(listing) == {k} + Listed(rest);
    }
  }
}

/**
 The discipline that the effect executors share: record the intent durably, fire the remote effect,
 record the result. A recovery that finds an intent without a result settles it and never fires.
 Each executor module maps its own state to a Journal and shows that each of its events is one journal move.
 */
module WriteAhead {
  import opened Runs

  datatype Phase = Unrecorded | Recorded | Settled

  /** `armed`: some live actor has recorded the intent and has not yet issued the effect. */
  datatype Journal = Journal(phase: Phase, armed: bool, fired: nat)

  const BLANK := Journal(Unrecorded, false, 0)

  datatype Move =
    | Record(arm: bool) // the intent becomes durable; the actor that wrote it may already be gone
    | Fire              // the armed actor issues the effect
    | Disarm            // the armed actor crashes, or decides not to fire
    | Settle            // a result, or the verdict that the result is unknown, becomes durable

  function Advance(j: Journal, m: Move): Journal {
    match m
    case Record(arm) => if j.phase == Unrecorded then j.(phase := Recorded, armed := arm) else j
    case Fire => if j.armed then j.(armed := false, fired := j.fired + 1) else j
    case Disarm => j.(armed := false)
    case Settle => if j.phase == Recorded then j.(phase := Settled) else j
  }

  ghost predicate Disciplined(j: Journal) {
    && (j.phase == Unrecorded ==> !j.armed && j.fired == 0)
    && j.fired <= (if j.armed then 0 else 1)
  }

  /** One step of an executor: at most one move of each kind, in the order in which a single event can cause them. */
  ghost predicate Follows(j: Journal, k: Journal) {
    || k == j
    || k == Advance(j, Record(true))
    || k == Advance(j, Record(false))
    || k == Advance(j, Fire)
    || k == Advance(j, Disarm)
    || k == Advance(j, Settle)
    || k == Advance(Advance(j, Disarm), Settle)
    || k == Advance(Advance(j, Record(true)), Settle)
    || k == Advance(Advance(j, Record(false)), Settle)
  }

  /** Over every sequence of moves the effect fires at most once, and never before the intent is durable. */
  lemma AtMostOnce(moves: seq<Move>)
    ensures Run(Advance, BLANK, moves).fired <= 1
    ensures Run(Advance, BLANK, moves).fired > 0 ==> Run(Advance, BLANK, moves).phase != Unrecorded
  {
    RunKeeps(Advance, Disciplined, BLANK, moves);
  }

  /** What an executor gains by refining the journal: its effect fires at most once over every schedule. */
  lemma {:induction false} RefinementFiresAtMostOnce<S(!new), E(!new)>(
      apply: (S, E) -> S, inv: S -> bool, view: S -> Journal, s: S, schedule: seq<E>)
    requires inv(s) && view(s) == BLANK
    requires forall t, e {:trigger apply(t, e)} :: inv(t) ==> inv(apply(t, e)) && Follows(view(t), view(apply(t, e)))
    ensures view(Run(apply, s, schedule)).fired <= 1
    ensures exists moves :: view(Run(apply, s, schedule)) == Run(Advance, BLANK, moves)
  {
    var moves := MovesOf(apply, inv, view, s, schedule, []);
    AtMostOnce(moves);
  }

  lemma {:induction false} MovesOf<S(!new), E(!new)>(
      apply: (S, E) -> S, inv: S -> bool, view: S -> Journal, s: S, schedule: seq<E>, before: seq<Move>)
    returns (moves: seq<Move>)
    requires inv(s) && view(s) == Run(Advance, BLANK, before)
    requires forall t, e {:trigger apply(t, e)} :: inv(t) ==> inv(apply(t, e)) && Follows(view(t), view(apply(t, e)))
    ensures view(Run(apply, s, schedule)) == Run(Advance, BLANK, moves)
    decreases |schedule|
  {
    moves := before;
    if schedule != [] {
      var t := apply(s, schedule[0]);
      var more := MovesBetween(view(s), view(t));
      RunAppends(Advance, BLANK, before, more);
      moves := MovesOf(apply, inv, view, t, schedule[1..], before + more);
    }
  }

  lemma MovesBetween(j: Journal, k: Journal) returns (moves: seq<Move>)
    requires Follows(j, k)
    ensures Run(Advance, j, moves) == k
  {
    if k == j {
      moves := [];
    } else if m: Move :| m in [Record(true), Record(false), Fire, Disarm, Settle] && k == Advance(j, m) {
      moves := [m];
    } else {
      var m: Move :| m in [Record(true), Record(false), Disarm] && k == Advance(Advance(j, m), Settle);
      moves := [m, Settle];
      assert Run(Advance, Advance(j, m), moves[1..]) == k;
    }
  }
}

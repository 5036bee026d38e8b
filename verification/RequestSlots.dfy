/**
 The four request slots of a website capture. Between two awaits nothing else runs; a woken caller resumes at some
 later time, after other callers may have come in.
 */
module RequestSlots {
  import opened Runs

  const SLOTS := 4

  datatype Event =
    | Enter(caller: nat)
    | Finish(caller: nat)
    | Resume(caller: nat)
    | Abort

  /**
   `fetching` holds a slot each; `waiting` is the queue; `woken` callers have been released and not yet resumed;
   `refused` and `done` are over.
   */
  datatype State = State(
    active: int, waiting: seq<nat>, aborted: bool, fetching: set<nat>, woken: set<nat>, refused: set<nat>,
        done: set<nat>)

  const IDLE := State(0, [], false, {}, {}, {}, {})

  function Callers(s: State): set<nat> {
    s.fetching + s.woken + s.refused + s.done + set c <- s.waiting
  }

  /** The head of the handler: park, give up, or take a slot. */
  function Claiming(s: State, caller: nat): State {
    if s.active >= SLOTS && !s.aborted then s.(waiting := s.waiting + [caller])
    else if s.aborted then s.(refused := s.refused + {caller})
    else s.(active := s.active + 1, fetching := s.fetching + {caller})
  }

  /** Free a slot and wake the first caller in the queue. */
  function Finishing(s: State, caller: nat): State {
    var t := s.(active := s.active - 1, fetching := s.fetching - {caller}, done := s.done + {caller});
    if t.waiting == [] then t else t.(waiting := t.waiting[1..], woken := t.woken + {t.waiting[0]})
  }

  function Aborting(s: State): State {
    if s.aborted then s else s.(aborted := true, waiting := [], woken := s.woken + set c <- s.waiting)
  }

  function Apply(s: State, e: Event): State {
    match e
    case Enter(caller) => if caller in Callers(s) then s else Claiming(s, caller)
    case Finish(caller) => if caller in s.fetching then Finishing(s, caller) else s
    case Resume(caller) => if caller in s.woken then Claiming(s.(woken := s.woken - {caller}), caller) else s
    case Abort => Aborting(s)
  }

  /** The capture's own variables, changed in place. */
  class Capture {
    var activeRequests: int
    var waiting: seq<nat>
    var aborted: bool
    ghost var fetching: set<nat>
    ghost var woken: set<nat>
    ghost var refused: set<nat>
    ghost var done: set<nat>

    constructor ()
      ensures Current() == IDLE
    {
      activeRequests, waiting, aborted := 0, [], false;
      fetching, woken, refused, done := {}, {}, {}, {};
    }

    ghost function Current(): State
      reads this
    {
      State(activeRequests, waiting, aborted, fetching, woken, refused, done)
    }

    /** One pass through the head of the handler. */
    method Claim(caller: nat) returns (started: bool)
      modifies this
      ensures Current() == Claiming(old(Current()), caller)
      ensures started == (old(activeRequests) < SLOTS && !old(aborted))
    {
      if activeRequests >= SLOTS && !aborted {
        waiting := waiting + [caller];
        return false;
      }
      if aborted {
        refused := refused + {caller};
        return false;
      }
      activeRequests := activeRequests + 1;
      fetching := fetching + {caller};
      return true;
    }

    method Resume(caller: nat) returns (started: bool)
      requires caller in woken
      modifies this
      ensures Current() == Apply(old(Current()), Event.Resume(caller))
      ensures started == (old(activeRequests) < SLOTS && !old(aborted))
    {
      woken := woken - {caller};
      started := Claim(caller);
    }

    /** The handler's last step, however the fetch ended. */
    method Finish(caller: nat)
      requires caller in fetching
      modifies this
      ensures Current() == Apply(old(Current()), Event.Finish(caller))
    {
      activeRequests := activeRequests - 1;
      fetching, done := fetching - {caller}, done + {caller};
      if waiting != [] {
        woken := woken + {waiting[0]};
        waiting := waiting[1..];
      }
    }

    method Abort()
      modifies this
      ensures Current() == Apply(old(Current()), Event.Abort)
    {
      if !aborted {
        aborted := true;
        woken := woken + set c <- waiting;
        waiting := [];
      }
    }
  }

  // ----- invariants

  ghost predicate Apart(s: State) {
    && (forall i, j :: 0 <= i < j < |s.waiting| ==> s.waiting[i] != s.waiting[j])
    && (forall c <- s.waiting :: c !in s.fetching && c !in s.woken && c !in s.refused && c !in s.done)
    && s.fetching !! s.woken && s.fetching !! s.refused && s.fetching !! s.done
    && s.woken !! s.refused && s.woken !! s.done && s.refused !! s.done
  }

  ghost predicate Counted(s: State) {
    && s.active == |s.fetching| && s.active <= SLOTS
    && (s.waiting != [] ==> !s.aborted && s.active + |s.woken| >= SLOTS)
    && (s.refused != {} ==> s.aborted)
  }

  ghost predicate Inv(s: State) {
    Apart(s) && Counted(s)
  }

  lemma StepKeepsApart(s: State, e: Event)
    requires Inv(s)
    ensures Apart(Apply(s, e))
  {
    match e
    case Enter(caller) => if caller !in Callers(s) { ClaimingKeepsApart(s, caller); }
    case Resume(caller) => if caller in s.woken { ClaimingKeepsApart(s.(woken := s.woken - {caller}), caller); }
    case Finish(caller) => if caller in s.fetching { FinishKeepsApart(s, caller); }
    case Abort =>
  }

  lemma FinishKeepsApart(s: State, caller: nat)
    requires Apart(s) && caller in s.fetching
    ensures Apart(Finishing(s, caller))
  {
  }

  lemma ClaimingKeepsApart(s: State, caller: nat)
    requires Apart(s) && caller !in Callers(s)
    ensures Apart(Claiming(s, caller))
  {
  }

  lemma OneMore(s: set<nat>, x: nat)
    ensures x !in s ==> |s + {x}| == |s| + 1
    ensures x in s ==> |s - {x}| == |s| - 1
  {
  }

  lemma FinishKeepsCounted(s: State, caller: nat)
    requires Inv(s) && caller in s.fetching
    ensures Counted(Finishing(s, caller))
  {
  }

  /** A caller that is nowhere claims; if it has just been woken, one promise is gone. */
  lemma ClaimKeepsCounted(s: State, caller: nat)
    requires caller !in s.fetching && s.active == |s.fetching| && s.active <= SLOTS && (s.refused != {} ==> s.aborted)
    requires s.waiting != [] ==> !s.aborted && s.active + |s.woken| + 1 >= SLOTS
    ensures Counted(Claiming(s, caller))
  {
  }

  lemma StepKeepsCounted(s: State, e: Event)
    requires Inv(s)
    ensures Counted(Apply(s, e))
  {
    match e
    case Finish(caller) => if caller in s.fetching { FinishKeepsCounted(s, caller); }
    case Resume(caller) =>
      if caller in s.woken {
        OneMore(s.woken, caller);
        ClaimKeepsCounted(s.(woken := s.woken - {caller}), caller);
      }
    case Enter(caller) => if caller !in Callers(s) { ClaimKeepsCounted(s, caller); }
    case Abort =>
  }

  lemma StepKeepsInv(s: State, e: Event)
    requires Inv(s)
    ensures Inv(Apply(s, e))
  {
    StepKeepsApart(s, e);
    StepKeepsCounted(s, e);
  }

  lemma ReachableInv(schedule: seq<Event>)
    ensures Inv(Run(Apply, IDLE, schedule))
  {
    forall t, e {:trigger Apply(t, e)} | Inv(t) ensures Inv(Apply(t, e)) {
      StepKeepsInv(t, e);
    }
    RunKeeps(Apply, Inv, IDLE, schedule);
  }

  /**
   At most four requests are in flight. While a caller is parked, four slots are taken or promised to woken callers, so
   no wake-up is lost; once nothing is in flight or woken, nobody is parked.
   */
  lemma NoWakeUpIsLost(schedule: seq<Event>)
    ensures var s := Run(Apply, IDLE, schedule);
      && s.active == |s.fetching| <= SLOTS
      && (s.waiting != [] ==> s.active + |s.woken| >= SLOTS)
      && (s.fetching == {} && s.woken == {} ==> s.waiting == [])
  {
    ReachableInv(schedule);
  }

  /** After the abort nobody is parked, nobody starts, and whoever was parked or comes later is refused once it runs. */
  ghost predicate Draining(s: State, t: State) {
    t.aborted && t.waiting == [] && t.fetching <= s.fetching && s.woken <= t.woken + t.refused
  }

  lemma StepDrains(s: State, t: State, e: Event)
    requires Draining(s, t)
    ensures Draining(s, Apply(t, e))
  {
  }

  lemma AbortReleasesEveryone(schedule: seq<Event>, more: seq<Event>)
    requires !Run(Apply, IDLE, schedule).aborted
    ensures var r := Run(Apply, IDLE, schedule);
      && (forall c <- r.waiting :: c in Apply(r, Abort).woken)
      && Draining(Apply(r, Abort), Run(Apply, Apply(r, Abort), more))
  {
    var r := Run(Apply, IDLE, schedule);
    var s := Apply(r, Abort);
    forall t, e {:trigger Apply(t, e)} | Draining(s, t) ensures Draining(s, Apply(t, e)) {
      StepDrains(s, t, e);
    }
    RunKeeps(Apply, t => Draining(s, t), s, more);
  }

  function All(s: State): set<nat> {
    s.done + s.fetching + s.woken + set c <- s.waiting
  }

  function Work(s: State): nat {
    3 * |s.waiting| + 2 * |s.woken| + |s.fetching|
  }

  lemma FinishKeepsAll(s: State, caller: nat)
    requires caller in s.fetching
    ensures All(Finishing(s, caller)) == All(s)
  {
  }

  lemma FinishServes(s: State, caller: nat)
    requires Inv(s) && caller in s.fetching
    ensures var t := Finishing(s, caller); All(t) == All(s) && Work(t) < Work(s) && t.aborted == s.aborted
  {
    FinishKeepsAll(s, caller);
    OneMore(s.fetching, caller);
    if s.waiting != [] {
      OneMore(s.woken, s.waiting[0]);
    }
  }

  lemma ResumeServes(s: State, caller: nat)
    requires s.active < SLOTS && caller in s.woken && caller !in s.fetching && !s.aborted
    ensures var t := Claiming(s.(woken := s.woken - {caller}), caller);
        All(t) == All(s) && Work(t) < Work(s) && !t.aborted
  {
  }

  /** From any reachable state some schedule serves everyone: the queue is never stuck. */
  lemma {:induction false} EveryoneCanBeServed(s: State) returns (schedule: seq<Event>)
    requires Inv(s) && !s.aborted
    ensures var t := Run(Apply, s, schedule); t.done == All(s) && t.waiting == [] && t.woken == {} && t.fetching == {}
    decreases Work(s)
  {
    if s.fetching == {} && s.woken == {} {
      schedule := [];
      assert Run(Apply, s, schedule) == s;
    } else {
      var e: Event;
      if s.fetching != {} {
        var c :| c in s.fetching;
        e := Finish(c);
        FinishServes(s, c);
      } else {
        var c :| c in s.woken;
        e := Resume(c);
        ResumeServes(s, c);
      }
      StepKeepsInv(s, e);
      var rest := EveryoneCanBeServed(Apply(s, e));
      schedule := [e] + rest;
      assert schedule[1..] == rest;
    }
  }
}

/**
 The in-process drain protocol shared by the notification dispatcher (Pause, Drain and
 Resume over `paused` and `active`, internal/notification/dispatcher.go) and the payment
 service (Quiesce, begin and endPaymentRequest over `quiesced` and `active`,
 internal/payments/reconcile.go). Both admit a worker and count it under one lock, so
 each of these steps is atomic; the work itself runs outside the lock.

 `inside` (workers between admission and leave) and `work` (their external effects) are
 history fields of the model.
 */
module DrainBarrier {
  datatype Lifecycle = Lifecycle(paused: bool, active: int, inside: set<nat>, work: seq<nat>)

  datatype Step = Pause | Resume | Enter(worker: nat) | Work(worker: nat) | Leave(worker: nat)

  const Idle := Lifecycle(false, 0, {}, [])

  /** A worker already inside is a goroutine that has not left, so it cannot enter again. */
  function Next(s: Lifecycle, step: Step): Lifecycle {
    match step
    case Pause => s.(paused := true)
    case Resume => s.(paused := false)
    case Enter(w) => if s.paused || w in s.inside then s else s.(active := s.active + 1, inside := s.inside + {w})
    case Work(w) => if w in s.inside then s.(work := s.work + [w]) else s
    case Leave(w) => if w in s.inside then s.(active := s.active - 1, inside := s.inside - {w}) else s
  }

  function Run(s: Lifecycle, steps: seq<Step>): Lifecycle
    decreases |steps|
  {
    if steps == [] then s else Run(Next(s, steps[0]), steps[1..])
  }

  lemma {:induction false} RunAppend(s: Lifecycle, first: seq<Step>, second: seq<Step>)
    ensures Run(s, first + second) == Run(Run(s, first), second)
    decreases |first|
  {
    if first == [] {
      assert first + second == second;
    } else {
      assert (first + second)[1..] == first[1..] + second;
      RunAppend(Next(s, first[0]), first[1..], second);
    }
  }

  ghost predicate Counted(s: Lifecycle) {
    s.active == |s.inside|
  }

  lemma NextCounts(s: Lifecycle, step: Step)
    requires Counted(s)
    ensures Counted(Next(s, step))
  {
  }

  lemma {:induction false} RunCounts(s: Lifecycle, steps: seq<Step>)
    requires Counted(s)
    ensures Counted(Run(s, steps))
    decreases |steps|
  {
    if steps != [] {
      NextCounts(s, steps[0]);
      RunCounts(Next(s, steps[0]), steps[1..]);
    }
  }

  lemma {:induction false} StaysPaused(s: Lifecycle, steps: seq<Step>)
    requires s.paused && Resume !in steps
    ensures Run(s, steps).paused
    decreases |steps|
  {
    if steps != [] { StaysPaused(Next(s, steps[0]), steps[1..]); }
  }

  /** Once paused and seen empty, nothing enters and nothing takes effect before Resume. */
  lemma {:induction false} DrainedIsABarrier(s: Lifecycle, steps: seq<Step>)
    requires Counted(s) && s.paused && s.active == 0 && Resume !in steps
    ensures Run(s, steps).inside == {} && Run(s, steps).active == 0 && Run(s, steps).work == s.work
    decreases |steps|
  {
    if steps != [] {
      assert s.inside == {};
      DrainedIsABarrier(Next(s, steps[0]), steps[1..]);
    }
  }

  /** In any run, a pause and a later look at an empty counter make a barrier until Resume. */
  lemma DrainIsABarrier(before: seq<Step>, between: seq<Step>, after: seq<Step>)
    requires Resume !in between && Resume !in after
    requires Run(Next(Run(Idle, before), Pause), between).active == 0
    ensures var drained := Run(Next(Run(Idle, before), Pause), between);
      Run(drained, after).work == drained.work && Run(drained, after).inside == {}
  {
    RunCounts(Idle, before);
    var paused := Next(Run(Idle, before), Pause);
    RunCounts(paused, between);
    StaysPaused(paused, between);
    DrainedIsABarrier(Run(paused, between), after);
  }

  function Flatten(rounds: seq<seq<Step>>): seq<Step> {
    if rounds == [] then [] else Flatten(rounds[..|rounds| - 1]) + rounds[|rounds| - 1]
  }

  /** The fields of one process. */
  class Dispatcher {
    var paused: bool
    var active: int
    var inside: set<nat>
    ghost var work: seq<nat>

    ghost function View(): Lifecycle
      reads this
    {
      Lifecycle(paused, active, inside, work)
    }

    constructor ()
      ensures View() == Idle
    {
      paused, active, inside, work := false, 0, {}, [];
    }

    /** What the lock lets one goroutine do at once. */
    method Perform(step: Step)
      requires Counted(View())
      modifies this
      ensures View() == Next(old(View()), step) && Counted(View())
    {
      match step
      case Pause => paused := true;
      case Resume => paused := false;
      case Enter(w) =>
        if !paused && w !in inside { active, inside := active + 1, inside + {w}; }
      case Work(w) =>
        if w in inside { work := work + [w]; }
      case Leave(w) =>
        if w in inside { active, inside := active - 1, inside - {w}; }
    }

    method PerformAll(steps: seq<Step>)
      requires Counted(View())
      modifies this
      ensures View() == Run(old(View()), steps) && Counted(View())
    {
      ghost var start := View();
      var i := 0;
      while i < |steps|
        invariant i <= |steps| && Counted(View()) && View() == Run(start, steps[..i])
      {
        assert steps[..i + 1] == steps[..i] + [steps[i]];
        RunAppend(start, steps[..i], [steps[i]]);
        Perform(steps[i]);
        i := i + 1;
      }
      assert steps[..i] == steps;
    }

    /** Drain: pause, then poll; `rounds` is what the workers do between two polls, and the
        context ends when it is used up. A drain that returns true is a barrier. */
    method Drain(rounds: seq<seq<Step>>) returns (drained: bool)
      requires Counted(View()) && Resume !in Flatten(rounds)
      modifies this
      ensures Counted(View()) && View().paused
      ensures drained <==> View().active == 0
      ensures drained ==> forall later :: Resume !in later ==> Run(View(), later).work == View().work
      ensures exists k :: 0 <= k <= |rounds| && View() == Run(Next(old(View()), Pause), Flatten(rounds[..k]))
      ensures !drained ==> View() == Run(Next(old(View()), Pause), Flatten(rounds))
    {
      ghost var start := Next(View(), Pause);
      Perform(Pause);
      var i := 0;
      while true
        invariant i <= |rounds| && Counted(View()) && View() == Run(start, Flatten(rounds[..i])) && View().paused
        decreases |rounds| - i
      {
        if active == 0 {
          forall later | Resume !in later ensures Run(View(), later).work == View().work {
            DrainedIsABarrier(View(), later);
          }
          return true;
        }
        if i == |rounds| {
          assert rounds[..i] == rounds;
          return false;
        }
        NoResume(rounds, i);
        assert rounds[..i + 1][..i] == rounds[..i];
        RunAppend(start, Flatten(rounds[..i]), rounds[i]);
        StaysPaused(View(), rounds[i]);
        PerformAll(rounds[i]);
        i := i + 1;
      }
    }
  }

  lemma {:induction false} NoResume(rounds: seq<seq<Step>>, i: nat)
    requires i < |rounds| && Resume !in Flatten(rounds)
    ensures Resume !in rounds[i]
    decreases |rounds|
  {
    if i < |rounds| - 1 {
      assert rounds[..|rounds| - 1][i] == rounds[i];
      NoResume(rounds[..|rounds| - 1], i);
    }
  }
}

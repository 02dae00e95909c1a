/**
 Watching the kinds of Flux sources (maybeWatchFluxSourceKind in stack_controller.go): reconciles of any
 number of Stacks run it at once, and installing a watch may fail.
 */
module Watches {
  import opened Prelude

  type Kind = string

  /*** One caller at a time ***/

  datatype Act = Marked(kind: Kind) | Installed(kind: Kind) | Refused(kind: Kind) | Unmarked(kind: Kind)

  class FluxWatcher {
    var watched: set<Kind>
    var installed: multiset<Kind>     // the watches the controller has
    ghost var acts: seq<Act>          // in order

    // The mark is set before the watch is installed, and taken back after that fails.
    method MaybeWatchFluxSourceKind(kind: Kind, installOk: bool) returns (ok: bool)
      modifies this
      ensures ok == (kind in old(watched) || installOk)
      ensures watched == if ok then old(watched) + {kind} else old(watched)
      ensures installed == if kind !in old(watched) && installOk then old(installed) + multiset{kind}
              else old(installed)
      ensures acts == old(acts) + if kind in old(watched) then []
                                  else if installOk then [Marked(kind), Installed(kind)]
                                  else [Marked(kind), Refused(kind), Unmarked(kind)]
    {
      ok := true;
      if kind !in watched {
        watched, acts := watched + {kind}, acts + [Marked(kind)];
        if installOk {
          installed, acts := installed + multiset{kind}, acts + [Installed(kind)];
        } else {
          acts := acts + [Refused(kind)];
          watched, acts := watched - {kind}, acts + [Unmarked(kind)];
          ok := false;
        }
      }
    }
  }

  /*** Many callers ***/

  datatype Phase =
    | Calling(kind: Kind)
    | Installing(kind: Kind)              // has set the mark
    | Retracting(kind: Kind)              // has failed, and must take the mark back
    | Returning(kind: Kind, ok: bool)

  datatype System = System(watched: set<Kind>, installed: multiset<Kind>, phases: map<nat, Phase>)

  datatype Step =
    | Call(i: nat, kind: Kind)
    | Mark(i: nat)                        // the first critical section
    | Install(i: nat, ok: bool)
    | Retract(i: nat)                     // the second
    | Return(i: nat)

  const START := System({}, multiset{}, map[])

  function At(s: System, i: nat, p: Phase): System {
    s.(phases := s.phases[i := p])
  }

  // Where a step is not possible, nothing happens.
  function Next(s: System, step: Step): System {
    match step
    case Call(i, kind) => if i in s.phases then s else At(s, i, Calling(kind))
    case Mark(i) =>
      if i in s.phases && s.phases[i].Calling?
      then
        var kind := s.phases[i].kind;
        if kind in s.watched then At(s, i, Returning(kind, true))
        else At(s, i, Installing(kind)).(watched := s.watched + {kind})
      else s
    case Install(i, ok) =>
      if i in s.phases && s.phases[i].Installing?
      then
        var kind := s.phases[i].kind;
        if ok then At(s, i, Returning(kind, true)).(installed := s.installed + multiset{kind})
        else At(s, i, Retracting(kind))
      else s
    case Retract(i) =>
      if i in s.phases && s.phases[i].Retracting?
      then At(s, i, Returning(s.phases[i].kind, false)).(watched := s.watched - {s.phases[i].kind}) else s
    case Return(i) => if i in s.phases && s.phases[i].Returning? then s.(phases := s.phases - {i}) else s
  }

  function Run(steps: seq<Step>): System {
    if steps == [] then START else Next(Run(steps[..|steps| - 1]), steps[|steps| - 1])
  }

  ghost predicate Reachable(s: System) {
    exists steps :: s == Run(steps)
  }

  // The caller has set the mark of the kind and neither installed the watch nor taken the mark back.
  predicate AtWork(s: System, i: nat, kind: Kind) {
    i in s.phases && (s.phases[i] == Installing(kind) || s.phases[i] == Retracting(kind))
  }

  ghost predicate KindInv(s: System, kind: Kind) {
    && s.installed[kind] <= 1
    && (forall i, j :: AtWork(s, i, kind) && AtWork(s, j, kind) ==> i == j)
    && (kind in s.watched <==> s.installed[kind] == 1 || exists i :: AtWork(s, i, kind))
    && (s.installed[kind] == 1 ==> forall i :: !AtWork(s, i, kind))
  }

  lemma NextKeepsKind(s: System, step: Step, kind: Kind)
    requires KindInv(s, kind)
    ensures KindInv(Next(s, step), kind)
  {
    var s' := Next(s, step);
    if s' != s {
      var i := step.i;
      assert forall j :: j != i ==> (AtWork(s', j, kind) <==> AtWork(s, j, kind));
      if AtWork(s, i, kind) || AtWork(s', i, kind) {
        assert forall j :: AtWork(s, j, kind) ==> j == i;
        assert (exists j :: AtWork(s', j, kind)) <==> AtWork(s', i, kind);
        assert (exists j :: AtWork(s, j, kind)) <==> AtWork(s, i, kind);
      } else {
        assert forall j :: AtWork(s', j, kind) <==> AtWork(s, j, kind);
        assert (exists j :: AtWork(s', j, kind)) <==> (exists j :: AtWork(s, j, kind));
      }
    }
  }

  lemma {:induction false} RunKeepsKind(steps: seq<Step>, kind: Kind)
    ensures KindInv(Run(steps), kind)
  {
    if steps != [] {
      RunKeepsKind(steps[..|steps| - 1], kind);
      NextKeepsKind(Run(steps[..|steps| - 1]), steps[|steps| - 1], kind);
    }
  }

  /**
   One watch per kind.  However callers and failures interleave, each kind has at most one watch, and it
   is marked as watched if and only if it has one or some caller is at work on it, never both and never
   two callers.
   */
  lemma OneWatchPerKind(s: System, kind: Kind)
    requires Reachable(s)
    ensures s.installed[kind] <= 1
    ensures kind in s.watched <==> s.installed[kind] == 1 || exists i :: AtWork(s, i, kind)
    ensures forall i, j :: AtWork(s, i, kind) && AtWork(s, j, kind) ==> i == j && s.installed[kind] == 0
  {
    var steps :| s == Run(steps);
    RunKeepsKind(steps, kind);
  }

  /** Once there is a watch it stays, and so does the mark. */
  lemma WatchStays(s: System, step: Step, kind: Kind)
    requires Reachable(s) && s.installed[kind] == 1
    ensures Next(s, step).installed[kind] == 1 && kind in Next(s, step).watched
  {
    OneWatchPerKind(s, kind);
    var steps :| s == Run(steps);
    RunKeepsKind(steps, kind);
    NextKeepsKind(s, step, kind);
  }

  // The states that steps lead to from a given one.
  function RunFrom(s: System, steps: seq<Step>): System {
    if steps == [] then s else Next(RunFrom(s, steps[..|steps| - 1]), steps[|steps| - 1])
  }

  lemma {:induction false} ReachableFrom(s: System, steps: seq<Step>)
    requires Reachable(s)
    ensures Reachable(RunFrom(s, steps))
  {
    if steps != [] {
      ReachableFrom(s, steps[..|steps| - 1]);
      ReachableNext(RunFrom(s, steps[..|steps| - 1]), steps[|steps| - 1]);
    }
  }

  lemma {:induction false} WatchStaysForEver(s: System, steps: seq<Step>, kind: Kind)
    requires Reachable(s) && s.installed[kind] == 1
    ensures RunFrom(s, steps).installed[kind] == 1 && kind in RunFrom(s, steps).watched
  {
    if steps == [] {
      OneWatchPerKind(s, kind);
    } else {
      WatchStaysForEver(s, steps[..|steps| - 1], kind);
      ReachableFrom(s, steps[..|steps| - 1]);
      WatchStays(RunFrom(s, steps[..|steps| - 1]), steps[|steps| - 1], kind);
    }
  }

  /** A caller that installed the watch itself is right to return nil: there is one in every later state. */
  lemma OwnInstallStands(s: System, i: nat, kind: Kind, later: seq<Step>)
    requires Reachable(s) && i in s.phases && s.phases[i] == Installing(kind)
    ensures RunFrom(Next(s, Install(i, true)), later).installed[kind] == 1
  {
    OneWatchPerKind(s, kind);
    assert AtWork(s, i, kind);
    ReachableNext(s, Install(i, true));
    WatchStaysForEver(Next(s, Install(i, true)), later, kind);
  }

  /**
   A caller that finds the kind marked returns nil with a watch behind it exactly if no other caller is at
   work on the kind; and that watch is there in every later state.
   */
  lemma NilMeansWatch(s: System, i: nat, kind: Kind, later: seq<Step>)
    requires Reachable(s) && i in s.phases && s.phases[i] == Calling(kind) && kind in s.watched
    ensures Next(s, Mark(i)).phases[i] == Returning(kind, true)
    ensures Next(s, Mark(i)).installed[kind] == 1 <==> !exists j :: AtWork(s, j, kind)
    ensures (!exists j :: AtWork(s, j, kind)) ==> RunFrom(Next(s, Mark(i)), later).installed[kind] == 1
  {
    OneWatchPerKind(s, kind);
    if !exists j :: AtWork(s, j, kind) {
      ReachableNext(s, Mark(i));
      WatchStaysForEver(Next(s, Mark(i)), later, kind);
    }
  }

  /**
   A nil return promises less than it seems: a caller that finds the kind marked returns nil while the
   other is still at work, and when that one fails there is no watch at all.
   */
  lemma NilWithoutWatch(kind: Kind)
    ensures exists s :: Reachable(s) && 1 in s.phases && s.phases[1] == Returning(kind, true)
                        && s.installed[kind] == 0 && kind !in s.watched
  {
    var s0 := START;
    assert Run([]) == s0;
    var s1 := Next(s0, Call(0, kind));
    var s2 := Next(s1, Mark(0));
    var s3 := Next(s2, Call(1, kind));
    var s4 := Next(s3, Mark(1));
    var s5 := Next(s4, Install(0, false));
    var s6 := Next(s5, Retract(0));
    ReachableNext(s0, Call(0, kind));
    ReachableNext(s1, Mark(0));
    ReachableNext(s2, Call(1, kind));
    ReachableNext(s3, Mark(1));
    ReachableNext(s4, Install(0, false));
    ReachableNext(s5, Retract(0));
  }

  lemma ReachableNext(s: System, step: Step)
    requires Reachable(s)
    ensures Reachable(Next(s, step))
  {
    var steps :| s == Run(steps);
    assert (steps + [step])[..|steps|] == steps;
    assert Next(s, step) == Run(steps + [step]);
  }
}

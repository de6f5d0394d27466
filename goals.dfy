/** The health-goal selection of the profile panel (`toggleGoal`): clicking a
    goal removes it if it is selected and selects it, at the end, if not. */
module Goals {

  type Goal = string

  /** `prev.filter(g => g !== goal)`: drops every occurrence of `goal` and keeps
      every other goal, with its multiplicity. */
  function RemoveAll(goals: seq<Goal>, goal: Goal): (r: seq<Goal>)
    ensures goal !in r
    ensures multiset(r) == multiset(goals)[goal := 0]
  {
    if goals == [] then []
    else
      assert goals == [goals[0]] + goals[1..];
      (if goals[0] == goal then [] else [goals[0]]) + RemoveAll(goals[1..], goal)
  }

  /** Filtering distributes over concatenation, so the kept goals stay in their
      original relative order. */
  lemma {:induction false} RemoveAllAppend(a: seq<Goal>, b: seq<Goal>, goal: Goal)
    ensures RemoveAll(a + b, goal) == RemoveAll(a, goal) + RemoveAll(b, goal)
  {
    if a != [] {
      var head := if a[0] == goal then [] else [a[0]];
      assert (a + b)[0] == a[0] && (a + b)[1..] == a[1..] + b;
      calc {
        RemoveAll(a + b, goal);
        head + RemoveAll(a[1..] + b, goal);
        { RemoveAllAppend(a[1..], b, goal); }
        head + (RemoveAll(a[1..], goal) + RemoveAll(b, goal));
        (head + RemoveAll(a[1..], goal)) + RemoveAll(b, goal);
        RemoveAll(a, goal) + RemoveAll(b, goal);
      }
    } else {
      assert a + b == b;
    }
  }

  /** Filtering out a goal that is not there changes nothing. */
  lemma {:induction false} RemoveAllAbsent(goals: seq<Goal>, goal: Goal)
    requires goal !in goals
    ensures RemoveAll(goals, goal) == goals
  {
    if goals != [] {
      RemoveAllAbsent(goals[1..], goal);
    }
  }

  /** `toggleGoal(goal)` applied to the selection `prev`. */
  function ToggleGoal(prev: seq<Goal>, goal: Goal): (r: seq<Goal>)
    ensures goal in r <==> goal !in prev
    ensures forall g :: g != goal ==> multiset(r)[g] == multiset(prev)[g]
    ensures goal !in prev ==> |r| == |prev| + 1 && r[..|prev|] == prev && r[|prev|] == goal
  {
    if goal in prev then RemoveAll(prev, goal) else prev + [goal]
  }

  /** Toggling an unselected goal twice gives back the original selection. */
  lemma ToggleAbsentTwice(prev: seq<Goal>, goal: Goal)
    requires goal !in prev
    ensures ToggleGoal(ToggleGoal(prev, goal), goal) == prev
  {
    RemoveAllAppend(prev, [goal], goal);
    RemoveAllAbsent(prev, goal);
  }

  /** No goal is selected twice. */
  predicate NoDuplicates(goals: seq<Goal>) {
    forall i, j :: 0 <= i < j < |goals| ==> goals[i] != goals[j]
  }

  /** A selection built from the empty list by toggles never lists a goal twice. */
  lemma ToggleKeepsNoDuplicates(prev: seq<Goal>, goal: Goal)
    requires NoDuplicates(prev)
    ensures NoDuplicates(ToggleGoal(prev, goal))
  {
    if goal in prev {
      RemoveAllKeepsNoDuplicates(prev, goal);
    }
  }

  lemma {:induction false} RemoveAllKeepsNoDuplicates(goals: seq<Goal>, goal: Goal)
    requires NoDuplicates(goals)
    ensures NoDuplicates(RemoveAll(goals, goal))
  {
    if goals != [] {
      RemoveAllKeepsNoDuplicates(goals[1..], goal);
      var rest := RemoveAll(goals[1..], goal);
      assert goals[0] !in goals[1..];
      assert multiset(rest)[goals[0]] == 0;
      assert goals[0] !in rest;
    }
  }
}

/** Worked inputs for the reply selector: the fallback, the priority order,
    substring (not word) matching and case-insensitivity, each proved from
    the general lemmas of `Responder`.

    The lemmas that take a string `s` together with `requires s == "..."` are
    about one fixed input all the same. The parameter keeps the literal
    symbolic inside their proofs: written as a literal, it makes the verifier
    evaluate `ToLower`, `Contains` and `Hits` on it character by character,
    which is far slower. The "Misses" lemmas have one shape, but each one is
    about a different input and group. */
module ResponderExamples {
  import opened Text
  import opened Responder

  /** A group none of whose keywords starts with a character of `s` is not hit. */
  lemma NotHitWhenNoInitial(s: string, c: Category)
    requires forall kw :: kw in Keywords(c) ==> |kw| > 0 && kw[0] !in s
    ensures !Hits(s, c)
  {
  }

  /** The empty input gets the menu. */
  lemma EmptyInputGetsMenu()
    ensures Classify("") == General
  {
    assert ToLower("") == "";
    forall c ensures !Hits("", c) {
      NotHitWhenNoInitial("", c);
    }
    MenuIffNoKeyword("");
  }

  lemma XyzzyHitsNothing(s: string)
    requires s == "xyzzy"
    ensures forall c :: !Hits(s, c)
  {
    forall c ensures !Hits(s, c) {
      NotHitWhenNoInitial(s, c);
    }
  }

  /** Input with no keyword gets the menu. */
  lemma NonsenseGetsMenu()
    ensures Classify("xyzzy") == General
  {
    var s := "xyzzy";
    assert ToLower(s) == s;
    XyzzyHitsNothing(s);
    MenuIffNoKeyword(s);
  }

  lemma GreatMissesWeightLoss(s: string)
    requires s == "great"
    ensures !Hits(s, WeightLoss)
  {
  }

  lemma GreatMissesMuscleGain(s: string)
    requires s == "great"
    ensures !Hits(s, MuscleGain)
  {
    MissingCharNotContained(s, "muscle", 'm');
    MissingCharNotContained(s, "gain weight", 'i');
    MissingCharNotContained(s, "bulk", 'b');
  }

  lemma GreatMissesWorkout(s: string)
    requires s == "great"
    ensures !Hits(s, Workout)
  {
    MissingCharNotContained(s, "workout", 'w');
    MissingCharNotContained(s, "exercise", 'x');
    MissingCharNotContained(s, "routine", 'o');
    MissingCharNotContained(s, "gym", 'y');
  }

  /** Matching is by substring: "great" contains "eat" and gets the nutrition text. */
  lemma GreatGetsNutrition()
    ensures Classify("great") == Nutrition
  {
    var s := "great";
    assert ToLower(s) == s;
    GreatMissesWeightLoss(s);
    GreatMissesMuscleGain(s);
    GreatMissesWorkout(s);
    assert OccursAt(s, "eat", 2) && "eat" in Keywords(Nutrition);
    ClassifyIsFirstHit(s, Nutrition);
  }

  /** An earlier group wins over a later one: "tired" (sleep) loses to "lose weight". */
  lemma LoseWeightBeatsTired()
    ensures Classify("tired but want to lose weight") == WeightLoss
  {
    var s := "tired but want to lose weight";
    assert OccursAt(s, "lose weight", 18);
    LoweringKeepsOccurrence(s, "lose weight", 18);
    LoseWeightAlwaysWins(s);
  }

  /** Capitals elsewhere in a question do not hide a keyword. */
  lemma QuestionGetsWeightLoss()
    ensures Classify("How can I lose weight?") == WeightLoss
  {
    var q := "How can I lose weight?";
    assert OccursAt(q, "lose weight", 10);
    LoweringKeepsOccurrence(q, "lose weight", 10);
    LoseWeightAlwaysWins(q);
  }

  lemma RoutineQuestionMissesWeightLoss(s: string)
    requires s == "best workout routine"
    ensures !Hits(s, WeightLoss)
  {
    MissingCharNotContained(s, "weight loss", 'l');
    MissingCharNotContained(s, "lose weight", 'l');
    MissingCharNotContained(s, "fat loss", 'f');
  }

  lemma RoutineQuestionMissesMuscleGain(s: string)
    requires s == "best workout routine"
    ensures !Hits(s, MuscleGain)
  {
    MissingCharNotContained(s, "muscle", 'm');
    MissingCharNotContained(s, "gain weight", 'g');
    MissingCharNotContained(s, "bulk", 'l');
  }

  lemma RoutineQuestionLowered(s: string)
    requires s == "best workout routine"
    ensures ToLower(s) == s
  {
    assert forall i :: 0 <= i < |s| ==> ToLower(s)[i] == LowerChar(s[i]);
  }

  /** "best workout routine" misses the first two groups and hits "workout". */
  lemma RoutineQuestionFirstHit(s: string)
    requires s == "best workout routine"
    ensures IsFirstHit(ToLower(s), Workout)
  {
    RoutineQuestionLowered(s);
    RoutineQuestionMissesWeightLoss(s);
    RoutineQuestionMissesMuscleGain(s);
    assert OccursAt(s, "workout", 5) && "workout" in Keywords(Workout);
  }

  /** A workout question gets the workout plan. */
  lemma RoutineQuestionGetsWorkout()
    ensures Classify("best workout routine") == Workout
  {
    RoutineQuestionFirstHit("best workout routine");
    ClassifyIsFirstHit("best workout routine", Workout);
  }

  lemma CantSleepLowered(s: string)
    requires s == "I can't sleep"
    ensures ToLower(s) == "i can't sleep"
  {
    assert forall i :: 0 <= i < |s| ==> ToLower(s)[i] == LowerChar(s[i]);
  }

  lemma CantSleepMissesWeightLoss(t: string)
    requires t == "i can't sleep"
    ensures !Hits(t, WeightLoss)
  {
    MissingCharNotContained(t, "weight loss", 'w');
    MissingCharNotContained(t, "lose weight", 'o');
    MissingCharNotContained(t, "fat loss", 'f');
  }

  lemma CantSleepMissesMuscleGain(t: string)
    requires t == "i can't sleep"
    ensures !Hits(t, MuscleGain)
  {
    MissingCharNotContained(t, "muscle", 'm');
    MissingCharNotContained(t, "gain weight", 'g');
    MissingCharNotContained(t, "bulk", 'b');
  }

  lemma CantSleepMissesWorkout(t: string)
    requires t == "i can't sleep"
    ensures !Hits(t, Workout)
  {
    MissingCharNotContained(t, "workout", 'w');
    MissingCharNotContained(t, "exercise", 'x');
    MissingCharNotContained(t, "routine", 'o');
    MissingCharNotContained(t, "gym", 'g');
  }

  lemma CantSleepMissesNutrition(t: string)
    requires t == "i can't sleep"
    ensures !Hits(t, Nutrition)
  {
    MissingCharNotContained(t, "diet", 'd');
    MissingCharNotContained(t, "nutrition", 'o');
    MissingCharNotContained(t, "meal", 'm');
    MissingCharNotContained(t, "food", 'f');
    forall i: nat ensures !OccursAt(t, "eat", i) {
      CantSleepNoEatAt(t, i);
    }
  }

  /** The only 'a' of "i can't sleep" follows a 'c', so "eat" occurs nowhere. */
  lemma CantSleepNoEatAt(t: string, i: nat)
    requires t == "i can't sleep"
    ensures !OccursAt(t, "eat", i)
  {
    if i + 3 <= |t| {
      assert t[i..i + 3][0] == t[i] && t[i..i + 3][1] == t[i + 1];
      if i == 2 {
        assert t[i] == 'c';
      } else {
        assert t[i + 1] != 'a';
      }
    }
  }

  lemma CantSleepMissesMentalHealth(t: string)
    requires t == "i can't sleep"
    ensures !Hits(t, MentalHealth)
  {
    MissingCharNotContained(t, "stress", 'r');
    MissingCharNotContained(t, "anxiety", 'x');
    MissingCharNotContained(t, "mental", 'm');
    MissingCharNotContained(t, "depression", 'd');
  }

  /** No keyword of an earlier group occurs in "i can't sleep" (not even "eat"),
      and "sleep" does. */
  lemma CantSleepFirstHit(s: string)
    requires s == "I can't sleep"
    ensures IsFirstHit(ToLower(s), Sleep)
  {
    CantSleepLowered(s);
    var t := ToLower(s);
    CantSleepMissesWeightLoss(t);
    CantSleepMissesMuscleGain(t);
    CantSleepMissesWorkout(t);
    CantSleepMissesNutrition(t);
    CantSleepMissesMentalHealth(t);
    assert OccursAt(t, "sleep", 8) && "sleep" in Keywords(Sleep);
  }

  /** "I can't sleep" gets the sleep guide. */
  lemma CantSleepGetsSleep()
    ensures Classify("I can't sleep") == Sleep
  {
    CantSleepFirstHit("I can't sleep");
    ClassifyIsFirstHit("I can't sleep", Sleep);
  }

  /** Upper-case letters do not change the reply. */
  lemma ShoutedWorkoutSameReply()
    ensures Classify("WORKOUT plan") == Classify("workout plan")
  {
    var a, b := "WORKOUT plan", "workout plan";
    assert SameUpToCase(a, b);
    ClassifyIgnoresCase(a, b);
  }
}

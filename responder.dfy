/** The coach's reply selector (`generateAIResponse`): the lower-cased input
    is matched against seven keyword groups in a fixed order, the first group
    with a keyword that occurs in it decides the reply, and input that hits no
    group gets the general menu. */
module Responder {
  import opened Text

  /** The eight replies: one per keyword group, and the general fallback. */
  datatype Category = WeightLoss | MuscleGain | Workout | Nutrition | MentalHealth | Sleep | Injury | General

  /** The keywords of each group, as the source tests them; the fallback has none. */
  function Keywords(c: Category): seq<string> {
    match c
    case WeightLoss => ["weight loss", "lose weight", "fat loss"]
    case MuscleGain => ["muscle", "gain weight", "bulk"]
    case Workout => ["workout", "exercise", "routine", "gym"]
    case Nutrition => ["diet", "nutrition", "meal", "food", "eat"]
    case MentalHealth => ["stress", "anxiety", "mental", "depression"]
    case Sleep => ["sleep", "insomnia", "tired"]
    case Injury => ["pain", "injury", "hurt", "sore"]
    case General => []
  }

  /** The order in which the groups are tried. */
  const Priority: seq<Category> := [WeightLoss, MuscleGain, Workout, Nutrition, MentalHealth, Sleep, Injury]

  /** Position of a category in the priority order; the fallback comes last. */
  function Rank(c: Category): (r: nat)
    ensures r < |Priority| ==> Priority[r] == c
    ensures r == |Priority| <==> c == General
  {
    match c
    case WeightLoss => 0
    case MuscleGain => 1
    case Workout => 2
    case Nutrition => 3
    case MentalHealth => 4
    case Sleep => 5
    case Injury => 6
    case General => 7
  }

  /** The fixed advice text of each category, verbatim. */
  function ReplyText(c: Category): string {
    match c
    case WeightLoss =>
      "🎯 **Weight Loss Tips:**\n\n" +
      "1. **Caloric Deficit**: Consume fewer calories than you burn (aim for 300-500 calorie deficit)\n" +
      "2. **Protein Intake**: Eat 1.6-2.2g protein per kg body weight to preserve muscle\n" +
      "3. **Strength Training**: 3-4 times per week to maintain metabolism\n" +
      "4. **Cardio**: 150-300 minutes of moderate activity weekly\n" +
      "5. **Sleep**: Get 7-9 hours - poor sleep increases hunger hormones\n" +
      "6. **Hydration**: Drink 3-4 liters of water daily\n" +
      "7. **Avoid**: Processed foods, sugary drinks, excessive snacking\n\n" +
      "💡 **Pro Tip**: Sustainable weight loss is 0.5-1kg per week. Focus on building healthy habits rather than quick fixes!"
    case MuscleGain =>
      "💪 **Muscle Building Guide:**\n\n" +
      "1. **Caloric Surplus**: Eat 300-500 calories above maintenance\n" +
      "2. **Protein**: 1.6-2.2g per kg body weight daily\n" +
      "3. **Progressive Overload**: Gradually increase weight/reps\n" +
      "4. **Workout Split**: Train each muscle group 2x per week\n" +
      "5. **Compound Exercises**: Focus on squats, deadlifts, bench press, rows\n" +
      "6. **Recovery**: 48-72 hours rest between training same muscle group\n" +
      "7. **Carbs**: Eat complex carbs (rice, oats, potatoes) for energy\n\n" +
      "🍗 **Sample Meal Plan**: 4-6 meals daily with protein source in each (chicken, eggs, fish, legumes)\n\n" +
      "⏰ **Patience**: Expect 0.25-0.5kg muscle gain per month for natural lifters."
    case Workout =>
      "🏋️ **Workout Plan Options:**\n\n" +
      "**For Beginners (3 days/week):**\n" +
      "• Monday: Full Body (Squats, Push-ups, Rows, Planks)\n" +
      "• Wednesday: Full Body (Lunges, Overhead Press, Pull-ups, Crunches)\n" +
      "• Friday: Full Body (Deadlifts, Bench Press, Lat Pulldowns, Leg Raises)\n\n" +
      "**Intermediate (4 days/week):**\n" +
      "• Day 1: Upper Body Push\n" +
      "• Day 2: Lower Body\n" +
      "• Day 3: Rest\n" +
      "• Day 4: Upper Body Pull\n" +
      "• Day 5: Lower Body\n\n" +
      "**Each Session:**\n" +
      "• Warm-up: 5-10 minutes\n" +
      "• Main workout: 45-60 minutes\n" +
      "• Cool down: 5-10 minutes stretching\n\n" +
      "📝 Start with 3 sets of 8-12 reps for each exercise!"
    case Nutrition =>
      "🥗 **Healthy Nutrition Guide:**\n\n" +
      "**Daily Macros:**\n" +
      "• Protein: 25-35% of calories (lean meats, eggs, fish, legumes)\n" +
      "• Carbs: 45-55% (whole grains, fruits, vegetables)\n" +
      "• Fats: 20-30% (nuts, avocado, olive oil, fatty fish)\n\n" +
      "**Meal Structure:**\n\n" +
      "🍳 **Breakfast**: Oats with protein powder, eggs with vegetables\n" +
      "🥙 **Lunch**: Grilled chicken/fish with brown rice and salad\n" +
      "🍎 **Snacks**: Greek yogurt, nuts, fruits\n" +
      "🍽️ **Dinner**: Lean protein with quinoa/sweet potato and veggies\n\n" +
      "**Foods to Prioritize:**\n" +
      "✅ Leafy greens, berries, lean proteins, whole grains, healthy fats\n" +
      "❌ Processed foods, sugary drinks, trans fats, excessive alcohol\n\n" +
      "💧 **Hydration**: Drink 3-4 liters of water daily!"
    case MentalHealth =>
      "🧘 **Mental Health & Stress Management:**\n\n" +
      "**Immediate Relief:**\n" +
      "• Deep breathing: 4-7-8 technique (inhale 4s, hold 7s, exhale 8s)\n" +
      "• Take a walk outside for 10-15 minutes\n" +
      "• Practice progressive muscle relaxation\n\n" +
      "**Daily Habits:**\n" +
      "1. **Exercise**: 30 min daily - releases endorphins\n" +
      "2. **Sleep**: 7-9 hours - crucial for mental health\n" +
      "3. **Meditation**: 10-20 minutes mindfulness practice\n" +
      "4. **Social Connection**: Talk to friends/family regularly\n" +
      "5. **Limit Screen Time**: Especially before bed\n" +
      "6. **Journaling**: Write down thoughts and feelings\n\n" +
      "**Natural Stress Reducers:**\n" +
      "• Omega-3 fatty acids (fish, walnuts)\n" +
      "• Magnesium-rich foods (spinach, almonds)\n" +
      "• Green tea (contains L-theanine)\n" +
      "• Regular sunlight exposure\n\n" +
      "⚠️ If symptoms persist, please consult a mental health professional."
    case Sleep =>
      "😴 **Better Sleep Guide:**\n\n" +
      "**Sleep Hygiene Rules:**\n" +
      "1. **Consistent Schedule**: Same bedtime & wake time daily\n" +
      "2. **Dark Room**: Use blackout curtains, remove electronics\n" +
      "3. **Cool Temperature**: 60-67°F (15-19°C) is optimal\n" +
      "4. **No Screens**: Avoid blue light 1-2 hours before bed\n" +
      "5. **No Caffeine**: After 2 PM\n" +
      "6. **Light Dinner**: Eat 2-3 hours before bed\n\n" +
      "**Bedtime Routine:**\n" +
      "• 9:00 PM - Dim lights, stop work\n" +
      "• 9:30 PM - Warm shower/bath\n" +
      "• 10:00 PM - Read or light stretching\n" +
      "• 10:30 PM - Sleep time\n\n" +
      "**Natural Sleep Aids:**\n" +
      "• Magnesium supplement (400mg)\n" +
      "• Chamomile tea\n" +
      "• Lavender essential oil\n" +
      "• 4-7-8 breathing technique\n\n" +
      "🎯 **Goal**: 7-9 hours of quality sleep per night!"
    case Injury =>
      "🏥 **Injury Prevention & Recovery:**\n\n" +
      "**For Muscle Soreness (DOMS):**\n" +
      "• Light activity/walking to increase blood flow\n" +
      "• Foam rolling and stretching\n" +
      "• Adequate protein intake (helps repair)\n" +
      "• Stay hydrated\n" +
      "• Get enough sleep\n\n" +
      "**For Acute Injury (RICE Protocol):**\n" +
      "• **R**est: Stop the activity\n" +
      "• **I**ce: Apply for 15-20 min every 2-3 hours\n" +
      "• **C**ompression: Use bandage to reduce swelling\n" +
      "• **E**levation: Keep injured area raised\n\n" +
      "**Prevention Tips:**\n" +
      "1. Always warm up before exercise (5-10 min)\n" +
      "2. Use proper form - quality over quantity\n" +
      "3. Progress gradually - don't increase intensity too fast\n" +
      "4. Include rest days in your routine\n" +
      "5. Listen to your body\n\n" +
      "⚠️ **Red Flags**: If you have severe pain, swelling, or limited mobility, please see a doctor immediately!"
    case General =>
      "I'm here to help with your health and fitness questions! 🌟\n\n" +
      "I can provide advice on:\n\n" +
      "✅ **Fitness**: Workout routines, exercise techniques\n" +
      "✅ **Nutrition**: Diet plans, meal prep, macros\n" +
      "✅ **Weight Management**: Loss, gain, or maintenance\n" +
      "✅ **Recovery**: Sleep, injury prevention\n" +
      "✅ **Wellness**: Stress management, mental health\n\n" +
      "Please ask me a specific question, and I'll provide detailed advice!\n\n" +
      "Examples:\n" +
      "• \"How can I lose weight?\"\n" +
      "• \"What's a good workout routine?\"\n" +
      "• \"Tips for better sleep?\""
  }

  /** The condition of one `if` of the selector. */
  function Matches(s: string, c: Category): bool {
    match c
    case WeightLoss => Includes(s, "weight loss") || Includes(s, "lose weight") || Includes(s, "fat loss")
    case MuscleGain => Includes(s, "muscle") || Includes(s, "gain weight") || Includes(s, "bulk")
    case Workout => Includes(s, "workout") || Includes(s, "exercise") || Includes(s, "routine") || Includes(s, "gym")
    case Nutrition => Includes(s, "diet") || Includes(s, "nutrition") || Includes(s, "meal") || Includes(s, "food") || Includes(s, "eat")
    case MentalHealth => Includes(s, "stress") || Includes(s, "anxiety") || Includes(s, "mental") || Includes(s, "depression")
    case Sleep => Includes(s, "sleep") || Includes(s, "insomnia") || Includes(s, "tired")
    case Injury => Includes(s, "pain") || Includes(s, "injury") || Includes(s, "hurt") || Includes(s, "sore")
    case General => false
  }

  /** Which reply `generateAIResponse(userInput)` returns: the `if` chain of the
      source, tried in order on the lower-cased input. */
  function Classify(userInput: string): Category {
    var s := ToLower(userInput);
    if Matches(s, WeightLoss) then WeightLoss
    else if Matches(s, MuscleGain) then MuscleGain
    else if Matches(s, Workout) then Workout
    else if Matches(s, Nutrition) then Nutrition
    else if Matches(s, MentalHealth) then MentalHealth
    else if Matches(s, Sleep) then Sleep
    else if Matches(s, Injury) then Injury
    else General
  }

  /** `generateAIResponse(userInput)`. */
  function Respond(userInput: string): string {
    ReplyText(Classify(userInput))
  }

  // ---------------------------------------------------------------------------
  // Specification: the first group in priority order with a keyword occurring
  // as a substring of the lower-cased input wins.

  /** Some keyword of group `c` occurs somewhere in `s`. */
  ghost predicate Hits(s: string, c: Category) {
    exists kw :: kw in Keywords(c) && Contains(s, kw)
  }

  /** `c` is the reply a first-match table lookup gives for `s`: it is hit (or
      is the fallback) and no group before it is hit. */
  ghost predicate IsFirstHit(s: string, c: Category) {
    (c == General || Hits(s, c)) && forall g :: Rank(g) < Rank(c) ==> !Hits(s, g)
  }

  /** Each `if` of the selector tests exactly whether its group is hit. */
  lemma MatchesIffHits(s: string, c: Category)
    ensures Matches(s, c) <==> Hits(s, c)
  {
    match c
    case WeightLoss =>
      IncludesIffContains(s, "weight loss");
      IncludesIffContains(s, "lose weight");
      IncludesIffContains(s, "fat loss");
      SomeOfThree(s, "weight loss", "lose weight", "fat loss");
    case MuscleGain =>
      IncludesIffContains(s, "muscle");
      IncludesIffContains(s, "gain weight");
      IncludesIffContains(s, "bulk");
      SomeOfThree(s, "muscle", "gain weight", "bulk");
    case Workout =>
      IncludesIffContains(s, "workout");
      IncludesIffContains(s, "exercise");
      IncludesIffContains(s, "routine");
      IncludesIffContains(s, "gym");
      SomeOfFour(s, "workout", "exercise", "routine", "gym");
    case Nutrition =>
      IncludesIffContains(s, "diet");
      IncludesIffContains(s, "nutrition");
      IncludesIffContains(s, "meal");
      IncludesIffContains(s, "food");
      IncludesIffContains(s, "eat");
      SomeOfFive(s, "diet", "nutrition", "meal", "food", "eat");
    case MentalHealth =>
      IncludesIffContains(s, "stress");
      IncludesIffContains(s, "anxiety");
      IncludesIffContains(s, "mental");
      IncludesIffContains(s, "depression");
      SomeOfFour(s, "stress", "anxiety", "mental", "depression");
    case Sleep =>
      IncludesIffContains(s, "sleep");
      IncludesIffContains(s, "insomnia");
      IncludesIffContains(s, "tired");
      SomeOfThree(s, "sleep", "insomnia", "tired");
    case Injury =>
      IncludesIffContains(s, "pain");
      IncludesIffContains(s, "injury");
      IncludesIffContains(s, "hurt");
      IncludesIffContains(s, "sore");
      SomeOfFour(s, "pain", "injury", "hurt", "sore");
    case General =>
  }

  /** Some keyword of a three-, four- or five-keyword group occurs exactly when
      one of them, tested in order, does. */
  lemma SomeOfThree(s: string, a: string, b: string, c: string)
    ensures (exists kw :: kw in [a, b, c] && Contains(s, kw)) <==>
      Contains(s, a) || Contains(s, b) || Contains(s, c)
  {
    if Contains(s, a) { assert a in [a, b, c]; }
    if Contains(s, b) { assert b in [a, b, c]; }
    if Contains(s, c) { assert c in [a, b, c]; }
  }

  lemma SomeOfFour(s: string, a: string, b: string, c: string, d: string)
    ensures (exists kw :: kw in [a, b, c, d] && Contains(s, kw)) <==>
      Contains(s, a) || Contains(s, b) || Contains(s, c) || Contains(s, d)
  {
    if Contains(s, a) { assert a in [a, b, c, d]; }
    if Contains(s, b) { assert b in [a, b, c, d]; }
    if Contains(s, c) { assert c in [a, b, c, d]; }
    if Contains(s, d) { assert d in [a, b, c, d]; }
  }

  lemma SomeOfFive(s: string, a: string, b: string, c: string, d: string, e: string)
    ensures (exists kw :: kw in [a, b, c, d, e] && Contains(s, kw)) <==>
      Contains(s, a) || Contains(s, b) || Contains(s, c) || Contains(s, d) || Contains(s, e)
  {
    if Contains(s, a) { assert a in [a, b, c, d, e]; }
    if Contains(s, b) { assert b in [a, b, c, d, e]; }
    if Contains(s, c) { assert c in [a, b, c, d, e]; }
    if Contains(s, d) { assert d in [a, b, c, d, e]; }
    if Contains(s, e) { assert e in [a, b, c, d, e]; }
  }

  /** The selector is the first-match table lookup: it returns `c` exactly when
      `c` is the first group hit by the lower-cased input, or the fallback when
      none is. */
  lemma ClassifyIsFirstHit(userInput: string, c: Category)
    ensures Classify(userInput) == c <==> IsFirstHit(ToLower(userInput), c)
  {
    ClassifyHitsFirst(userInput);
    if IsFirstHit(ToLower(userInput), c) {
      FirstHitUnique(ToLower(userInput), c, Classify(userInput));
    }
  }

  /** The selector's answer is the first group hit. */
  lemma ClassifyHitsFirst(userInput: string)
    ensures IsFirstHit(ToLower(userInput), Classify(userInput))
  {
    var s := ToLower(userInput);
    var c := Classify(userInput);
    ClassifyFirstMatch(userInput);
    if c != General {
      MatchesIffHits(s, c);
    }
    forall g | Rank(g) < Rank(c)
      ensures !Hits(s, g)
    {
      MatchesIffHits(s, g);
    }
  }

  /** The selector's answer is the menu or a group whose test succeeds, and
      the test of every group before it fails. */
  lemma ClassifyFirstMatch(userInput: string)
    ensures Classify(userInput) == General || Matches(ToLower(userInput), Classify(userInput))
    ensures forall g :: Rank(g) < Rank(Classify(userInput)) ==> !Matches(ToLower(userInput), g)
  {
  }

  /** At most one group is the first hit. */
  lemma FirstHitUnique(s: string, c: Category, d: Category)
    requires IsFirstHit(s, c) && IsFirstHit(s, d)
    ensures c == d
  {
  }

  /** The menu is chosen exactly when no keyword of any group occurs in the
      lower-cased input (the empty input included). */
  lemma MenuIffNoKeyword(userInput: string)
    ensures Classify(userInput) == General <==> forall c :: !Hits(ToLower(userInput), c)
  {
    ClassifyIsFirstHit(userInput, General);
  }

  /** The length of each reply text; no two are equal. */
  function ReplyLength(c: Category): nat {
    match c
    case WeightLoss => 629
    case MuscleGain => 646
    case Workout => 555
    case Nutrition => 678
    case MentalHealth => 788
    case Sleep => 681
    case Injury => 766
    case General => 497
  }

  lemma WeightLossReplyLength()
    ensures |ReplyText(WeightLoss)| == ReplyLength(WeightLoss)
  {
  }

  lemma MuscleGainReplyLength()
    ensures |ReplyText(MuscleGain)| == ReplyLength(MuscleGain)
  {
  }

  lemma WorkoutReplyLength()
    ensures |ReplyText(Workout)| == ReplyLength(Workout)
  {
  }

  lemma NutritionReplyLength()
    ensures |ReplyText(Nutrition)| == ReplyLength(Nutrition)
  {
  }

  lemma MentalHealthReplyLength()
    ensures |ReplyText(MentalHealth)| == ReplyLength(MentalHealth)
  {
  }

  lemma SleepReplyLength()
    ensures |ReplyText(Sleep)| == ReplyLength(Sleep)
  {
  }

  lemma InjuryReplyLength()
    ensures |ReplyText(Injury)| == ReplyLength(Injury)
  {
  }

  lemma GeneralReplyLength()
    ensures |ReplyText(General)| == ReplyLength(General)
  {
  }

  /** Each reply text has the length `ReplyLength` gives. */
  lemma ReplyTextLength(c: Category)
    ensures |ReplyText(c)| == ReplyLength(c)
  {
    match c
    case WeightLoss => WeightLossReplyLength();
    case MuscleGain => MuscleGainReplyLength();
    case Workout => WorkoutReplyLength();
    case Nutrition => NutritionReplyLength();
    case MentalHealth => MentalHealthReplyLength();
    case Sleep => SleepReplyLength();
    case Injury => InjuryReplyLength();
    case General => GeneralReplyLength();
  }

  /** The eight reply texts differ pairwise (their lengths already do), so the
      reply determines the category it was chosen for. */
  lemma ReplyTextInjective(a: Category, b: Category)
    requires ReplyText(a) == ReplyText(b)
    ensures a == b
  {
    assert |ReplyText(a)| == |ReplyText(b)|;
    ReplyTextLength(a);
    ReplyTextLength(b);
    LengthDetermines(a, b);
  }

  lemma LengthDetermines(a: Category, b: Category)
    requires ReplyLength(a) == ReplyLength(b)
    ensures a == b
  {
  }

  /** The menu text is the reply exactly when no keyword of any group occurs in
      the lower-cased input. */
  lemma RespondMenuIffNoKeyword(userInput: string)
    ensures Respond(userInput) == ReplyText(General) <==> forall c :: !Hits(ToLower(userInput), c)
  {
    var c := Classify(userInput);
    assert Respond(userInput) == ReplyText(c);
    MenuTextOnlyForMenu(c);
    assert Respond(userInput) == ReplyText(General) <==> c == General;
    MenuIffNoKeyword(userInput);
  }

  lemma MenuTextOnlyForMenu(c: Category)
    ensures ReplyText(c) == ReplyText(General) <==> c == General
  {
    if ReplyText(c) == ReplyText(General) {
      ReplyTextInjective(c, General);
    }
  }

  /** A group that is hit bounds the winner: the reply comes from that group or
      from one before it, never from a later group or the menu. */
  lemma HitGroupOrEarlierWins(userInput: string, c: Category)
    requires Hits(ToLower(userInput), c)
    ensures Rank(Classify(userInput)) <= Rank(c) < |Priority|
  {
    ClassifyIsFirstHit(userInput, Classify(userInput));
  }

  /** Input mentioning "lose weight" gets the weight-loss text whatever else it says. */
  lemma LoseWeightAlwaysWins(userInput: string)
    requires Contains(ToLower(userInput), "lose weight")
    ensures Classify(userInput) == WeightLoss
  {
    assert Hits(ToLower(userInput), WeightLoss);
    HitGroupOrEarlierWins(userInput, WeightLoss);
  }

  /** The selector is blind to the case of ASCII letters. */
  lemma ClassifyIgnoresCase(a: string, b: string)
    requires SameUpToCase(a, b)
    ensures Classify(a) == Classify(b)
  {
    SameUpToCaseLowersEqually(a, b);
  }

  /** Lower-casing the input first changes nothing. */
  lemma ClassifyLowered(userInput: string)
    ensures Classify(ToLower(userInput)) == Classify(userInput)
  {
    ToLowerIdempotent(userInput);
  }
}

/**
  The planner's vocabulary: the integer codes the form hands over, the equipment
  label, the minute splits and the fifteen option tables (three goals, five
  workout types each). Every table is written out verbatim; the strength and
  mixed tables depend on the equipment label and on the time budget, exactly
  where the generator's f-strings interpolate them.
 */
module WorkoutOptions {
  import opened Optional
  import opened Decimal

  datatype Goal = WeightLoss | MuscleGain | Maintenance

  datatype Kind = Cardio | Strength | Flexibility | Hiit | Mixed

  /** The goal code as the generator dispatches on it: 1, 2 and 3, nothing else. */
  function GoalOf(code: int): (g: Option<Goal>)
    ensures g == Some(WeightLoss) <==> code == 1
    ensures g == Some(MuscleGain) <==> code == 2
    ensures g == Some(Maintenance) <==> code == 3
  {
    if code == 1 then Some(WeightLoss)
    else if code == 2 then Some(MuscleGain)
    else if code == 3 then Some(Maintenance)
    else None
  }

  /** The workout-type code as every sub-generator dispatches on it: 1 to 5. */
  function KindOf(code: int): (k: Option<Kind>)
    ensures k.Some? <==> 1 <= code <= 5
    ensures k == Some(Cardio) <==> code == 1
    ensures k == Some(Strength) <==> code == 2
    ensures k == Some(Flexibility) <==> code == 3
    ensures k == Some(Hiit) <==> code == 4
    ensures k == Some(Mixed) <==> code == 5
  {
    if code == 1 then Some(Cardio)
    else if code == 2 then Some(Strength)
    else if code == 3 then Some(Flexibility)
    else if code == 4 then Some(Hiit)
    else if code == 5 then Some(Mixed)
    else None
  }

  /** Label of an equipment code; total, with a fallback for every unknown code. */
  function EquipmentLevel(code: int): string {
    if code == 1 then "no equipment"
    else if code == 2 then "basic equipment (dumbbells, resistance bands)"
    else if code == 3 then "full gym access"
    else "unknown equipment"
  }

  /** The three known codes have labels of their own; every other code shares the fallback. */
  lemma EquipmentLevelCases(code: int)
    ensures EquipmentLevel(code) == "no equipment" <==> code == 1
    ensures EquipmentLevel(code) == "basic equipment (dumbbells, resistance bands)" <==> code == 2
    ensures EquipmentLevel(code) == "full gym access" <==> code == 3
    ensures EquipmentLevel(code) == "unknown equipment" <==> code !in {1, 2, 3}
  {
  }

  /** Python's `t // 2`: the largest whole number of minutes whose double fits in `t`. */
  function Half(t: int): (h: int)
    ensures 2 * h <= t < 2 * h + 2
    ensures h + h == (if t % 2 == 0 then t else t - 1)
  {
    t / 2
  }

  /** Python's `t // 3`. */
  function Third(t: int): (h: int)
    ensures 3 * h <= t < 3 * h + 3
  {
    t / 3
  }

  /**
    "<t//2> minutes of <first> and <t//2> minutes of <second>": the even split
    that opens every mixed list.
   */
  function HalfAndHalf(t: int, first: string, second: string): string {
    var h := IntToString(Half(t));
    h + " minutes of " + first + " and " + h + " minutes of " + second
  }

  /**
    Both figures of an even split read back as the floor of half the budget: the
    one at the head of the text and the one right after " and ".
   */
  lemma HalfAndHalfFigures(t: int, first: string, second: string)
    ensures LeadingInt(HalfAndHalf(t, first, second)) == Some(t / 2)
    ensures var k := |IntToString(Half(t)) + " minutes of " + first + " and "|;
      k <= |HalfAndHalf(t, first, second)| && LeadingInt(HalfAndHalf(t, first, second)[k..]) == Some(t / 2)
  {
    var h := IntToString(Half(t));
    var s := HalfAndHalf(t, first, second);
    var tail := " minutes of " + second;
    var rest := " minutes of " + first + " and " + h + tail;
    assert s == h + rest;
    LeadingIntOfIntToString(Half(t), rest);
    var k := |h + " minutes of " + first + " and "|;
    assert s == (h + " minutes of " + first + " and ") + (h + tail);
    assert s[k..] == h + tail;
    LeadingIntOfIntToString(Half(t), tail);
  }

  /** Number of options of each (goal, workout type) list: the weekly rotation period. */
  function Period(goal: Goal, kind: Kind): nat {
    match kind
    case Cardio => if goal == MuscleGain then 4 else 5
    case Strength => 5
    case Flexibility => 4
    case Hiit => if goal == WeightLoss then 5 else 4
    case Mixed => 5
  }

  // ---- weight loss -------------------------------------------------------

  function WeightLossCardio(): (opts: seq<string>)
    ensures |opts| == Period(WeightLoss, Cardio)
  {
    ["moderate running or cycling", "brisk walking on incline", "elliptical or stair climbing",
     "swimming laps", "dancing or cardio kickboxing"]
  }

  function WeightLossStrength(eq: int): (opts: seq<string>)
    ensures |opts| == Period(WeightLoss, Strength)
  {
    var e := EquipmentLevel(eq);
    ["circuit training with " + e + " (e.g., squats, lunges, push-ups, planks)",
     "full-body dumbbell workout focusing on compound movements with " + e,
     "bodyweight strength exercises (e.g., burpees, mountain climbers, tricep dips)",
     "resistance band and bodyweight exercises for core and glutes with " + e,
     "HIIT-style strength intervals using " + e]
  }

  function WeightLossFlexibility(): (opts: seq<string>)
    ensures |opts| == Period(WeightLoss, Flexibility)
  {
    ["yoga flow for calorie burn and flexibility", "Pilates for core strength and lengthening",
     "dynamic stretching followed by foam rolling",
     "active recovery with light stretching and mobility drills"]
  }

  function WeightLossHiit(): (opts: seq<string>)
    ensures |opts| == Period(WeightLoss, Hiit)
  {
    ["sprint intervals on treadmill or outdoors", "Tabata protocol with bodyweight exercises",
     "plyometric drills and jump squats", "cycling or rowing machine intervals",
     "metabolic conditioning using battle ropes or sled push"]
  }

  function WeightLossMixed(t: int, eq: int): (opts: seq<string>)
    ensures |opts| == Period(WeightLoss, Mixed)
  {
    var h := IntToString(Half(t));
    [HalfAndHalf(t, "cardio", "strength training"),
     "alternating days of intense cardio and full-body strength with " + EquipmentLevel(eq),
     "cross-training: combine a cardio machine with a strength circuit",
     "cardio + flexibility: " + h + " mins running, " + h + " mins yoga",
     "HIIT + strength: " + h + " mins HIIT, " + h + " mins bodyweight strength"]
  }

  // ---- muscle gain -------------------------------------------------------

  function MuscleGainCardio(): (opts: seq<string>)
    ensures |opts| == Period(MuscleGain, Cardio)
  {
    ["light cardio (e.g., incline walking, cycling) paired with focused strength training",
     "post-workout cardio for active recovery (15-20 mins)",
     "warm-up cardio before heavy lifting", "steady-state cardio on rest days"]
  }

  function MuscleGainStrength(eq: int): (opts: seq<string>)
    ensures |opts| == Period(MuscleGain, Strength)
  {
    var e := EquipmentLevel(eq);
    ["heavy lifting for chest & triceps with " + e + " (e.g., bench press, overhead press, tricep extensions)",
     "heavy lifting for back & biceps with " + e + " (e.g., pull-ups, rows, bicep curls)",
     "heavy lifting for legs & shoulders with " + e + " (e.g., squats, deadlifts, lunges, shoulder press)",
     "full-body compound movements focusing on progressive overload with " + e,
     "strength circuit emphasizing hypertrophy for major muscle groups with " + e]
  }

  function MuscleGainFlexibility(): (opts: seq<string>)
    ensures |opts| == Period(MuscleGain, Flexibility)
  {
    ["dynamic stretching before workout, static stretching after",
     "foam rolling and mobility work for recovery",
     "PNF stretching for muscle lengthening",
     "active recovery with light stretching and joint rotations"]
  }

  function MuscleGainHiit(): (opts: seq<string>)
    ensures |opts| == Period(MuscleGain, Hiit)
  {
    ["strength-focused HIIT with compound lifts and short rests",
     "plyometric HIIT drills for explosive power (e.g., box jumps, broad jumps)",
     "kettlebell swings and other power movements in HIIT format",
     "sprint intervals followed by bodyweight strength work"]
  }

  function MuscleGainMixed(t: int, eq: int): (opts: seq<string>)
    ensures |opts| == Period(MuscleGain, Mixed)
  {
    var e := EquipmentLevel(eq);
    [HalfAndHalf(t, "strength training", "hypertrophy-focused exercises"),
     "strength training split with short, intense cardio bursts",
     "focus on one major muscle group (e.g., legs) with " + e + ", followed by light cardio",
     "upper/lower split days with specific compound and isolation exercises with " + e,
     "powerlifting-style workout with accessory exercises"]
  }

  // ---- maintenance -------------------------------------------------------

  function MaintenanceCardio(): (opts: seq<string>)
    ensures |opts| == Period(Maintenance, Cardio)
  {
    ["moderate cardio (e.g., jogging, cycling, brisk walking)",
     "recreational sports (e.g., basketball, tennis)",
     "hiking or trail walking", "dancing or active games", "swimming or water aerobics"]
  }

  function MaintenanceStrength(eq: int): (opts: seq<string>)
    ensures |opts| == Period(Maintenance, Strength)
  {
    var e := EquipmentLevel(eq);
    ["balanced strength and endurance training with " + e + " (e.g., compound lifts with moderate weight)",
     "full-body resistance training with " + e + " for muscle tone",
     "functional strength exercises to improve daily movement with " + e,
     "circuit workout blending strength and cardio with " + e,
     "core and stability training with " + e]
  }

  function MaintenanceFlexibility(): (opts: seq<string>)
    ensures |opts| == Period(Maintenance, Flexibility)
  {
    ["mixed stretching and light cardio for overall mobility",
     "Pilates or Barre for core and flexibility",
     "restorative yoga or deep stretching for recovery",
     "active recovery walks with light stretching"]
  }

  function MaintenanceHiit(): (opts: seq<string>)
    ensures |opts| == Period(Maintenance, Hiit)
  {
    ["short HIIT session for cardiovascular health and metabolism boost",
     "sprint intervals or jump rope drills", "bodyweight HIIT with active rest",
     "circuit of cardio and bodyweight strength intervals"]
  }

  function MaintenanceMixed(t: int): (opts: seq<string>)
    ensures |opts| == Period(Maintenance, Mixed)
  {
    [HalfAndHalf(t, "cardio", "strength maintenance"),
     "balanced workout with a mix of endurance and light resistance",
     "active recovery day with light cardio and stretching",
     "cross-training session (e.g., swim + bodyweight strength)",
     "light gym session with focus on form and controlled movements"]
  }

  // ---- the split that opens the mixed lists -----------------------------

  /** A weight-loss mixed plan opens (Monday, and again Saturday) with half the budget twice. */
  lemma WeightLossMixedOpensWithSplit(t: int, eq: int)
    ensures LeadingInt(WeightLossMixed(t, eq)[0]) == Some(t / 2)
  {
    HalfAndHalfFigures(t, "cardio", "strength training");
  }

  /** The muscle-gain mixed list opens with the same even split. */
  lemma MuscleGainMixedOpensWithSplit(t: int, eq: int)
    ensures LeadingInt(MuscleGainMixed(t, eq)[0]) == Some(t / 2)
  {
    HalfAndHalfFigures(t, "strength training", "hypertrophy-focused exercises");
  }

  /** The maintenance mixed list opens with the same even split. */
  lemma MaintenanceMixedOpensWithSplit(t: int)
    ensures LeadingInt(MaintenanceMixed(t)[0]) == Some(t / 2)
  {
    HalfAndHalfFigures(t, "cardio", "strength maintenance");
  }

  // ---- the table as a whole ---------------------------------------------

  /** The five lists of the weight-loss generator, by workout type. */
  function WeightLossOptions(kind: Kind, t: int, eq: int): seq<string> {
    match kind
    case Cardio => WeightLossCardio()
    case Strength => WeightLossStrength(eq)
    case Flexibility => WeightLossFlexibility()
    case Hiit => WeightLossHiit()
    case Mixed => WeightLossMixed(t, eq)
  }

  /** The five lists of the muscle-gain generator, by workout type. */
  function MuscleGainOptions(kind: Kind, t: int, eq: int): seq<string> {
    match kind
    case Cardio => MuscleGainCardio()
    case Strength => MuscleGainStrength(eq)
    case Flexibility => MuscleGainFlexibility()
    case Hiit => MuscleGainHiit()
    case Mixed => MuscleGainMixed(t, eq)
  }

  /** The five lists of the maintenance generator, by workout type. */
  function MaintenanceOptions(kind: Kind, t: int, eq: int): seq<string> {
    match kind
    case Cardio => MaintenanceCardio()
    case Strength => MaintenanceStrength(eq)
    case Flexibility => MaintenanceFlexibility()
    case Hiit => MaintenanceHiit()
    case Mixed => MaintenanceMixed(t)
  }

  /** The option list a sub-generator picks from for this goal and workout type. */
  function Options(goal: Goal, kind: Kind, t: int, eq: int): seq<string> {
    match goal
    case WeightLoss => WeightLossOptions(kind, t, eq)
    case MuscleGain => MuscleGainOptions(kind, t, eq)
    case Maintenance => MaintenanceOptions(kind, t, eq)
  }

  /** Which option a day gets: position `index` of the list for (goal, workout type). */
  datatype Choice = Choice(goal: Goal, kind: Kind, index: nat)

  /** The wording of a choice, in the lists built for time budget `t` and equipment code `eq`. */
  function OptionText(c: Choice, t: int, eq: int): string
    requires c.index < |Options(c.goal, c.kind, t, eq)|
  {
    Options(c.goal, c.kind, t, eq)[c.index]
  }
}

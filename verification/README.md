# Workout planner: the weekly plan generator

This project models the plan generator of the Streamlit workout planner
(`streamlit_app.py`, lines 5–174) in Dafny and proves what it promises.

The generator takes the integer codes from the user's form: goal, workout type,
experience level, equipment and the minutes available per day. It builds a
dictionary from the seven weekdays, Monday first, to empty lists. It then hands
the dictionary to the sub-generator for the goal: weight loss, muscle gain or
maintenance. That sub-generator walks the days in order with a running day
index. For a known workout type it overwrites each day's list with one string.
The string is the option at position `index % len(options)` of the list for that
workout type. For the timed types it is prefixed by a minutes figure, which is
the whole budget, `t // 3` or `t // 2` depending on the branch.

The model is organised as follows:

- `Optional` (`optional.dfy`) is the option type.
- `Decimal` (`decimal.dfy`) writes an `int` the way Python's f-string does
  (`IntToString`). It also reads an integer back from the head of a text
  (`LeadingInt`). The round trip between the two is proved, which lets the
  properties talk about the minutes figure written into a string.
- `WorkoutOptions` (`options.dfy`) holds:
  - the goal and workout-type codes;
  - `equipment_level`;
  - the floor halves and thirds;
  - the fifteen option lists, written out verbatim with the equipment label and
    the half-budget figures spliced in where the source's f-strings splice them.

  Each list's length is the rotation period `Period(goal, kind)`.
- `DayLines` (`lines.dfy`) describes one day's entry.
  - A `Line` records the entry's shape, its minutes figures and which option it
    picks: the option alone, `"<m> minutes of <option>"`, or the maintenance
    HIIT form with a recovery half.
  - `Format` and `Spell` write a `Line` out as the generator's string.
  - `DayLine` is what each sub-generator writes on the day at position `i`.
- `Planner` (`plan.dfy`) holds:
  - the dictionary, as class `WeeklyPlan`. `days` holds the keys in insertion
    order and `lines` holds the map, which is reassigned by `Put`, the model of
    `plan[day] = [...]`.
  - the three sub-generators, as methods with the source's `for day in workout_plan_dict`
    loop and `day_index` counter.
  - `GenerateWorkoutPlan`.

Python's `//` with a positive divisor is Dafny's `/` on `int` for every sign of
the dividend, so `t / 2` and `t / 3` are the source's floor divisions exactly.

Two branches break the half-split pattern:

- Muscle-gain HIIT writes a single `t // 2` figure (`streamlit_app.py:100`).
- Maintenance cardio uses the whole budget (`streamlit_app.py:140`).

Mixed days rotate through five options exactly as the code does.

## Model

| member | source | states |
|---|---|---|
| WorkoutOptions.EquipmentLevelCases | streamlit_app.py:5-13 | codes 1, 2 and 3 map to their own labels and every other integer maps to "unknown equipment", both directions of each case |
| WorkoutOptions.GoalOf | streamlit_app.py:167-172 | goal codes 1, 2, 3 and no others select weight loss, muscle gain, maintenance, both directions |
| WorkoutOptions.KindOf | streamlit_app.py:46-55 | a workout type is recognised exactly for codes 1 to 5: 1 is cardio, 2 strength, 3 flexibility, 4 HIIT and 5 mixed, each in both directions |
| WorkoutOptions.Half | streamlit_app.py:146 | `t // 2` is the floor of half the budget; two halves add up to `t` for even `t` and to `t - 1` for odd `t` |
| WorkoutOptions.Third | streamlit_app.py:94 | `t // 3` is the floor of a third of the budget |
| WorkoutOptions.HalfAndHalfFigures | streamlit_app.py:37 | both figures of the "<h> minutes of A and <h> minutes of B" split read back as `t // 2` |
| WorkoutOptions.WeightLossMixedOpensWithSplit | streamlit_app.py:36-37 | the first weight-loss mixed option (Monday, and Saturday again) leads with `t // 2` |
| WorkoutOptions.MuscleGainMixedOpensWithSplit | streamlit_app.py:83-84 | the first muscle-gain mixed option leads with `t // 2` |
| WorkoutOptions.MaintenanceMixedOpensWithSplit | streamlit_app.py:129-130 | the first maintenance mixed option leads with `t // 2` |
| WorkoutOptions.WeightLossCardio | streamlit_app.py:17-19 | the weight-loss cardio list has 5 options, its rotation period |
| WorkoutOptions.WeightLossStrength | streamlit_app.py:20-26 | the weight-loss strength list has 5 options for any equipment code |
| WorkoutOptions.WeightLossFlexibility | streamlit_app.py:27-30 | the weight-loss flexibility list has 4 options |
| WorkoutOptions.WeightLossHiit | streamlit_app.py:31-35 | the weight-loss HIIT list has 5 options |
| WorkoutOptions.WeightLossMixed | streamlit_app.py:36-42 | the weight-loss mixed list has 5 options for any budget and equipment code |
| WorkoutOptions.MuscleGainCardio | streamlit_app.py:61-65 | the muscle-gain cardio list has 4 options |
| WorkoutOptions.MuscleGainStrength | streamlit_app.py:66-72 | the muscle-gain strength list has 5 options |
| WorkoutOptions.MuscleGainFlexibility | streamlit_app.py:73-76 | the muscle-gain flexibility list has 4 options |
| WorkoutOptions.MuscleGainHiit | streamlit_app.py:77-82 | the muscle-gain HIIT list has 4 options |
| WorkoutOptions.MuscleGainMixed | streamlit_app.py:83-89 | the muscle-gain mixed list has 5 options |
| WorkoutOptions.MaintenanceCardio | streamlit_app.py:109-112 | the maintenance cardio list has 5 options |
| WorkoutOptions.MaintenanceStrength | streamlit_app.py:113-119 | the maintenance strength list has 5 options |
| WorkoutOptions.MaintenanceFlexibility | streamlit_app.py:120-123 | the maintenance flexibility list has 4 options |
| WorkoutOptions.MaintenanceHiit | streamlit_app.py:124-128 | the maintenance HIIT list has 4 options |
| WorkoutOptions.MaintenanceMixed | streamlit_app.py:129-135 | the maintenance mixed list has 5 options |
| Decimal.IntToString | streamlit_app.py:47 | the f-string figure is never empty, starts with '-' exactly for negative numbers, and otherwise starts with a digit |
| Decimal.LeadingIntOfIntToString | streamlit_app.py:47 | reading the integer at the head of "<n> minutes of …" gives back `n`, for every integer `n` |
| DayLines.Format | streamlit_app.py:47-55 | the three f-string shapes of a day (lines 47, 94 and 146, and the bare option of line 55): a mixed day's string is the option itself; otherwise the line's minutes figure reads back from the head of the string; a timed string ends with the option; in the maintenance HIIT string the option follows "<m> minutes of " and the recovery figure reads back right after " and " |
| DayLines.MinutesOf | streamlit_app.py:47 | in "<m> minutes of <option>" the figure `m` reads back from the head and the option ends the string |
| DayLines.WithRecovery | streamlit_app.py:146 | in "<m> minutes of <option> and <recovery>" the figure `m` reads back from the head, the option sits right after "<m> minutes of " and the recovery half is the rest after " and " |
| DayLines.DayLine | streamlit_app.py:44-56 | the day at position `i` gets the option at index `i % len(options)` of the list for its goal and workout type |
| DayLines.Rotation | streamlit_app.py:44-56 | two days get the same entry if and only if their positions agree modulo the list length |
| DayLines.WeekOfFive | streamlit_app.py:44-56 | with a 5-option list, Saturday repeats Monday, Sunday repeats Tuesday, and Monday to Friday are all different |
| DayLines.WeekOfFour | streamlit_app.py:91-103 | with a 4-option list, Friday to Sunday repeat Monday to Wednesday, and Monday to Thursday are all different |
| DayLines.LeadingFigure | streamlit_app.py:93-102 | a timed day's string leads with the branch's minutes figure: `t`, or `t // 3` for muscle-gain cardio, or `t // 2` for muscle-gain and maintenance HIIT; a mixed day's string is the option unchanged |
| DayLines.HalvesDropOddMinute | streamlit_app.py:146 | the maintenance HIIT figure and recovery figure add up to `t`, or to `t - 1` when `t` is odd |
| Planner.Weekdays | streamlit_app.py:162-165 | the week has seven distinct day names |
| Planner.WeeklyPlan.constructor | streamlit_app.py:162-165 | the dictionary literal has the given keys in order, each mapped to an empty list |
| Planner.WeeklyPlan.Put | streamlit_app.py:47 | assigning to an existing key replaces only that key's list, and adds and reorders no keys |
| Planner.RewriteStep | streamlit_app.py:44-56 | one pass of the loop extends the rewritten prefix of the week by one day and leaves the later days alone |
| Planner.WeightLossPlan | streamlit_app.py:15-57 | keeps the keys and their order; each day holds its rotated weight-loss line for a known workout type and keeps its list otherwise |
| Planner.MuscleGainPlan | streamlit_app.py:59-104 | the same for muscle gain, with `t // 3` for cardio and `t // 2` for HIIT |
| Planner.MaintenancePlan | streamlit_app.py:107-150 | the same for maintenance, with two `t // 2` figures for HIIT |
| Planner.PlannedDayFigure | streamlit_app.py:93-102 | with both codes known, each day of the plan holds one line: the rotation's option, led by the branch's minutes figure (none on mixed days) |
| Planner.GenerateWorkoutPlan | streamlit_app.py:152-174 | the result is a newly built dictionary with exactly the keys Monday to Sunday in order. Each day holds the planned line, which depends only on goal, workout type and budget, never on experience level. Each day is empty for an unknown goal or workout type and holds exactly one line otherwise |

## Left out

- The Streamlit page (`streamlit_app.py:178-323`) is not modelled: form widgets, rendering and styling are UI code over a library that is not part of this model. The name check and the "Rest or active recovery." display rule belong to that page.
- `user_data` also carries name, age, gender, height, weight and activity level, but `generate_workout_plan` never reads them, so `UserData` keeps only the fields it reads.
- The plan stores each entry as a structured `Line` rather than as its string; `Spell` writes the string from the line and the option lists. The wording of the options is reproduced verbatim, but no property reasons about it beyond list lengths and the embedded minutes figures.
- DayLines.Spell: no lemma states the spelt string of a plan day for a symbolic goal and workout type, and none states `|Options(goal, kind, t, eq)| == Period(goal, kind)` as one fact across all fifteen lists. What stands in for them: `DayLine` picks index `i % Period(goal, kind)`; each list's own `ensures` gives it `Period` entries; `Format` fixes each shape's figures and where the option sits; the mixed-list lemmas show that the opening option of each mixed list starts with `t // 2`, and `HalfAndHalfFigures` reads both figures of that split back from `HalfAndHalf`.
- WorkoutOptions.HalfAndHalfFigures: only the first and second figures of the split are read back; the other half-budget figures inside later mixed options (`streamlit_app.py:40-41`) are not.
- The sub-generators' return of the same dictionary they were given (aliasing) is modelled as a method that updates the plan in place; object identity is not otherwise modelled.
- Integer codes stay plain `int`, as in the source; there is no bounds check on the budget, and a negative budget is formatted with a minus sign just as Python would.

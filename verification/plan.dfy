/**
  The weekly plan generator. The plan is the dictionary the generator builds:
  day names in insertion order, each mapped to its list of lines. The three
  sub-generators walk the days in that order with a running day index and
  overwrite each day's list in place; `GenerateWorkoutPlan` builds the empty
  Monday-to-Sunday week and hands it to the sub-generator of the goal.
 */
module Planner {
  import opened Optional
  import opened Decimal
  import opened WorkoutOptions
  import opened DayLines

  /** The week the generator starts from, Monday first. */
  function Weekdays(): (week: seq<string>)
    ensures |week| == 7
    ensures forall i, j :: 0 <= i < j < |week| ==> week[i] != week[j]
  {
    var w := ["Monday", "Tuesday", "Wednesday", "Thursday", "Friday", "Saturday", "Sunday"];
    assert forall i :: 0 <= i < 7 ==> w[i][0..2] == ["Mo", "Tu", "We", "Th", "Fr", "Sa", "Su"][i];
    w
  }

  /** A plan as the generator holds it: a dictionary from day names to lists of lines. */
  class WeeklyPlan {
    /** The keys, in insertion order. */
    var days: seq<string>
    /** The dictionary itself. */
    var lines: map<string, seq<Line>>

    ghost predicate Valid()
      reads this
    {
      (forall i, j :: 0 <= i < j < |days| ==> days[i] != days[j])
      && (forall d :: d in lines <==> d in days)
    }

    /** The dictionary literal that maps each of `names`, in order, to an empty list. */
    constructor (names: seq<string>)
      requires forall i, j :: 0 <= i < j < |names| ==> names[i] != names[j]
      ensures Valid() && days == names
      ensures forall d :: d in lines ==> lines[d] == []
    {
      days := names;
      lines := map d | d in names :: [];
    }

    /** `plan[day] = value` for a day already in the plan: no key is added and the order stays. */
    method Put(day: string, value: seq<Line>)
      requires Valid() && day in lines
      modifies this
      ensures Valid() && days == old(days)
      ensures lines == old(lines)[day := value]
    {
      lines := lines[day := value];
    }
  }

  /**
    What a sub-generator leaves on the day at position i: a single line for a
    known workout type, the day's previous list for any other code.
   */
  function Rewritten(goal: Goal, workoutType: int, t: int, i: nat, before: seq<Line>): seq<Line> {
    match Entry(goal, workoutType, t, i)
    case Some(line) => [line]
    case None => before
  }

  /** The line a sub-generator writes on the day at position i, if the workout type is one it knows. */
  function Entry(goal: Goal, workoutType: int, t: int, i: nat): Option<Line> {
    match KindOf(workoutType)
    case Some(kind) => Some(DayLine(goal, kind, t, i))
    case None => None
  }

  /**
    A sub-generator's loop after n days: the first n days of `days` hold what it
    writes on them, the others still hold their list from `before`.
   */
  ghost predicate RewrittenUpTo(goal: Goal, workoutType: int, t: int, days: seq<string>,
                                before: map<string, seq<Line>>, after: map<string, seq<Line>>, n: nat)
  {
    && n <= |days|
    && (forall i :: 0 <= i < |days| ==> days[i] in before && days[i] in after)
    && (forall i :: 0 <= i < n ==> after[days[i]] == Rewritten(goal, workoutType, t, i, before[days[i]]))
    && (forall i :: n <= i < |days| ==> after[days[i]] == before[days[i]])
  }

  /** One pass of the loop: writing day n's entry (if any) over its key extends the rewritten prefix by one day. */
  lemma RewriteStep(goal: Goal, workoutType: int, t: int, days: seq<string>,
                    before: map<string, seq<Line>>, after: map<string, seq<Line>>, n: nat)
    requires RewrittenUpTo(goal, workoutType, t, days, before, after, n) && n < |days|
    requires forall i, j :: 0 <= i < j < |days| ==> days[i] != days[j]
    ensures var e := Entry(goal, workoutType, t, n);
      RewrittenUpTo(goal, workoutType, t, days, before, if e.Some? then after[days[n] := [e.value]] else after, n + 1)
  {
  }

  method WeightLossPlan(plan: WeeklyPlan, workoutType: int, timeAvailable: int, experienceLevel: int, equipment: int)
    requires plan.Valid()
    modifies plan
    ensures plan.Valid() && plan.days == old(plan.days)
    ensures forall i :: 0 <= i < |plan.days| ==>
      plan.lines[plan.days[i]] == Rewritten(WeightLoss, workoutType, timeAvailable, i, old(plan.lines)[plan.days[i]])
  {
    var dayIndex := 0;
    while dayIndex < |plan.days|
      invariant 0 <= dayIndex <= |plan.days|
      invariant plan.Valid() && plan.days == old(plan.days)
      invariant RewrittenUpTo(WeightLoss, workoutType, timeAvailable, plan.days, old(plan.lines), plan.lines, dayIndex)
    {
      var day := plan.days[dayIndex];
      var line: Option<Line> := None;
      if workoutType == 1 {
        line := Some(Timed(timeAvailable, Choice(WeightLoss, Cardio, dayIndex % Period(WeightLoss, Cardio))));
      } else if workoutType == 2 {
        line := Some(Timed(timeAvailable, Choice(WeightLoss, Strength, dayIndex % Period(WeightLoss, Strength))));
      } else if workoutType == 3 {
        line := Some(Timed(timeAvailable, Choice(WeightLoss, Flexibility, dayIndex % Period(WeightLoss, Flexibility))));
      } else if workoutType == 4 {
        line := Some(Timed(timeAvailable, Choice(WeightLoss, Hiit, dayIndex % Period(WeightLoss, Hiit))));
      } else if workoutType == 5 {
        line := Some(AsListed(Choice(WeightLoss, Mixed, dayIndex % Period(WeightLoss, Mixed))));
      }
      assert line == Entry(WeightLoss, workoutType, timeAvailable, dayIndex);
      RewriteStep(WeightLoss, workoutType, timeAvailable, plan.days, old(plan.lines), plan.lines, dayIndex);
      if line.Some? {
        plan.Put(day, [line.value]);
      }
      dayIndex := dayIndex + 1;
    }
  }

  method MuscleGainPlan(plan: WeeklyPlan, workoutType: int, timeAvailable: int, experienceLevel: int, equipment: int)
    requires plan.Valid()
    modifies plan
    ensures plan.Valid() && plan.days == old(plan.days)
    ensures forall i :: 0 <= i < |plan.days| ==>
      plan.lines[plan.days[i]] == Rewritten(MuscleGain, workoutType, timeAvailable, i, old(plan.lines)[plan.days[i]])
  {
    var dayIndex := 0;
    while dayIndex < |plan.days|
      invariant 0 <= dayIndex <= |plan.days|
      invariant plan.Valid() && plan.days == old(plan.days)
      invariant RewrittenUpTo(MuscleGain, workoutType, timeAvailable, plan.days, old(plan.lines), plan.lines, dayIndex)
    {
      var day := plan.days[dayIndex];
      var line: Option<Line> := None;
      if workoutType == 1 {
        line := Some(Timed(timeAvailable / 3, Choice(MuscleGain, Cardio, dayIndex % Period(MuscleGain, Cardio))));
      } else if workoutType == 2 {
        line := Some(Timed(timeAvailable, Choice(MuscleGain, Strength, dayIndex % Period(MuscleGain, Strength))));
      } else if workoutType == 3 {
        line := Some(Timed(timeAvailable, Choice(MuscleGain, Flexibility, dayIndex % Period(MuscleGain, Flexibility))));
      } else if workoutType == 4 {
        line := Some(Timed(timeAvailable / 2, Choice(MuscleGain, Hiit, dayIndex % Period(MuscleGain, Hiit))));
      } else if workoutType == 5 {
        line := Some(AsListed(Choice(MuscleGain, Mixed, dayIndex % Period(MuscleGain, Mixed))));
      }
      assert line == Entry(MuscleGain, workoutType, timeAvailable, dayIndex);
      RewriteStep(MuscleGain, workoutType, timeAvailable, plan.days, old(plan.lines), plan.lines, dayIndex);
      if line.Some? {
        plan.Put(day, [line.value]);
      }
      dayIndex := dayIndex + 1;
    }
  }

  method MaintenancePlan(plan: WeeklyPlan, workoutType: int, timeAvailable: int, experienceLevel: int, equipment: int)
    requires plan.Valid()
    modifies plan
    ensures plan.Valid() && plan.days == old(plan.days)
    ensures forall i :: 0 <= i < |plan.days| ==>
      plan.lines[plan.days[i]] == Rewritten(Maintenance, workoutType, timeAvailable, i, old(plan.lines)[plan.days[i]])
  {
    var dayIndex := 0;
    while dayIndex < |plan.days|
      invariant 0 <= dayIndex <= |plan.days|
      invariant plan.Valid() && plan.days == old(plan.days)
      invariant RewrittenUpTo(Maintenance, workoutType, timeAvailable, plan.days, old(plan.lines), plan.lines, dayIndex)
    {
      var day := plan.days[dayIndex];
      var line: Option<Line> := None;
      if workoutType == 1 {
        line := Some(Timed(timeAvailable, Choice(Maintenance, Cardio, dayIndex % Period(Maintenance, Cardio))));
      } else if workoutType == 2 {
        line := Some(Timed(timeAvailable, Choice(Maintenance, Strength, dayIndex % Period(Maintenance, Strength))));
      } else if workoutType == 3 {
        line := Some(Timed(timeAvailable, Choice(Maintenance, Flexibility, dayIndex % Period(Maintenance, Flexibility))));
      } else if workoutType == 4 {
        var c := Choice(Maintenance, Hiit, dayIndex % Period(Maintenance, Hiit));
        line := Some(TimedWithRecovery(timeAvailable / 2, c, timeAvailable / 2));
      } else if workoutType == 5 {
        line := Some(AsListed(Choice(Maintenance, Mixed, dayIndex % Period(Maintenance, Mixed))));
      }
      assert line == Entry(Maintenance, workoutType, timeAvailable, dayIndex);
      RewriteStep(Maintenance, workoutType, timeAvailable, plan.days, old(plan.lines), plan.lines, dayIndex);
      if line.Some? {
        plan.Put(day, [line.value]);
      }
      dayIndex := dayIndex + 1;
    }
  }

  /** The fields of the user record the generator reads. */
  datatype UserData = UserData(goal: int, workoutType: int, experienceLevel: int, equipment: int, timeAvailable: int)

  /** The list the finished plan holds for the day at position i of the week. */
  function PlannedDay(goal: int, workoutType: int, t: int, i: nat): seq<Line> {
    match GoalOf(goal)
    case Some(g) => Rewritten(g, workoutType, t, i, [])
    case None => []
  }

  /**
    A day of a plan with known codes holds one line, the option of the rotation
    for that day, led by the minutes figure of its branch whatever the
    option's wording; a mixed day holds the wording alone.
   */
  lemma PlannedDayFigure(goal: int, workoutType: int, t: int, i: nat, text: string)
    requires GoalOf(goal).Some? && KindOf(workoutType).Some?
    ensures |PlannedDay(goal, workoutType, t, i)| == 1
    ensures var line, g, k := PlannedDay(goal, workoutType, t, i)[0], GoalOf(goal).value, KindOf(workoutType).value;
      && line.choice == Choice(g, k, i % Period(g, k))
      && (k != Mixed ==> LeadingInt(Format(line, text)) == LeadMinutes(g, k, t))
      && (k == Mixed ==> Format(line, text) == text)
  {
    LeadingFigure(GoalOf(goal).value, KindOf(workoutType).value, t, i, text);
  }

  /**
    Builds the Monday-to-Sunday week with empty lists and lets the sub-generator
    of the goal fill it; any other goal code leaves the week empty. The result
    depends on the goal, the workout type and the time budget only: the
    experience level is passed along but never used, and the plan's structured lines do not
    carry the equipment code, which enters only when a line is spelt out.
   */
  method GenerateWorkoutPlan(user: UserData) returns (plan: WeeklyPlan)
    ensures fresh(plan)
    ensures plan.Valid() && plan.days == Weekdays()
    ensures forall i :: 0 <= i < 7 ==>
      plan.lines[Weekdays()[i]] == PlannedDay(user.goal, user.workoutType, user.timeAvailable, i)
    ensures user.goal !in {1, 2, 3} || user.workoutType !in {1, 2, 3, 4, 5} ==>
      forall d :: d in plan.lines ==> plan.lines[d] == []
    ensures user.goal in {1, 2, 3} && user.workoutType in {1, 2, 3, 4, 5} ==>
      forall d :: d in plan.lines ==> |plan.lines[d]| == 1
  {
    plan := new WeeklyPlan(Weekdays());
    if user.goal == 1 {
      WeightLossPlan(plan, user.workoutType, user.timeAvailable, user.experienceLevel, user.equipment);
    } else if user.goal == 2 {
      MuscleGainPlan(plan, user.workoutType, user.timeAvailable, user.experienceLevel, user.equipment);
    } else if user.goal == 3 {
      MaintenancePlan(plan, user.workoutType, user.timeAvailable, user.experienceLevel, user.equipment);
    }
    forall d | d in plan.lines
      ensures exists i :: 0 <= i < 7 && d == Weekdays()[i]
    {
      assert d in plan.days;
    }
  }
}

/**
  One day's line of a plan. The generator writes one of three shapes of
  f-string: the option alone (mixed days), "<m> minutes of <option>", or, for
  maintenance HIIT, "<m> minutes of <option> and <n> minutes of endurance
  training or active recovery". A `Line` records that shape, its figures and
  which option was chosen; `Spell` writes it out as the generator's string.
 */
module DayLines {
  import opened Optional
  import opened Decimal
  import opened WorkoutOptions

  datatype Line =
    | AsListed(choice: Choice)
    | Timed(minutes: int, choice: Choice)
    | TimedWithRecovery(minutes: int, choice: Choice, recovery: int)

  /**
    The line's string, given the wording `text` of its option: the option alone
    on a mixed day; otherwise the line's minutes figure, which reads back from
    the head of the string, then the option. A timed string ends with the
    option; the maintenance HIIT string goes on with " and " and a recovery
    half whose own figure reads back where that half starts.
   */
  function Format(line: Line, text: string): (s: string)
    ensures line.AsListed? ==> s == text
    ensures !line.AsListed? ==> LeadingInt(s) == Some(line.minutes)
    ensures line.Timed? ==> |text| < |s| && s[|s| - |text|..] == text
    ensures line.TimedWithRecovery? ==>
      var a := |IntToString(line.minutes) + " minutes of "|;
      var k := a + |text + " and "|;
      k <= |s| && s[a..a + |text|] == text && LeadingInt(s[k..]) == Some(line.recovery)
  {
    match line
    case AsListed(_) => text
    case Timed(m, _) => MinutesOf(m, text)
    case TimedWithRecovery(m, _, n) =>
      var recovery := MinutesOf(n, "endurance training or active recovery");
      WithRecovery(m, text, recovery)
  }

  /** "<m> minutes of <text>": the figure reads back from the head and the text ends it. */
  function MinutesOf(m: int, text: string): (s: string)
    ensures LeadingInt(s) == Some(m)
    ensures |text| < |s| && s[|s| - |text|..] == text
  {
    LeadingIntOfIntToString(m, " minutes of " + text);
    EndsWith(IntToString(m), " minutes of ", text);
    IntToString(m) + (" minutes of " + text)
  }

  /** The last part of a concatenation is what remains after the first two. */
  lemma EndsWith(a: string, b: string, c: string)
    ensures (a + (b + c))[|a| + |b|..] == c
  {
    assert a + (b + c) == (a + b) + c;
  }

  /**
    "<m> minutes of <text> and <recovery>": the figure reads back from the
    head, and the option and the recovery half sit where the shape puts them.
   */
  function WithRecovery(m: int, text: string, recovery: string): (s: string)
    ensures LeadingInt(s) == Some(m)
    ensures var a := |IntToString(m) + " minutes of "|;
      var k := a + |text + " and "|;
      k <= |s| && s[a..a + |text|] == text && s[k..] == recovery
  {
    LeadingIntOfIntToString(m, " minutes of " + text + " and " + recovery);
    Pieces(IntToString(m), " minutes of ", text, " and ", recovery);
    IntToString(m) + (" minutes of " + text + " and " + recovery)
  }

  /** Where the third and fifth parts of a five-part concatenation sit. */
  lemma Pieces(a: string, b: string, c: string, d: string, e: string)
    ensures var s := a + (b + c + d + e);
      |a + b| + |c + d| <= |s| &&
      s[|a + b|..|a + b| + |c|] == c && s[|a + b| + |c + d|..] == e
  {
    var s := a + (b + c + d + e);
    assert s == (a + b) + c + d + e;
  }

  /** The string the generator stores for this line, with the lists built for `t` and `eq`. */
  function Spell(line: Line, t: int, eq: int): string
    requires line.choice.index < |Options(line.choice.goal, line.choice.kind, t, eq)|
  {
    Format(line, OptionText(line.choice, t, eq))
  }

  // ---- what each sub-generator writes on the day at position i ------------

  /** Weight loss: every timed type uses the whole budget; mixed takes the option as it stands. */
  function WeightLossLine(kind: Kind, t: int, i: nat): Line {
    var c := Choice(WeightLoss, kind, i % Period(WeightLoss, kind));
    match kind
    case Cardio => Timed(t, c)
    case Strength => Timed(t, c)
    case Flexibility => Timed(t, c)
    case Hiit => Timed(t, c)
    case Mixed => AsListed(c)
  }

  /** Muscle gain: a third of the budget for cardio, half for HIIT. */
  function MuscleGainLine(kind: Kind, t: int, i: nat): Line {
    var c := Choice(MuscleGain, kind, i % Period(MuscleGain, kind));
    match kind
    case Cardio => Timed(Third(t), c)
    case Strength => Timed(t, c)
    case Flexibility => Timed(t, c)
    case Hiit => Timed(Half(t), c)
    case Mixed => AsListed(c)
  }

  /** Maintenance: HIIT splits the budget into two halves. */
  function MaintenanceLine(kind: Kind, t: int, i: nat): Line {
    var c := Choice(Maintenance, kind, i % Period(Maintenance, kind));
    match kind
    case Cardio => Timed(t, c)
    case Strength => Timed(t, c)
    case Flexibility => Timed(t, c)
    case Hiit => TimedWithRecovery(Half(t), c, Half(t))
    case Mixed => AsListed(c)
  }

  function DayLine(goal: Goal, kind: Kind, t: int, i: nat): (line: Line)
    ensures line.choice == Choice(goal, kind, i % Period(goal, kind))
  {
    match goal
    case WeightLoss => WeightLossLine(kind, t, i)
    case MuscleGain => MuscleGainLine(kind, t, i)
    case Maintenance => MaintenanceLine(kind, t, i)
  }

  /**
    The minutes figure each branch of the generator writes in front of the
    option: none for mixed days, a third of the budget for muscle-gain cardio,
    half of it for muscle-gain and maintenance HIIT, the whole budget otherwise.
   */
  function LeadMinutes(goal: Goal, kind: Kind, t: int): Option<int> {
    if kind == Mixed then None
    else if goal == MuscleGain && kind == Cardio then Some(t / 3)
    else if goal != WeightLoss && kind == Hiit then Some(t / 2)
    else Some(t)
  }

  // ---- properties -----------------------------------------------------------

  /**
    Rotation: the line of a day depends on its position only through the
    position modulo the length of the list, so the lines repeat with exactly
    that period and no shorter one.
   */
  lemma Rotation(goal: Goal, kind: Kind, t: int, i: nat, j: nat)
    ensures DayLine(goal, kind, t, i) == DayLine(goal, kind, t, j)
        <==> i % Period(goal, kind) == j % Period(goal, kind)
  {
  }

  /** A week against a 5-entry list: Saturday repeats Monday and Sunday repeats Tuesday. */
  lemma WeekOfFive(goal: Goal, kind: Kind, t: int)
    requires Period(goal, kind) == 5
    ensures DayLine(goal, kind, t, 5) == DayLine(goal, kind, t, 0)
    ensures DayLine(goal, kind, t, 6) == DayLine(goal, kind, t, 1)
    ensures forall i, j :: 0 <= i < j < 5 ==> DayLine(goal, kind, t, i) != DayLine(goal, kind, t, j)
  {
    Rotation(goal, kind, t, 5, 0);
    Rotation(goal, kind, t, 6, 1);
    forall i, j | 0 <= i < j < 5
      ensures DayLine(goal, kind, t, i) != DayLine(goal, kind, t, j)
    {
      Rotation(goal, kind, t, i, j);
    }
  }

  /** A week against a 4-entry list: Friday, Saturday and Sunday repeat Monday, Tuesday and Wednesday. */
  lemma WeekOfFour(goal: Goal, kind: Kind, t: int)
    requires Period(goal, kind) == 4
    ensures DayLine(goal, kind, t, 4) == DayLine(goal, kind, t, 0)
    ensures DayLine(goal, kind, t, 5) == DayLine(goal, kind, t, 1)
    ensures DayLine(goal, kind, t, 6) == DayLine(goal, kind, t, 2)
    ensures forall i, j :: 0 <= i < j < 4 ==> DayLine(goal, kind, t, i) != DayLine(goal, kind, t, j)
  {
    Rotation(goal, kind, t, 4, 0);
    Rotation(goal, kind, t, 5, 1);
    Rotation(goal, kind, t, 6, 2);
    forall i, j | 0 <= i < j < 4
      ensures DayLine(goal, kind, t, i) != DayLine(goal, kind, t, j)
    {
      Rotation(goal, kind, t, i, j);
    }
  }

  /**
    The figure at the head of a day's string is the minutes figure of its
    branch, whatever the wording of the option; a mixed day's string is the
    option's wording unchanged.
   */
  lemma LeadingFigure(goal: Goal, kind: Kind, t: int, i: nat, text: string)
    ensures kind != Mixed ==> LeadingInt(Format(DayLine(goal, kind, t, i), text)) == LeadMinutes(goal, kind, t)
    ensures kind == Mixed ==> Format(DayLine(goal, kind, t, i), text) == text
  {
  }

  /**
    Where the budget is split in two halves, the halves add up to the budget
    when it is even and one minute less when it is odd.
   */
  lemma HalvesDropOddMinute(t: int, i: nat)
    ensures DayLine(Maintenance, Hiit, t, i).minutes + DayLine(Maintenance, Hiit, t, i).recovery
        == (if t % 2 == 0 then t else t - 1)
  {
  }
}

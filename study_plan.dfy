/**
 * The study-plan endpoint (`generateStudyPlan`): request defaulting and
 * validation, the two-week plan skeleton built by nested loops, the plan
 * object that embeds the model's text, and the handler's order of effects.
 * The completion API's answer, the store's success and the clock are
 * parameters.
 */
module StudyPlan {
  import opened Wrappers
  import opened JsValues

  const WeekCount: nat := 2
  const DaysPerWeek: nat := 7
  const MsPerDay: int := 86400000

  /** The request after destructuring with defaults. */
  datatype PlanRequest = PlanRequest(language: JsValue, level: JsValue, goals: seq<JsValue>, userId: JsValue)

  /** Destructure the body with the defaults "Spanish", "Beginner",
      ["General learning"] and "anonymous", then validate. `None` is the 400
      answer. A default replaces only an absent (`undefined`) field, so an
      explicit `null` or `""` is rejected rather than defaulted. */
  function ReadPlanRequest(body: Body): (r: Option<PlanRequest>)
    ensures r.None? <==>
      || (!Field(body, "language").Undefined? && !Truthy(Field(body, "language")))
      || (!Field(body, "level").Undefined? && !Truthy(Field(body, "level")))
      || (!Field(body, "goals").Undefined? && !Field(body, "goals").Arr?)
    ensures r.Some? ==>
      && r.value.language == (if Field(body, "language").Undefined? then Str("Spanish") else Field(body, "language"))
      && r.value.level == (if Field(body, "level").Undefined? then Str("Beginner") else Field(body, "level"))
      && r.value.goals == (if Field(body, "goals").Undefined? then [Str("General learning")] else Field(body, "goals").elems)
      && r.value.userId == (if Field(body, "userId").Undefined? then Str("anonymous") else Field(body, "userId"))
      && Truthy(r.value.language) && Truthy(r.value.level)
  {
    var language := WithDefault(Field(body, "language"), Str("Spanish"));
    var level := WithDefault(Field(body, "level"), Str("Beginner"));
    var goals := WithDefault(Field(body, "goals"), Arr([Str("General learning")]));
    var userId := WithDefault(Field(body, "userId"), Str("anonymous"));
    if !Truthy(language) || !Truthy(level) || !Truthy(goals) || !goals.Arr? then None
    else Some(PlanRequest(language, level, goals.elems, userId))
  }

  datatype Task = Task(id: string, title: string, description: string, duration: nat, completed: bool, category: string)

  /** A day; `date` is the instant in milliseconds since the epoch. */
  datatype Day = Day(dayNumber: nat, date: int, tasks: seq<Task>)

  datatype Week = Week(weekNumber: nat, theme: string, days: seq<Day>)

  /** The identifier `task-{week}-{day}-{index}`. */
  function TaskId(week: nat, day: nat, index: nat): string {
    "task-" + NatToString(week) + "-" + NatToString(day) + "-" + NatToString(index)
  }

  /** The first dash of `x + "-" + y` sits just after `x`. */
  lemma FirstDash(x: string, y: string)
    requires forall i :: 0 <= i < |x| ==> x[i] != '-'
    ensures (x + "-" + y)[|x|] == '-'
    ensures forall i :: 0 <= i < |x| ==> (x + "-" + y)[i] != '-'
  {
  }

  /** A string cut at its first dash: two strings without a dash, each
      followed by a dash, can only be equal if the parts agree. */
  lemma {:induction false} SplitAtDash(x: string, y: string, x': string, y': string)
    requires forall i :: 0 <= i < |x| ==> x[i] != '-'
    requires forall i :: 0 <= i < |x'| ==> x'[i] != '-'
    requires x + "-" + y == x' + "-" + y'
    ensures x == x' && y == y'
  {
    var s := x + "-" + y;
    FirstDash(x, y);
    FirstDash(x', y');
    assert |x| == |x'|;
    assert x == s[..|x|] == x';
    assert y == s[|x| + 1..] == y';
  }

  /** After the "task-" prefix, an identifier is week, dash, then day-dash-index. */
  lemma TaskIdSuffix(w: nat, d: nat, k: nat)
    ensures |TaskId(w, d, k)| >= 5
    ensures TaskId(w, d, k)[5..] == NatToString(w) + "-" + (NatToString(d) + "-" + NatToString(k))
  {
    var a, b, c := NatToString(w), NatToString(d), NatToString(k);
    assert TaskId(w, d, k) == "task-" + (a + "-" + (b + "-" + c));
  }

  /** Task identifiers are injective in (week, day, index), for all indices. */
  lemma {:induction false} TaskIdInjective(w: nat, d: nat, k: nat, w': nat, d': nat, k': nat)
    ensures TaskId(w, d, k) == TaskId(w', d', k') <==> (w, d, k) == (w', d', k')
  {
    if TaskId(w, d, k) == TaskId(w', d', k') {
      TaskIdSuffix(w, d, k);
      TaskIdSuffix(w', d', k');
      var a, b, c := NatToString(w), NatToString(d), NatToString(k);
      var a', b', c' := NatToString(w'), NatToString(d'), NatToString(k');
      SplitAtDash(a, b + "-" + c, a', b' + "-" + c');
      SplitAtDash(b, c, b', c');
      NatToStringInjective(w, w');
      NatToStringInjective(d, d');
      NatToStringInjective(k, k');
    }
  }

  /** The two fixed tasks of a day. */
  function DayTasks(week: nat, day: nat): seq<Task> {
    [ Task(TaskId(week, day, 1), "Vocabulary Practice", "Learn 10 new words", 15, false, "vocabulary"),
      Task(TaskId(week, day, 2), "Grammar Exercise", "Practice sentence structures", 15, false, "grammar") ]
  }

  /** Day `day` of week `week` (both counted from 1) lies this many days after now. */
  function DayOffset(week: nat, day: nat): int {
    (week - 1) * DaysPerWeek + day - 1
  }

  function DayOf(week: nat, day: nat, nowMs: int): Day {
    Day(day, nowMs + DayOffset(week, day) * MsPerDay, DayTasks(week, day))
  }

  /** `Week ${i}: ${language} Learning`, given the language as rendered text. */
  function Theme(week: nat, language: string): string {
    "Week " + NatToString(week) + ": " + language + " Learning"
  }

  function WeekOf(week: nat, language: string, nowMs: int): Week {
    Week(week, Theme(week, language), seq(DaysPerWeek, d requires 0 <= d < DaysPerWeek => DayOf(week, d + 1, nowMs)))
  }

  /** The plan's calendar: 2 weeks of 7 days of 2 tasks, numbered from 1. */
  function Skeleton(language: string, nowMs: int): (weeks: seq<Week>)
    ensures |weeks| == WeekCount
    ensures forall w :: 0 <= w < |weeks| ==> weeks[w].weekNumber == w + 1 && |weeks[w].days| == DaysPerWeek
    ensures forall w, d :: 0 <= w < |weeks| && 0 <= d < |weeks[w].days| ==>
      weeks[w].days[d].dayNumber == d + 1 && |weeks[w].days[d].tasks| == 2
  {
    seq(WeekCount, w requires 0 <= w < WeekCount => WeekOf(w + 1, language, nowMs))
  }

  /** The nested loops that push 7 days into each of 2 weeks. */
  method BuildWeeks(language: string, nowMs: int) returns (weeks: seq<Week>)
    ensures weeks == Skeleton(language, nowMs)
  {
    weeks := [];
    var i := 1;
    while i <= WeekCount
      invariant 1 <= i <= WeekCount + 1
      invariant |weeks| == i - 1
      invariant forall w :: 0 <= w < |weeks| ==> weeks[w] == WeekOf(w + 1, language, nowMs)
    {
      var week := Week(i, Theme(i, language), []);
      var j := 1;
      while j <= DaysPerWeek
        invariant 1 <= j <= DaysPerWeek + 1
        invariant week.weekNumber == i && week.theme == Theme(i, language)
        invariant |week.days| == j - 1
        invariant forall d :: 0 <= d < |week.days| ==> week.days[d] == DayOf(i, d + 1, nowMs)
      {
        var day := Day(j, nowMs + ((i - 1) * 7 + j - 1) * MsPerDay, DayTasks(i, j));
        week := week.(days := week.days + [day]);
        j := j + 1;
      }
      assert week == WeekOf(i, language, nowMs);
      weeks := weeks + [week];
      i := i + 1;
    }
  }

  /** The id of task `t` of day `d` of week `w` (all counted from 0). */
  function TaskIdAt(weeks: seq<Week>, w: nat, d: nat, t: nat): string
    requires w < |weeks| && d < |weeks[w].days| && t < |weeks[w].days[d].tasks|
  {
    weeks[w].days[d].tasks[t].id
  }

  /** Task `t` of day `d` of week `w` (all counted from 0) has id
      `task-{w+1}-{d+1}-{t+1}`. */
  lemma TaskIdOfPosition(language: string, nowMs: int, w: nat, d: nat, t: nat)
    requires w < WeekCount && d < DaysPerWeek && t < 2
    ensures TaskIdAt(Skeleton(language, nowMs), w, d, t) == TaskId(w + 1, d + 1, t + 1)
  {
    var week := Skeleton(language, nowMs)[w];
    assert week == WeekOf(w + 1, language, nowMs);
    assert week.days[d] == DayOf(w + 1, d + 1, nowMs);
  }

  /** Two tasks of the plan share an id only if they are the same task:
      all 28 ids are distinct. */
  lemma PlanTaskIdsDistinct(language: string, nowMs: int, w: nat, d: nat, t: nat, w': nat, d': nat, t': nat)
    requires w < WeekCount && d < DaysPerWeek && t < 2
    requires w' < WeekCount && d' < DaysPerWeek && t' < 2
    ensures TaskIdAt(Skeleton(language, nowMs), w, d, t) == TaskIdAt(Skeleton(language, nowMs), w', d', t')
        <==> (w, d, t) == (w', d', t')
  {
    TaskIdOfPosition(language, nowMs, w, d, t);
    TaskIdOfPosition(language, nowMs, w', d', t');
    TaskIdInjective(w + 1, d + 1, t + 1, w' + 1, d' + 1, t' + 1);
  }

  /** The dates of all days, week by week. */
  function Dates(weeks: seq<Week>): seq<int> {
    if weeks == [] then []
    else seq(|weeks[0].days|, d requires 0 <= d < |weeks[0].days| => weeks[0].days[d].date) + Dates(weeks[1..])
  }

  /** The 14 dates lie 0, 1, ..., 13 days after now, in week/day order, so
      they are strictly ascending. */
  lemma PlanDatesConsecutive(language: string, nowMs: int)
    ensures Dates(Skeleton(language, nowMs)) == seq(WeekCount * DaysPerWeek, n requires 0 <= n => nowMs + n * MsPerDay)
    ensures forall a, b :: 0 <= a < b < |Dates(Skeleton(language, nowMs))| ==>
      Dates(Skeleton(language, nowMs))[a] < Dates(Skeleton(language, nowMs))[b]
  {
    var weeks := Skeleton(language, nowMs);
    var first := seq(DaysPerWeek, d requires 0 <= d < DaysPerWeek => weeks[0].days[d].date);
    var second := seq(DaysPerWeek, d requires 0 <= d < DaysPerWeek => weeks[1].days[d].date);
    assert weeks[1..][1..] == [];
    assert Dates(weeks[1..]) == second + Dates(weeks[1..][1..]);
    assert Dates(weeks) == first + second;
    var expected := seq(WeekCount * DaysPerWeek, n requires 0 <= n => nowMs + n * MsPerDay);
    forall n | 0 <= n < 14 ensures (first + second)[n] == expected[n] {
      if n < 7 {
        assert (first + second)[n] == weeks[0].days[n].date;
      } else {
        assert (first + second)[n] == weeks[1].days[n - 7].date;
      }
    }
  }

  datatype Goal = Goal(title: JsValue, category: string)

  /** `goals.map((g) => ({title: g, category: "General"}))`. */
  function GoalsOf(goals: seq<JsValue>): (r: seq<Goal>)
    ensures |r| == |goals|
    ensures forall i :: 0 <= i < |r| ==> r[i].title == goals[i] && r[i].category == "General"
  {
    seq(|goals|, i requires 0 <= i < |goals| => Goal(goals[i], "General"))
  }

  datatype LanguageName = LanguageName(name: JsValue, nativeName: JsValue)

  /** The plan object; `createdAt` is the instant in milliseconds. */
  datatype Plan = Plan(
    id: string,
    language: LanguageName,
    level: JsValue,
    goals: seq<Goal>,
    duration: nat,
    timeCommitment: nat,
    weeks: seq<Week>,
    aiGeneratedContent: string,
    createdAt: int)

  /** The plan object of lines 92-120: its id and `createdAt` come from the
      clock, the language is given twice, the goals are mapped, and the
      model's text is embedded unchanged beside the skeleton. */
  function PlanFor(req: PlanRequest, nowMs: int, aiText: string, weeks: seq<Week>): (r: Plan)
    ensures r.id == IntToString(nowMs) && r.createdAt == nowMs
    ensures r.language.name == req.language && r.language.nativeName == req.language
    ensures r.level == req.level
    ensures |r.goals| == |req.goals| && forall i :: 0 <= i < |r.goals| ==> r.goals[i] == Goal(req.goals[i], "General")
    ensures r.duration == 2 && r.timeCommitment == 30
    ensures r.weeks == weeks && r.aiGeneratedContent == aiText
  {
    Plan(IntToString(nowMs), LanguageName(req.language, req.language), req.level,
         GoalsOf(req.goals), 2, 30, weeks, aiText, nowMs)
  }

  /** What the prompt embeds, as rendered text: `${language}`, `${level}`
      and `goals.join(", ")`. */
  datatype PlanPrompt = PlanPrompt(language: string, level: string, goals: string)

  /** Rendering the prompt; `None` when one of the conversions throws. */
  function PromptFor(req: PlanRequest): (r: Option<PlanPrompt>)
    ensures r.Some? <==>
      && ToDisplayString(req.language).Some?
      && ToDisplayString(req.level).Some?
      && JoinFrom(Arr(req.goals), 0, ", ").Some?
    ensures r.Some? ==> r.value.language == ToDisplayString(req.language).value
    ensures req.language.Str? && req.level.Str? && (forall i :: 0 <= i < |req.goals| ==> req.goals[i].Str?) ==>
      r == Some(PlanPrompt(req.language.s, req.level.s, JoinFrom(Arr(req.goals), 0, ", ").value))
  {
    var language := ToDisplayString(req.language);
    var level := ToDisplayString(req.level);
    var goals := JoinFrom(Arr(req.goals), 0, ", ");
    if language.None? || level.None? || goals.None? then None
    else Some(PlanPrompt(language.value, level.value, goals.value))
  }

  /** The record written to the `studyPlans` collection. */
  datatype StudyPlanRecord = StudyPlanRecord(userId: JsValue, language: JsValue, level: JsValue, goals: seq<JsValue>, studyPlan: string)

  /** An external effect, in the order the handler performs them. */
  datatype PlanEffect = CompletionRequested(prompt: PlanPrompt) | StudyPlanWritten(record: StudyPlanRecord)

  datatype PlanResponse = PlanCreated(plan: Plan) | InvalidRequest | GenerationFailed

  function Status(r: PlanResponse): int {
    match r
    case PlanCreated(_) => 200
    case InvalidRequest => 400
    case GenerationFailed => 500
  }

  /** The handler. `completion` is the completion API's text, `None` when
      the call throws; `storeWriteSucceeds` says whether the write to
      `studyPlans` completes. A prompt that cannot be rendered throws before
      any call or write. */
  method GenerateStudyPlan(body: Body, nowMs: int, completion: Option<string>, storeWriteSucceeds: bool)
    returns (resp: PlanResponse, effects: seq<PlanEffect>)
    ensures resp.InvalidRequest? <==> ReadPlanRequest(body).None?
    ensures Status(resp) == 400 ==> effects == []
    ensures ReadPlanRequest(body).Some? && PromptFor(ReadPlanRequest(body).value).None? ==>
      resp == GenerationFailed && effects == []
    ensures ReadPlanRequest(body).Some? && PromptFor(ReadPlanRequest(body).value).Some? ==>
      var req := ReadPlanRequest(body).value;
      var prompt := PromptFor(req).value;
      var ask := CompletionRequested(prompt);
      && (completion.None? ==> resp == GenerationFailed && effects == [ask])
      && (completion.Some? && !storeWriteSucceeds ==> resp == GenerationFailed && effects == [ask])
      && (completion.Some? && storeWriteSucceeds ==>
            && effects == [ask, StudyPlanWritten(StudyPlanRecord(req.userId, req.language, req.level, req.goals, completion.value))]
            && resp == PlanCreated(PlanFor(req, nowMs, completion.value, Skeleton(prompt.language, nowMs))))
  {
    var parsed := ReadPlanRequest(body);
    if parsed.None? {
      return InvalidRequest, [];
    }
    var req := parsed.value;
    var prompt := PromptFor(req);
    if prompt.None? {
      return GenerationFailed, [];
    }
    effects := [CompletionRequested(prompt.value)];
    if completion.None? {
      return GenerationFailed, effects;
    }
    var studyPlan := completion.value;
    if !storeWriteSucceeds {
      return GenerationFailed, effects;
    }
    effects := effects + [StudyPlanWritten(StudyPlanRecord(req.userId, req.language, req.level, req.goals, studyPlan))];
    var weeks := BuildWeeks(prompt.value.language, nowMs);
    resp := PlanCreated(PlanFor(req, nowMs, studyPlan, weeks));
  }
}

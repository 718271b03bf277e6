/** The pregnancy timeline: the milestone table, the week-by-week timeline from the
    last menstrual period (LMP), and the windows of milestones already reached and
    still ahead. Days are day numbers; `now` is a timestamp in seconds on the same
    epoch, so that day `d` begins at second `d * 86400`. */
module Timeline {
  import opened Wrappers
  import opened Values
  import opened Seqs
  import UserProfile
  import Ai

  /** The milestone of each table week. */
  const Milestones: map<int, string> := map[
    4 := "תאריך הווסת האחרונה",
    8 := "דופק עובר ראשון",
    12 := "בדיקת שקיפות עורפית",
    16 := "בדיקת מין העובר",
    20 := "אולטרסאונד מורפולוגי",
    24 := "בדיקת סוכר בהריון",
    28 := "חיסון טטנוס-דיפטריה",
    32 := "בדיקת גדילה",
    36 := "בדיקת GBS",
    38 := "הכנה ללידה",
    40 := "תאריך לידה צפוי"]

  const SecondsPerDay := 86400

  /** The milestone of a week: its table entry, or "week N of pregnancy". */
  function MilestoneOf(week: int): string {
    if week in Milestones then Milestones[week] else "שבוע " + IntToString(week) + " להריון"
  }

  /** Every table week lies in 4..40, so every table week is a week of the timeline. */
  lemma MilestoneWeeksInRange(week: int)
    requires week in Milestones
    ensures 4 <= week <= 40
  {
  }

  /** The default label never coincides with a table milestone, so a week carries a
      table milestone exactly when it is a table week. */
  lemma MilestoneLabelDistinguishes(week: int, k: int)
    requires k in Milestones
    ensures MilestoneOf(week) == Milestones[k] <==> week in Milestones && Milestones[week] == Milestones[k]
  {
    if week !in Milestones {
      var fallback := "שבוע " + IntToString(week) + " להריון";
      assert fallback[0] == 'ש';
      assert Milestones[k][0] != 'ש';
    }
  }

  // ---------------------------------------------------------------------------
  // Week by week

  datatype Status = Completed | Current | Upcoming

  /** The status as the timeline writes it. */
  function StatusName(s: Status): string {
    match s
    case Completed => "completed"
    case Current => "current"
    case Upcoming => "upcoming"
  }

  /** A timeline entry; `date` is the day number of the week's date. */
  datatype Entry = Entry(week: int, date: int, milestone: string, status: Status, daysUntil: Option<int>)

  /** The entry of `week`, for the pregnancy at week `current` with the given LMP day. */
  function EntryFor(week: int, current: int, lmp: int, now: int): Entry {
    var date := lmp + 7 * week;
    Entry(week, date, MilestoneOf(week),
      if week < current then Completed else if week == current then Current else Upcoming,
      if week >= current then Some((date * SecondsPerDay - now) / SecondsPerDay) else None)
  }

  /** What an entry says: its date is `week` weeks after the LMP; its status compares the
      week with the current one; the days until it are given from the current week on,
      and are the whole days (rounded down) from `now` to the start of its date. */
  lemma EntryMeaning(week: int, current: int, lmp: int, now: int)
    ensures EntryFor(week, current, lmp, now).week == week
    ensures EntryFor(week, current, lmp, now).date == lmp + 7 * week
    ensures EntryFor(week, current, lmp, now).milestone == MilestoneOf(week)
    ensures EntryFor(week, current, lmp, now).status == Completed <==> week < current
    ensures EntryFor(week, current, lmp, now).status == Current <==> week == current
    ensures EntryFor(week, current, lmp, now).status == Upcoming <==> week > current
    ensures EntryFor(week, current, lmp, now).daysUntil.Some? <==> EntryFor(week, current, lmp, now).status != Completed
    ensures EntryFor(week, current, lmp, now).daysUntil.Some? ==>
      var d := EntryFor(week, current, lmp, now).daysUntil.value;
      d * SecondsPerDay <= (lmp + 7 * week) * SecondsPerDay - now < (d + 1) * SecondsPerDay
  {
  }

  /** The timeline `_calculate_timeline` evidently means to build: no entries without an
      LMP date, otherwise the entry of each week 1..40, in order. */
  function IntendedTimeline(current: int, lmp: Option<int>, now: int): (timeline: seq<Entry>)
    ensures lmp.None? ==> timeline == []
    ensures lmp.Some? ==> |timeline| == 40
    ensures lmp.Some? ==> forall i :: 0 <= i < |timeline| ==> timeline[i] == EntryFor(i + 1, current, lmp.value, now)
  {
    if lmp.None? then [] else seq(40, i requires 0 <= i < 40 => EntryFor(i + 1, current, lmp.value, now))
  }

  /** `_calculate_timeline` as written. The LMP date is a `date` and `utcnow()` a
      `datetime`, so the countdown `(week_date - datetime.utcnow()).days` raises a
      `TypeError` (`None` here) at the first week from the current one on. The timeline
      is built only when no week reaches the current one, that is when the current week
      is past 40, and it is then the intended one. */
  method CalculateTimeline(current: int, lmp: Option<int>, now: int) returns (timeline: Option<seq<Entry>>)
    ensures lmp.None? ==> timeline == Some([])
    ensures lmp.Some? ==> (timeline.None? <==> current <= 40)
    ensures timeline.Some? ==> timeline.value == IntendedTimeline(current, lmp, now)
  {
    if lmp.None? {
      return Some([]);
    }
    var entries := [];
    var week := 1;
    while week < 41
      invariant 1 <= week <= 41
      invariant week == 1 || week <= current
      invariant |entries| == week - 1
      invariant forall i :: 0 <= i < |entries| ==> entries[i] == EntryFor(i + 1, current, lmp.value, now)
    {
      var date := lmp.value + 7 * week;
      var status := if week < current then Completed else if week == current then Current else Upcoming;
      if week >= current {
        return None;
      }
      entries := entries + [Entry(week, date, MilestoneOf(week), status, None)];
      week := week + 1;
    }
    timeline := Some(entries);
  }

  /** The intended timeline counts days down to some week exactly when the current week
      is at most 40: exactly the timelines the code as written fails to build. */
  lemma CountdownExactlyWhenRaises(current: int, lmp: int, now: int)
    ensures (exists i :: 0 <= i < 40 && IntendedTimeline(current, Some(lmp), now)[i].daysUntil.Some?) <==> current <= 40
  {
    if current <= 40 {
      assert IntendedTimeline(current, Some(lmp), now)[39].daysUntil.Some?;
    }
  }

  /** The order of the statuses along the timeline. */
  function Rank(s: Status): nat {
    match s
    case Completed => 0
    case Current => 1
    case Upcoming => 2
  }

  /** Along a timeline the completed weeks come first, then the current week, then the
      upcoming ones; there is a current week exactly when the current week is 1..40, and
      never more than one. */
  lemma TimelineOrder(current: int, lmp: int, now: int)
    ensures var t := IntendedTimeline(current, Some(lmp), now);
      forall i, j :: 0 <= i < j < 40 ==> Rank(t[i].status) <= Rank(t[j].status)
    ensures var t := IntendedTimeline(current, Some(lmp), now);
      forall i, j :: 0 <= i < j < 40 ==> !(t[i].status == Current && t[j].status == Current)
    ensures var t := IntendedTimeline(current, Some(lmp), now);
      (exists i :: 0 <= i < 40 && t[i].status == Current) <==> 1 <= current <= 40
  {
    if 1 <= current <= 40 {
      assert IntendedTimeline(current, Some(lmp), now)[current - 1].status == Current;
    }
  }

  /** From the current week on, each week's countdown is seven days longer than the
      previous week's. */
  lemma DaysUntilStep(week: int, current: int, lmp: int, now: int)
    requires week >= current
    ensures EntryFor(week + 1, current, lmp, now).daysUntil.value
         == EntryFor(week, current, lmp, now).daysUntil.value + 7
  {
    var x := (lmp + 7 * week) * SecondsPerDay - now;
    assert (lmp + 7 * (week + 1)) * SecondsPerDay - now == x + 7 * SecondsPerDay;
    assert (x + 7 * SecondsPerDay) / SecondsPerDay == x / SecondsPerDay + 7;
  }

  /** The answer of `get_pregnancy_timeline`; `lmpDate` is a day number and
      `generatedAt` a timestamp. */
  datatype PregnancyTimeline = PregnancyTimeline(
    userId: string,
    currentWeek: int,
    lmpDate: Option<int>,
    timeline: seq<Entry>,
    insights: Ai.Reply,
    generatedAt: int)

  /** `get_pregnancy_timeline`: "User profile not found" without a profile; otherwise
      the timeline of the profile's week (`pregnancy_week or 0`) and LMP date, except that
      the `TypeError` of `_calculate_timeline` is caught as "Failed to get timeline"
      whenever the LMP date is set and the week is at most 40. */
  method GetPregnancyTimeline(profiles: UserProfile.ProfileStore, userId: string, ai: Ai.Model, now: int)
    returns (r: Result<PregnancyTimeline, string>)
    ensures profiles.Find(userId).None? ==> r == Err("User profile not found")
    ensures profiles.Find(userId).Some? ==>
      var p := profiles.Find(userId).value;
      (r.Err? <==> p.lmpDate.Some? && p.pregnancyWeek.GetOr(0) <= 40)
      && (r.Err? ==> r.error == "Failed to get timeline")
    ensures r.Ok? ==>
      var p := profiles.Find(userId).value;
      && r.value.userId == userId && r.value.currentWeek == p.pregnancyWeek.GetOr(0)
      && r.value.lmpDate == p.lmpDate && r.value.generatedAt == now
      && r.value.timeline == IntendedTimeline(r.value.currentWeek, p.lmpDate, now)
      && r.value.insights == ai.ask(Ai.TimelineInsights(userId, r.value.currentWeek))
  {
    var found := profiles.Find(userId);
    if found.None? {
      return Err("User profile not found");
    }
    var p := found.value;
    var current := p.pregnancyWeek.GetOr(0);
    var timeline := CalculateTimeline(current, p.lmpDate, now);
    if timeline.None? {
      return Err("Failed to get timeline");
    }
    var insights := ai.ask(Ai.TimelineInsights(userId, current));
    r := Ok(PregnancyTimeline(userId, current, p.lmpDate, timeline.value, insights, now));
  }

  // ---------------------------------------------------------------------------
  // Week details

  /** `_get_development_stage`: "embryo" up to week 12, "developing embryo" after. */
  function DevelopmentStage(week: int): (stage: string)
    ensures stage == "עובר" <==> week <= 12
    ensures stage == "עובר מתפתח" <==> week > 12
  {
    if week <= 12 then "עובר" else "עובר מתפתח"
  }

  /** The details of one week; `date` is a day number. */
  datatype WeekDetails = WeekDetails(
    userId: string,
    week: int,
    milestone: string,
    date: Option<int>,
    insights: Ai.Reply,
    trimester: string,
    developmentStage: string)

  /** `get_week_details` for an existing profile. */
  function DetailsOf(p: UserProfile.Profile, week: int, ai: Ai.Model): (d: WeekDetails)
    ensures d.userId == p.userId && d.week == week && d.milestone == MilestoneOf(week)
    ensures d.date.Some? <==> p.lmpDate.Some?
    ensures p.lmpDate.Some? ==> d.date.value == p.lmpDate.value + 7 * week
    ensures d.trimester == UserProfile.Trimester(week) && d.developmentStage == DevelopmentStage(week)
  {
    WeekDetails(
      p.userId, week, MilestoneOf(week),
      if p.lmpDate.Some? then Some(p.lmpDate.value + 7 * week) else None,
      ai.ask(Ai.PregnancyWeekInsights(p.userId, Some(week), map["detailed_analysis" := Bool(true)])),
      UserProfile.Trimester(week), DevelopmentStage(week))
  }

  /** `get_week_details`: an error without a profile. */
  function GetWeekDetails(profiles: UserProfile.ProfileStore, userId: string, week: int, ai: Ai.Model): (r: Result<WeekDetails, string>)
    reads profiles
    ensures r.Err? <==> profiles.Find(userId).None?
    ensures r.Err? ==> r.error == "User profile not found"
    ensures r.Ok? ==> r.value == DetailsOf(profiles.Find(userId).value, week, ai)
  {
    match profiles.Find(userId)
    case None => Err("User profile not found")
    case Some(p) => Ok(DetailsOf(p, week, ai))
  }

  // ---------------------------------------------------------------------------
  // Milestone windows

  /** The table weeks in `lo..hi-1`, ascending. */
  function MilestonesIn(lo: int, hi: int): seq<int>
    decreases hi - lo
  {
    if hi <= lo then []
    else MilestonesIn(lo, hi - 1) + (if hi - 1 in Milestones then [hi - 1] else [])
  }

  /** The window holds exactly the table weeks in `lo..hi-1`, each once, ascending. */
  lemma {:induction false} MilestonesInMeaning(lo: int, hi: int)
    ensures forall w :: w in MilestonesIn(lo, hi) <==> lo <= w < hi && w in Milestones
    ensures forall i, j :: 0 <= i < j < |MilestonesIn(lo, hi)| ==> MilestonesIn(lo, hi)[i] < MilestonesIn(lo, hi)[j]
    decreases hi - lo
  {
    if lo < hi {
      MilestonesInMeaning(lo, hi - 1);
      var s := MilestonesIn(lo, hi - 1);
      if hi - 1 in Milestones {
        var t := s + [hi - 1];
        forall i, j | 0 <= i < j < |t|
          ensures t[i] < t[j]
        {
          if j == |s| {
            assert t[i] == s[i] && s[i] in s;
          }
        }
      }
    }
  }

  /** Two adjacent windows make up the window over both. */
  lemma {:induction false} MilestonesInSplit(lo: int, mid: int, hi: int)
    requires lo <= mid <= hi
    ensures MilestonesIn(lo, mid) + MilestonesIn(mid, hi) == MilestonesIn(lo, hi)
    decreases hi - mid
  {
    if mid < hi {
      MilestonesInSplit(lo, mid, hi - 1);
      var last := if hi - 1 in Milestones then [hi - 1] else [];
      assert MilestonesIn(mid, hi) == MilestonesIn(mid, hi - 1) + last;
      assert MilestonesIn(lo, hi) == MilestonesIn(lo, hi - 1) + last;
      assert MilestonesIn(lo, mid) + (MilestonesIn(mid, hi - 1) + last)
          == (MilestonesIn(lo, mid) + MilestonesIn(mid, hi - 1)) + last;
    }
  }

  /** The weeks `get_upcoming_milestones` reports: the table weeks after the current
      week and no more than `weeksAhead` weeks later, up to week 40. */
  function UpcomingWeeks(current: int, weeksAhead: int): seq<int> {
    MilestonesIn(current + 1, Min(current + weeksAhead + 1, 41))
  }

  /** The weeks `get_completed_milestones` reports: the table weeks up to the current one. */
  function CompletedWeeks(current: int): seq<int> {
    MilestonesIn(1, current + 1)
  }

  /** An upcoming week is exactly a table week `w` with `current < w <= current + weeksAhead`. */
  lemma UpcomingWeeksMeaning(current: int, weeksAhead: int, w: int)
    ensures w in UpcomingWeeks(current, weeksAhead) <==> w in Milestones && current < w <= current + weeksAhead
  {
    MilestonesInMeaning(current + 1, Min(current + weeksAhead + 1, 41));
    if w in Milestones {
      MilestoneWeeksInRange(w);
    }
  }

  /** A completed week is exactly a table week `w <= current`. */
  lemma CompletedWeeksMeaning(current: int, w: int)
    ensures w in CompletedWeeks(current) <==> w in Milestones && w <= current
  {
    MilestonesInMeaning(1, current + 1);
    if w in Milestones {
      MilestoneWeeksInRange(w);
    }
  }

  /** The completed milestones followed by the upcoming ones up to week 40 are the whole
      table in week order, with none in both. */
  lemma CompletedThenUpcoming(current: int)
    requires 0 <= current <= 40
    ensures CompletedWeeks(current) + UpcomingWeeks(current, 40 - current) == MilestonesIn(1, 41)
    ensures forall w :: !(w in CompletedWeeks(current) && w in UpcomingWeeks(current, 40 - current))
  {
    MilestonesInSplit(1, current + 1, 41);
    forall w | w in CompletedWeeks(current) && w in UpcomingWeeks(current, 40 - current)
      ensures false
    {
      CompletedWeeksMeaning(current, w);
      UpcomingWeeksMeaning(current, 40 - current, w);
    }
  }

  /** A table week appears among the completed milestones exactly when its timeline entry
      is completed or current, and among the upcoming ones (any window reaching week 40)
      exactly when its entry is upcoming. */
  lemma WindowsAgreeWithTimeline(w: int, current: int, lmp: int, now: int)
    requires w in Milestones && 0 <= current
    ensures w in CompletedWeeks(current) <==> EntryFor(w, current, lmp, now).status != Upcoming
    ensures w in UpcomingWeeks(current, 40) <==> EntryFor(w, current, lmp, now).status == Upcoming
  {
    CompletedWeeksMeaning(current, w);
    UpcomingWeeksMeaning(current, 40, w);
    MilestoneWeeksInRange(w);
  }

  /** The details of each week of `weeks`, in order, for the profile `p`; shared by the
      two window operations. */
  method DetailsForWeeks(p: UserProfile.Profile, lo: int, hi: int, ai: Ai.Model) returns (details: seq<WeekDetails>)
    ensures |details| == |MilestonesIn(lo, hi)|
    ensures forall i :: 0 <= i < |details| ==> details[i] == DetailsOf(p, MilestonesIn(lo, hi)[i], ai)
  {
    details := [];
    if hi <= lo {
      return;
    }
    var week := lo;
    while week < hi
      invariant lo <= week <= hi
      invariant |details| == |MilestonesIn(lo, week)|
      invariant forall i :: 0 <= i < |details| ==> details[i] == DetailsOf(p, MilestonesIn(lo, week)[i], ai)
    {
      if week in Milestones {
        details := details + [DetailsOf(p, week, ai)];
      }
      week := week + 1;
    }
  }

  /** `get_upcoming_milestones`: nothing without a profile. */
  method GetUpcomingMilestones(profiles: UserProfile.ProfileStore, userId: string, weeksAhead: int, ai: Ai.Model)
    returns (upcoming: seq<WeekDetails>)
    ensures profiles.Find(userId).None? ==> upcoming == []
    ensures profiles.Find(userId).Some? ==>
      var p := profiles.Find(userId).value;
      |upcoming| == |UpcomingWeeks(p.pregnancyWeek.GetOr(0), weeksAhead)| &&
      forall i :: 0 <= i < |upcoming| ==> upcoming[i] == DetailsOf(p, UpcomingWeeks(p.pregnancyWeek.GetOr(0), weeksAhead)[i], ai)
  {
    upcoming := [];
    var found := profiles.Find(userId);
    if found.None? {
      return;
    }
    var current := found.value.pregnancyWeek.GetOr(0);
    upcoming := DetailsForWeeks(found.value, current + 1, Min(current + weeksAhead + 1, 41), ai);
  }

  /** `get_completed_milestones`: nothing without a profile. */
  method GetCompletedMilestones(profiles: UserProfile.ProfileStore, userId: string, ai: Ai.Model)
    returns (completed: seq<WeekDetails>)
    ensures profiles.Find(userId).None? ==> completed == []
    ensures profiles.Find(userId).Some? ==>
      var p := profiles.Find(userId).value;
      |completed| == |CompletedWeeks(p.pregnancyWeek.GetOr(0))| &&
      forall i :: 0 <= i < |completed| ==> completed[i] == DetailsOf(p, CompletedWeeks(p.pregnancyWeek.GetOr(0))[i], ai)
  {
    completed := [];
    var found := profiles.Find(userId);
    if found.None? {
      return;
    }
    completed := DetailsForWeeks(found.value, 1, found.value.pregnancyWeek.GetOr(0) + 1, ai);
  }
}

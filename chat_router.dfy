/** The chat router: answers one user message. It looks up the profile, gathers the
    conversation context, plans actions, writes the reply for the message's intent,
    stores the turn and then runs the urgent actions among the first three planned. */
module ChatRouter {
  import opened Wrappers
  import opened Values
  import opened Seqs
  import opened Text
  import opened Sorting
  import Ai
  import opened UserProfile
  import opened MemoryManager
  import opened ActionPlanner

  // ---------------------------------------------------------------------------
  // Intent detection

  /** The intents `_detect_intent` tells apart. */
  datatype Intent =
    | Greeting | PregnancyInfo | MedicalDocuments | MedicalReview | Appointment
    | Emergency | ContractionTracking | WeekCheck | General

  /** The intent's name in the source. */
  function IntentName(i: Intent): string {
    match i
    case Greeting => "greeting"
    case PregnancyInfo => "pregnancy_info"
    case MedicalDocuments => "medical_documents"
    case MedicalReview => "medical_review"
    case Appointment => "appointment"
    case Emergency => "emergency"
    case ContractionTracking => "contraction_tracking"
    case WeekCheck => "pregnancy_week_check"
    case General => "general"
  }

  const GreetingWords: seq<string> := ["שלום", "היי", "הי", "בוקר טוב", "ערב טוב", "hello", "hi", "hey"]
  const PregnancyWords: seq<string> := ["הריון", "שבוע", "תאריך לידה", "עובר", "pregnancy", "week", "due date"]
  const DocumentWords: seq<string> := ["מסמך", "העלאה", "רפואי", "בדיקה", "ultrasound", "blood test", "document"]
  const ReviewWords: seq<string> := ["חוות דעת", "סקירה", "בדיקה", "תוצאות", "review", "opinion", "results"]
  const AppointmentWords: seq<string> := ["תור", "ביקור", "רופא", "appointment", "visit", "doctor"]
  const EmergencyWords: seq<string> := ["חירום", "דחוף", "עזרה", "emergency", "urgent", "help"]
  const ContractionWords: seq<string> := ["צירים", "contractions", "ציר", "contraction"]
  const WeekCheckWords: seq<string> := ["בדיקה", "ביצעת", "קנית", "test", "did you", "bought"]

  /** `_detect_intent`: the first keyword group with a word occurring as a substring of
      the lower-cased message, in the source's order; "general" when none does. */
  function DetectIntent(message: string): Intent {
    var m := Lower(message);
    if ContainsAny(m, GreetingWords) then Greeting
    else if ContainsAny(m, PregnancyWords) then Intent.PregnancyInfo
    else if ContainsAny(m, DocumentWords) then MedicalDocuments
    else if ContainsAny(m, ReviewWords) then MedicalReview
    else if ContainsAny(m, AppointmentWords) then Intent.Appointment
    else if ContainsAny(m, EmergencyWords) then Intent.Emergency
    else if ContainsAny(m, ContractionWords) then ContractionTracking
    else if ContainsAny(m, WeekCheckWords) then WeekCheck
    else General
  }

  /** A message falls through to "general" exactly when no keyword of any group occurs in it. */
  lemma GeneralWhenNoKeyword(message: string)
    ensures DetectIntent(message) == General <==>
      !ContainsAny(Lower(message), GreetingWords) && !ContainsAny(Lower(message), PregnancyWords)
      && !ContainsAny(Lower(message), DocumentWords) && !ContainsAny(Lower(message), ReviewWords)
      && !ContainsAny(Lower(message), AppointmentWords) && !ContainsAny(Lower(message), EmergencyWords)
      && !ContainsAny(Lower(message), ContractionWords) && !ContainsAny(Lower(message), WeekCheckWords)
  {
  }

  /** Keywords match as substrings, so "this week" is a greeting: "hi" occurs in "this",
      and the greeting group is checked before the pregnancy group. */
  lemma ThisWeekIsGreeting()
    ensures DetectIntent("this week") == Greeting
  {
    LowerKeeps("this week");
    assert GreetingWords[6] == "hi";
    assert OccursAt("this week", "hi", 1);
  }

  /** "בדיקה" is listed under medical documents before it is listed under review and
      week check, so a message containing it never reaches either of those. */
  lemma CheckWordGoesToDocuments(message: string)
    requires Contains(Lower(message), "בדיקה")
    ensures DetectIntent(message) in {Greeting, Intent.PregnancyInfo, MedicalDocuments}
  {
    assert DocumentWords[3] == "בדיקה";
    assert ContainsAny(Lower(message), DocumentWords);
  }

  // ---------------------------------------------------------------------------
  // Contraction details

  /** A pattern `lead\s*(\d+)\s*unit`; without a lead, `(\d+)\s*unit`. The optional
      final letter of the source's units (`דקות?`, `minutes?`) never changes whether or
      where a match is found, so the unit here is the part before it. */
  datatype Pattern = Pattern(lead: string, unit: string)

  const DurationPatterns: seq<Pattern> := [Pattern("", "דקו"), Pattern("", "minute")]
  const IntervalPatterns: seq<Pattern> := [Pattern("מרווח", "דקו"), Pattern("interval", "minute")]

  /** The length of the whitespace run at `i` (`\s*`, greedy). */
  function SpaceRun(s: string, i: nat): (n: nat)
    requires i <= |s|
    ensures i + n <= |s|
    ensures forall k :: i <= k < i + n ==> IsSpace(s[k])
    ensures i + n < |s| ==> !IsSpace(s[i + n])
    decreases |s| - i
  {
    if i < |s| && IsSpace(s[i]) then 1 + SpaceRun(s, i + 1) else 0
  }

  /** The length of the digit run at `i` (`\d*`, greedy). */
  function DigitRun(s: string, i: nat): (n: nat)
    requires i <= |s|
    ensures i + n <= |s|
    ensures forall k :: i <= k < i + n ==> IsDigit(s[k])
    ensures i + n < |s| ==> !IsDigit(s[i + n])
    decreases |s| - i
  {
    if i < |s| && IsDigit(s[i]) then 1 + DigitRun(s, i + 1) else 0
  }

  /** Where the number of a match of `p` starting at `i` begins. */
  function NumberStart(p: Pattern, s: string, i: nat): (k: nat)
    requires OccursAt(s, p.lead, i)
    ensures k <= |s|
  {
    if p.lead == "" then i else i + |p.lead| + SpaceRun(s, i + |p.lead|)
  }

  /** `p` matches `s` at `i`. Neither the digits nor the spaces can give back characters
      to the rest of the pattern (a unit never starts with a digit or a space), so the
      greedy runs decide the match. */
  predicate MatchAt(p: Pattern, s: string, i: nat) {
    OccursAt(s, p.lead, i) && NumberMatchAt(p.unit, s, NumberStart(p, s, i))
  }

  /** At `k` stand one or more digits, optional spaces and then `unit`. */
  predicate NumberMatchAt(unit: string, s: string, k: nat)
    requires k <= |s|
  {
    var d := DigitRun(s, k);
    d > 0 && OccursAt(s, unit, k + d + SpaceRun(s, k + d))
  }

  /** `int(match.group(1))` for the match at `i`. */
  function ValueAt(p: Pattern, s: string, i: nat): nat
    requires MatchAt(p, s, i)
  {
    var k := NumberStart(p, s, i);
    DecimalValue(s[k..k + DigitRun(s, k)])
  }

  /** `j` is the leftmost position from `i` on where `p` matches. */
  predicate LeftmostMatch(p: Pattern, s: string, i: nat, j: nat) {
    i <= j <= |s| && MatchAt(p, s, j) && forall k :: i <= k < j ==> !MatchAt(p, s, k)
  }

  /** Where `re.search` from position `i` finds its match: the leftmost position where
      the pattern matches, `None` when it matches nowhere. */
  function SearchPos(p: Pattern, s: string, i: nat): (r: Option<nat>)
    requires i <= |s|
    ensures r.Some? ==> LeftmostMatch(p, s, i, r.value)
    ensures r.None? ==> forall k :: i <= k <= |s| ==> !MatchAt(p, s, k)
    decreases |s| - i
  {
    if MatchAt(p, s, i) then Some(i)
    else if i == |s| then None
    else SearchPos(p, s, i + 1)
  }

  /** `re.search` from position `i`: the number of the leftmost match. */
  function SearchFrom(p: Pattern, s: string, i: nat): Option<nat>
    requires i <= |s|
  {
    match SearchPos(p, s, i)
    case None => None
    case Some(j) => Some(ValueAt(p, s, j))
  }

  /** A number is reported exactly when the pattern matches somewhere from `i` on, and
      it is the number of the leftmost match. */
  lemma SearchFromMatches(p: Pattern, s: string, i: nat)
    requires i <= |s|
    ensures SearchFrom(p, s, i).Some? <==> exists j :: i <= j <= |s| && MatchAt(p, s, j)
    ensures SearchFrom(p, s, i).Some? ==>
      exists j :: LeftmostMatch(p, s, i, j) && SearchFrom(p, s, i).value == ValueAt(p, s, j)
  {
    if SearchPos(p, s, i).Some? {
      var j := SearchPos(p, s, i).value;
      assert LeftmostMatch(p, s, i, j);
    }
  }

  /** The number of the first pattern in the list that has a match. */
  function FirstMatch(patterns: seq<Pattern>, s: string): Option<nat> {
    if patterns == [] then None
    else if SearchFrom(patterns[0], s, 0).Some? then SearchFrom(patterns[0], s, 0)
    else FirstMatch(patterns[1..], s)
  }

  /** The dictionary `_extract_contraction_info` returns, `None` when it would be empty. */
  function ContractionInfoOf(message: string): Option<Metadata> {
    var duration := FirstMatch(DurationPatterns, message);
    var interval := FirstMatch(IntervalPatterns, message);
    var withDuration: Metadata := if duration.Some? then map["duration" := Int(duration.value)] else map[];
    var info := if interval.Some? then withDuration["interval" := Int(interval.value)] else withDuration;
    if info == map[] then None else Some(info)
  }

  /** One of the pattern loops of `_extract_contraction_info`: the patterns are tried in
      order and the first match ends the loop. */
  method FirstSearch(patterns: seq<Pattern>, message: string) returns (r: Option<nat>)
    ensures r == FirstMatch(patterns, message)
  {
    r := None;
    var k := 0;
    while k < |patterns|
      invariant 0 <= k <= |patterns|
      invariant FirstMatch(patterns, message) == FirstMatch(patterns[k..], message)
    {
      assert patterns[k..][0] == patterns[k];
      var m := SearchFrom(patterns[k], message, 0);
      if m.Some? {
        r := m;
        return;
      }
      assert patterns[k..][1..] == patterns[k + 1..];
      k := k + 1;
    }
  }

  /** `_extract_contraction_info`. */
  method ExtractContractionInfo(message: string) returns (info: Option<Metadata>)
    ensures info == ContractionInfoOf(message)
  {
    var found: Metadata := map[];
    var duration := FirstSearch(DurationPatterns, message);
    if duration.Some? {
      found := map["duration" := Int(duration.value)];
    }
    var interval := FirstSearch(IntervalPatterns, message);
    if interval.Some? {
      found := found["interval" := Int(interval.value)];
    }
    info := if found == map[] then None else Some(found);
  }

  /** A match of an interval pattern contains a match of the duration pattern with the
      same unit, starting at its number. */
  lemma LeadDropped(p: Pattern, s: string, i: nat)
    requires MatchAt(p, s, i)
    ensures MatchAt(Pattern("", p.unit), s, NumberStart(p, s, i))
  {
    var k := NumberStart(p, s, i);
    assert s[k..k] == "";
  }

  lemma {:induction false} FirstMatchFinds(patterns: seq<Pattern>, s: string, j: nat)
    requires j < |patterns| && SearchFrom(patterns[j], s, 0).Some?
    ensures FirstMatch(patterns, s).Some?
  {
    if SearchFrom(patterns[0], s, 0).Some? {
      assert FirstMatch(patterns, s) == SearchFrom(patterns[0], s, 0);
    } else {
      assert j > 0;
      assert patterns[1..][j - 1] == patterns[j];
      FirstMatchFinds(patterns[1..], s, j - 1);
      assert FirstMatch(patterns, s) == FirstMatch(patterns[1..], s);
    }
  }

  /** An interval is never reported without a duration: whatever matches
      "מרווח 5 דקות" or "interval 5 minutes" also matches the duration pattern. */
  lemma IntervalNeedsDuration(message: string)
    ensures ContractionInfoOf(message).Some? ==> "duration" in ContractionInfoOf(message).value
  {
    IntervalMatchesDuration(message);
  }

  lemma IntervalMatchesDuration(message: string)
    ensures FirstMatch(IntervalPatterns, message).Some? ==> FirstMatch(DurationPatterns, message).Some?
  {
    var j := if SearchFrom(IntervalPatterns[0], message, 0).Some? then 0 else 1;
    if j == 1 {
      var rest := IntervalPatterns[1..];
      assert rest[0] == IntervalPatterns[1] && rest[1..] == [];
      assert FirstMatch(IntervalPatterns, message) == FirstMatch(rest, message);
      if SearchFrom(rest[0], message, 0).None? {
        assert FirstMatch(rest, message) == FirstMatch([], message);
      }
    }
    if SearchFrom(IntervalPatterns[j], message, 0).Some? {
      SearchDropsLead(IntervalPatterns[j], message);
      assert DurationPatterns[j] == Pattern("", IntervalPatterns[j].unit);
      FirstMatchFinds(DurationPatterns, message, j);
    }
  }

  lemma SearchDropsLead(p: Pattern, s: string)
    requires SearchFrom(p, s, 0).Some?
    ensures SearchFrom(Pattern("", p.unit), s, 0).Some?
  {
    SearchFromMatches(p, s, 0);
    var i :| 0 <= i <= |s| && MatchAt(p, s, i);
    LeadDropped(p, s, i);
    SearchFromMatches(Pattern("", p.unit), s, 0);
  }

  // ---------------------------------------------------------------------------
  // Replies

  /** A truthy optional string. */
  predicate Given(s: Option<string>) {
    s.Some? && s.value != ""
  }

  /** `_generate_greeting`. */
  function GreetingText(profile: Option<Profile>): (t: string)
    ensures profile.Some? && Given(profile.value.name) ==>
      t == "שלום " + profile.value.name.value + "! אני הסוכן שלך למעקב הריון. איך את מרגישה היום?"
    ensures !(profile.Some? && Given(profile.value.name)) ==> t == "שלום! אני הסוכן שלך למעקב הריון. איך אוכל לעזור לך היום?"
  {
    if profile.Some? && Given(profile.value.name)
    then "שלום " + profile.value.name.value + "! אני הסוכן שלך למעקב הריון. איך את מרגישה היום?"
    else "שלום! אני הסוכן שלך למעקב הריון. איך אוכל לעזור לך היום?"
  }

  const NoPregnancyText: string :=
    "אני לא מכיר את פרטי ההריון שלך עדיין. אנא עדכן את הפרופיל עם תאריך הלידה הצפוי או תאריך הווסת האחרונה."
  const NoWeekText: string :=
    "אני לא מכיר את שבוע ההריון הנוכחי שלך. אנא עדכן את הפרופיל עם תאריך הלידה הצפוי או תאריך הווסת האחרונה."

  /** `_generate_pregnancy_info`: the week and its trimester when the week is truthy. */
  function PregnancyInfoText(profile: Option<Profile>): (t: string)
    ensures profile.None? ==>
      t == NoPregnancyText
    ensures profile.Some? && !WeekGiven(profile.value) ==>
      t == NoWeekText
    ensures profile.Some? && WeekGiven(profile.value) ==>
      t == "את נמצאת בשבוע " + IntToString(profile.value.pregnancyWeek.value) + " להריון (טרימסטר "
        + Trimester(profile.value.pregnancyWeek.value) + "). זה זמן מרגש! האם יש משהו ספציפי שתרצי לדעת על השבוע הזה?"
  {
    if profile.None? then
      NoPregnancyText
    else if WeekGiven(profile.value) then
      var w := profile.value.pregnancyWeek.value;
      "את נמצאת בשבוע " + IntToString(w) + " להריון (טרימסטר " + Trimester(w)
        + "). זה זמן מרגש! האם יש משהו ספציפי שתרצי לדעת על השבוע הזה?"
    else
      NoWeekText
  }

  const NoDocumentsText: string :=
    "עדיין לא העלית מסמכים רפואיים. את יכולה להעלות בדיקות דם, אולטרסאונד, הערות רופא ומרשמים דרך מדור המסמכים הרפואיים."

  /** `f"{count} {doc_type}"`. */
  function EntryText(e: (string, nat)): string {
    NatToString(e.1) + " " + e.0
  }

  /** `_generate_medical_documents_info` for the user's documents: the number of
      documents and, per type in order of first appearance, its count. */
  function DocumentsText(docs: seq<MedicalDocument>): string {
    if docs == [] then NoDocumentsText
    else
      "העלית " + NatToString(|docs|) + " מסמכים רפואיים: " + Join(Map(TallyOf(docs), EntryText), ", ")
      + ". האם תרצי שאסקור אותם עבורך?"
  }

  /** `_generate_medical_documents_info`, with its counting loop. */
  method MedicalDocumentsInfo(userId: string, profiles: ProfileStore) returns (text: string)
    ensures text == DocumentsText(profiles.GetUserMedicalDocuments(userId, None))
  {
    var docs := profiles.GetUserMedicalDocuments(userId, None);
    if docs == [] {
      return NoDocumentsText;
    }
    var counts := CountByType(docs);
    text := "העלית " + NatToString(|docs|) + " מסמכים רפואיים: " + Join(Map(counts, EntryText), ", ")
      + ". האם תרצי שאסקור אותם עבורך?";
  }

  lemma {:induction false} ContainsShifted(prefix: string, s: string, suffix: string, sub: string, i: nat)
    requires OccursAt(s, sub, i)
    ensures Contains(prefix + s + suffix, sub)
  {
    var t := prefix + s + suffix;
    assert t[|prefix| + i..|prefix| + i + |sub|] == s[i..i + |sub|];
    assert OccursAt(t, sub, |prefix| + i);
  }

  lemma {:induction false} JoinHas(parts: seq<string>, sep: string, e: nat)
    requires e < |parts|
    ensures exists i :: 0 <= i <= |Join(parts, sep)| - |parts[e]| && OccursAt(Join(parts, sep), parts[e], i)
  {
    if |parts| == 1 {
      assert OccursAt(Join(parts, sep), parts[e], 0);
    } else if e == 0 {
      assert Join(parts, sep)[..|parts[0]|] == parts[0];
      assert OccursAt(Join(parts, sep), parts[e], 0);
    } else {
      JoinHas(parts[1..], sep, e - 1);
      var i :| 0 <= i <= |Join(parts[1..], sep)| - |parts[1..][e - 1]| && OccursAt(Join(parts[1..], sep), parts[1..][e - 1], i);
      ContainsShifted(parts[0] + sep, Join(parts[1..], sep), "", parts[e], i);
      assert Join(parts, sep) == parts[0] + sep + Join(parts[1..], sep) + "";
    }
  }

  lemma {:induction false} LookupEntry(tally: Tally, t: string)
    requires Lookup(tally, t) > 0
    ensures exists e :: 0 <= e < |tally| && tally[e] == (t, Lookup(tally, t))
  {
    if tally[0].0 != t {
      LookupEntry(tally[1..], t);
      var e :| 0 <= e < |tally[1..]| && tally[1..][e] == (t, Lookup(tally[1..], t));
      assert tally[e + 1] == (t, Lookup(tally, t));
    } else {
      assert tally[0] == (t, Lookup(tally, t));
    }
  }

  /** The documents reply names every type the user has, with its number of documents. */
  lemma DocumentsTextCounts(docs: seq<MedicalDocument>, t: string)
    requires CountType(docs, t) > 0
    ensures Contains(DocumentsText(docs), NatToString(CountType(docs, t)) + " " + t)
  {
    TallyCounts(docs, t);
    var tally := TallyOf(docs);
    LookupEntry(tally, t);
    var e :| 0 <= e < |tally| && tally[e] == (t, Lookup(tally, t));
    var parts := Map(tally, EntryText);
    assert parts[e] == NatToString(CountType(docs, t)) + " " + t;
    JoinHas(parts, ", ", e);
    var i :| 0 <= i <= |Join(parts, ", ")| - |parts[e]| && OccursAt(Join(parts, ", "), parts[e], i);
    ContainsShifted("העלית " + NatToString(|docs|) + " מסמכים רפואיים: ", Join(parts, ", "),
                    ". האם תרצי שאסקור אותם עבורך?", parts[e], i);
  }

  /** The model's review of the user's documents for the message. */
  function MedicalReviewOf(userId: string, message: string, docs: seq<MedicalDocument>, ai: Ai.Model): Ai.Reply {
    ai.ask(Ai.MedicalReview(userId, Map(docs, (d: MedicalDocument) => d.documentId), map["message" := Str(message)]))
  }

  /** `_generate_medical_review_response`: the model's summary (or "המסמכים נבדקו") after
      the heading, and its recommendations (or "המשך מעקב שגרתי") at the end. */
  function ReviewText(userId: string, message: string, docs: seq<MedicalDocument>, ai: Ai.Model): (t: string)
    ensures docs == [] ==> t == "אין לך מסמכים רפואיים לסקירה. אנא העלה מסמכים תחילה."
    ensures docs != [] ==>
      var review := MedicalReviewOf(userId, message, docs, ai);
      && StartsWith(t, "סקירה רפואית: " + GetText(review, "summary", "המסמכים נבדקו") + ". ")
      && EndsWith(t, GetText(review, "recommendations", "המשך מעקב שגרתי"))
  {
    if docs == [] then "אין לך מסמכים רפואיים לסקירה. אנא העלה מסמכים תחילה."
    else
      var review := MedicalReviewOf(userId, message, docs, ai);
      "סקירה רפואית: " + GetText(review, "summary", "המסמכים נבדקו") + ". "
        + GetText(review, "recommendations", "המשך מעקב שגרתי")
  }

  const AskForContractionsText: string :=
    "אני יכול לעזור לך לעקוב אחר הצירים. אנא ספרי לי:\n- כמה זמן נמשך כל ציר?\n- מה המרווח בין הצירים?\n- מתי התחילו?"

  /** The model's analysis of the extracted contraction details. */
  function ContractionAnalysisOf(userId: string, message: string, info: Metadata, ai: Ai.Model): Ai.Reply {
    ai.ask(Ai.AnalyzeContractions(userId, Dict(info), map["message" := Str(message)]))
  }

  /** `_generate_contraction_tracking_response` for the extracted details: the model's
      pattern (or "דפוס תקין") after the heading and its recommendation (or "המשך מעקב")
      at the end; without details, the request for them. */
  function ContractionText(userId: string, message: string, info: Option<Metadata>, ai: Ai.Model): (t: string)
    ensures info.None? ==> t == AskForContractionsText
    ensures info.Some? ==>
      var analysis := ContractionAnalysisOf(userId, message, info.value, ai);
      && StartsWith(t, "ניתוח צירים: " + GetText(analysis, "pattern", "דפוס תקין") + ". ")
      && EndsWith(t, GetText(analysis, "recommendation", "המשך מעקב"))
  {
    if info.None? then AskForContractionsText
    else
      var analysis := ContractionAnalysisOf(userId, message, info.value, ai);
      "ניתוח צירים: " + GetText(analysis, "pattern", "דפוס תקין") + ". " + GetText(analysis, "recommendation", "המשך מעקב")
  }

  /** The model's insights for the week of a weekly check. */
  function WeekInsightsOf(userId: string, week: int, ai: Ai.Model): Ai.Reply {
    ai.ask(Ai.PregnancyWeekInsights(userId, Some(week), map["check_type" := Str("weekly_check")]))
  }

  /** `_generate_pregnancy_week_check`: for a truthy week, the week and the model's week
      summary (or "המשך מעקב שגרתי") first and its recommendations (or nothing) at the end. */
  function WeekCheckText(profile: Option<Profile>, ai: Ai.Model): (t: string)
    ensures !(profile.Some? && WeekGiven(profile.value)) ==> t == "אני לא מכיר את שבוע ההריון שלך. אנא עדכן את הפרופיל."
    ensures profile.Some? && WeekGiven(profile.value) ==>
      var w := profile.value.pregnancyWeek.value;
      var insights := WeekInsightsOf(profile.value.userId, w, ai);
      && StartsWith(t, "בשבוע " + IntToString(w) + " להריון: " + GetText(insights, "week_summary", "המשך מעקב שגרתי") + ". ")
      && EndsWith(t, GetText(insights, "recommendations", ""))
  {
    if profile.None? || !WeekGiven(profile.value) then "אני לא מכיר את שבוע ההריון שלך. אנא עדכן את הפרופיל."
    else
      var w := profile.value.pregnancyWeek.value;
      var insights := WeekInsightsOf(profile.value.userId, w, ai);
      "בשבוע " + IntToString(w) + " להריון: " + GetText(insights, "week_summary", "המשך מעקב שגרתי") + ". "
        + GetText(insights, "recommendations", "")
  }

  const AppointmentText: string := "אני יכול לעזור לך לתאם תורים ולנהל את הטיפול הטרום לידתי. איזה סוג תור תרצי לתאם?"

  /** `_generate_emergency_response`: the emergency contact when the profile has one. */
  function EmergencyText(profile: Option<Profile>): (t: string)
    ensures profile.Some? && Given(profile.value.emergencyContact) ==>
      t == "אם את חווה מצב חירום, אנא פני מיד לרופא המטפל. פרטי קשר חירום: " + profile.value.emergencyContact.value
    ensures !(profile.Some? && Given(profile.value.emergencyContact)) ==>
      t == "אם את חווה מצב חירום, אנא פני מיד לרופא המטפל או לחדר המיון הקרוב."
  {
    if profile.Some? && Given(profile.value.emergencyContact)
    then "אם את חווה מצב חירום, אנא פני מיד לרופא המטפל. פרטי קשר חירום: " + profile.value.emergencyContact.value
    else "אם את חווה מצב חירום, אנא פני מיד לרופא המטפל או לחדר המיון הקרוב."
  }

  const NoActionsText: string :=
    "אני כאן לתמוך בך לאורך כל מסע ההריון. אני יכול לעזור לך בניהול מסמכים רפואיים, מעקב הריון, תזמון תורים ועוד. מה תרצי לדעת?"

  function Description(a: Proposal): string { a.description }

  /** `_generate_general_response`: the descriptions of the first two planned actions,
      between the echo of the message and the closing question. */
  function GeneralText(message: string, actions: seq<Proposal>): (t: string)
    ensures actions == [] ==> t == NoActionsText
    ensures actions != [] ==>
      && StartsWith(t, "אני מבין שאת שואלת על '" + message + "'. אני יכול לעזור לך עם: ")
      && EndsWith(t, ". במה תרצי להתמקד?")
  {
    if actions == [] then NoActionsText
    else
      "אני מבין שאת שואלת על '" + message + "'. אני יכול לעזור לך עם: "
        + Join(Map(actions[..Min(2, |actions|)], Description), ", ") + ". במה תרצי להתמקד?"
  }

  /** The general reply names each of the first two planned actions. */
  lemma GeneralTextNames(message: string, actions: seq<Proposal>, e: nat)
    requires e < |actions| && e < 2
    ensures Contains(GeneralText(message, actions), actions[e].description)
  {
    var parts := Map(actions[..Min(2, |actions|)], Description);
    assert parts[e] == actions[e].description;
    JoinHas(parts, ", ", e);
    var i :| 0 <= i <= |Join(parts, ", ")| - |parts[e]| && OccursAt(Join(parts, ", "), parts[e], i);
    ContainsShifted("אני מבין שאת שואלת על '" + message + "'. אני יכול לעזור לך עם: ", Join(parts, ", "),
                    ". במה תרצי להתמקד?", parts[e], i);
  }

  /** Only the first two planned actions show in the general reply. */
  lemma GeneralTextFirstTwo(message: string, actions: seq<Proposal>, more: seq<Proposal>)
    requires |actions| >= 2
    ensures GeneralText(message, actions + more) == GeneralText(message, actions[..2])
  {
    assert (actions + more)[..2] == actions[..2];
    assert actions[..2][..2] == actions[..2];
  }

  /** The reply `_generate_response` writes for the message's intent. */
  function ResponseFor(userId: string, message: string, profile: Profile, docs: seq<MedicalDocument>,
                       actions: seq<Proposal>, ai: Ai.Model): string
  {
    match DetectIntent(message)
    case Greeting => GreetingText(Some(profile))
    case PregnancyInfo => PregnancyInfoText(Some(profile))
    case MedicalDocuments => DocumentsText(docs)
    case MedicalReview => ReviewText(userId, message, docs, ai)
    case Appointment => AppointmentText
    case Emergency => EmergencyText(Some(profile))
    case ContractionTracking => ContractionText(userId, message, ContractionInfoOf(message), ai)
    case WeekCheck => WeekCheckText(Some(profile), ai)
    case General => GeneralText(message, actions)
  }

  /** `_generate_response`. */
  method GenerateResponse(userId: string, message: string, profile: Profile, profiles: ProfileStore,
                          actions: seq<Proposal>, ai: Ai.Model) returns (text: string)
    ensures text == ResponseFor(userId, message, profile, profiles.GetUserMedicalDocuments(userId, None), actions, ai)
  {
    match DetectIntent(message) {
      case MedicalDocuments =>
        text := MedicalDocumentsInfo(userId, profiles);
      case ContractionTracking =>
        var info := ExtractContractionInfo(message);
        text := ContractionText(userId, message, info, ai);
      case _ =>
        text := ResponseFor(userId, message, profile, profiles.GetUserMedicalDocuments(userId, None), actions, ai);
    }
  }

  // ---------------------------------------------------------------------------
  // Context and the message turn

  /** `_get_conversation_context`: `Empty` is the `{}` returned when gathering fails. */
  datatype ConversationContext =
    | Empty
    | Gathered(recent: seq<Annotated<Conversation>>, relevant: seq<Memory>, profile: Option<Profile>,
               documents: seq<MedicalDocument>, currentTime: int, given: Metadata)

  /** The context as the dictionary handed to the planner, the handlers and the stored
      conversation, with records abbreviated to their ids. */
  function AsMetadata(c: ConversationContext): Metadata {
    match c
    case Empty => map[]
    case Gathered(recent, relevant, profile, documents, currentTime, given) =>
      map["recent_conversations" := List(Map(recent, (a: Annotated<Conversation>) => Int(a.record.id))),
          "relevant_memories" := List(Map(relevant, (m: Memory) => Int(m.id))),
          "user_profile" := if profile.Some? then Str(profile.value.userId) else Null,
          "medical_documents" := List(Map(documents, (d: MedicalDocument) => Str(d.documentId))),
          "current_time" := Time(currentTime),
          "context" := Dict(given)]
  }

  /** `_get_conversation_context`: the five latest conversations, three relevant memories
      for an empty query, the profile and its documents; `Empty` when the memory store is
      unavailable (the relevant-memory lookup raises). */
  method GatherContext(userId: string, context: Option<Metadata>, profiles: ProfileStore, store: MemoryStore,
                       ai: Ai.Model, ranker: Ranker, now: int) returns (c: ConversationContext)
    ensures !store.online <==> c == Empty
    ensures store.online ==> (
      && |c.recent| == |Recent(store.conversations, userId, 5)|
      && (forall k :: 0 <= k < |c.recent| ==> c.recent[k].record == Recent(store.conversations, userId, 5)[k])
      && c.relevant == Relevant(Candidates(store.memories, userId), "", 3, ranker)
      && c.profile == profiles.Find(userId)
      && c.documents == profiles.GetUserMedicalDocuments(userId, None)
      && c.currentTime == now && c.given == context.GetOr(map[]))
  {
    var recent := store.GetRecentConversations(userId, 5, ai);
    var relevant := store.GetRelevantMemories(userId, "", 3, ranker);
    if relevant.Err? {
      return Empty;
    }
    c := Gathered(recent, relevant.value, profiles.Find(userId), profiles.GetUserMedicalDocuments(userId, None),
                  now, context.GetOr(map[]));
  }

  /** An action the router ran, with the handler's reply. */
  datatype Executed = Executed(actionType: string, description: string, result: ActionResult)

  /** The dictionary `process_message` returns. */
  datatype Reply = Reply(response: string, actions: seq<Executed>, context: ConversationContext,
                         userProfile: Option<Profile>, needsProfile: bool)

  const NoProfileReply: Reply := Reply("אני לא מכיר אותך עדיין. אנא צור פרופיל משתמש תחילה.", [], Empty, None, true)
  const ApologyReply: Reply := Reply("מצטערת, נתקלתי בשגיאה בעיבוד ההודעה שלך. אנא נסה שוב.", [], Empty, None, false)

  /** The actions the router runs: the urgent ones (priority 2 or more) among the first three. */
  predicate Urgent(p: Proposal) { p.priority >= 2 }

  function Selected(plan: seq<Proposal>): seq<Proposal> {
    Filter(plan[..Min(3, |plan|)], Urgent)
  }

  function ProposalLabel(p: Proposal): (string, string) { (p.actionType, p.description) }
  function ExecutedLabel(e: Executed): (string, string) { (e.actionType, e.description) }

  /** The router never runs the medical review the planner proposes (its priority is 1);
      it runs the week update exactly when the week is given and the education exactly
      when the week is positive. */
  lemma RouterSelection(p: Profile)
    ensures ReviewProposal !in Selected(Plan(Some(p)))
    ensures UpdateProposal(p.pregnancyWeek.GetOr(0)) in Selected(Plan(Some(p))) <==> WeekGiven(p)
    ensures EducationProposal(p.pregnancyWeek.GetOr(0)) in Selected(Plan(Some(p))) <==> NeedsPregnancyEducation(p)
  {
    ProposalsContents(p);
    var w := p.pregnancyWeek.GetOr(0);
    SelectedMembers(Some(p), ReviewProposal);
    SelectedMembers(Some(p), UpdateProposal(w));
    SelectedMembers(Some(p), EducationProposal(w));
  }

  /** The plan has at most three actions, so the router considers all of them. */
  lemma SelectedMembers(profile: Option<Profile>, x: Proposal)
    ensures x in Selected(Plan(profile)) <==> x in Proposals(profile) && Urgent(x)
  {
    PlanAtMostThree(profile);
    var plan := Plan(profile);
    assert plan[..Min(3, |plan|)] == plan;
    SortDescMembers(Proposals(profile), ProposalKey);
    FilterMembers(plan, Urgent, x);
  }

  lemma PlanAtMostThree(profile: Option<Profile>)
    ensures |Plan(profile)| <= 3
  {
    PlanContents(profile);
    if profile.Some? {
      ProposalsContents(profile.value);
    }
  }

  /** One more action considered adds itself to the selection when it is urgent. */
  lemma SelectionStep(plan: seq<Proposal>, i: nat)
    requires i < |plan|
    ensures Filter(plan[..i + 1], Urgent) == Filter(plan[..i], Urgent) + (if Urgent(plan[i]) then [plan[i]] else [])
  {
    assert plan[..i + 1] == plan[..i] + [plan[i]];
    FilterConcat(plan[..i], [plan[i]], Urgent);
    assert Filter([plan[i]], Urgent) == if Urgent(plan[i]) then [plan[i]] else [];
  }

  /** What stays fixed while the actions of one message run. */
  datatype Setting = Setting(userId: string, context: Metadata, ai: Ai.Model, now: int, today: int, online: bool)

  /** The executed actions are the selected ones, in order, each run by `execute_action`
      on the state the previous one left: the profiles and memories `profiles[k]` and
      `memories[k]` before the `k`-th, `profiles[k + 1]` and `memories[k + 1]` after it. */
  ghost predicate RanInOrder(selected: seq<Proposal>, executed: seq<Executed>, s: Setting,
                             profiles: seq<map<string, Profile>>, memories: seq<seq<Memory>>)
  {
    && |executed| == |selected| && |profiles| == |selected| + 1 && |memories| == |selected| + 1
    && forall k :: 0 <= k < |selected| ==>
         && ExecutedLabel(executed[k]) == ProposalLabel(selected[k])
         && Executes(selected[k].actionType, s.userId, s.context, s.ai, s.now, s.today, s.online,
                     profiles[k], profiles[k + 1], memories[k], memories[k + 1], executed[k].result)
  }

  /** Running the selected actions in order took the profiles from `before` to `after`
      and the memories from `written` to `memories`. */
  ghost predicate Ran(selected: seq<Proposal>, executed: seq<Executed>, s: Setting,
                      before: map<string, Profile>, after: map<string, Profile>,
                      written: seq<Memory>, memories: seq<Memory>)
  {
    exists ps: seq<map<string, Profile>>, ms: seq<seq<Memory>> ::
      && RanInOrder(selected, executed, s, ps, ms)
      && ps[0] == before && ps[|ps| - 1] == after && ms[0] == written && ms[|ms| - 1] == memories
  }

  lemma RanLabels(selected: seq<Proposal>, executed: seq<Executed>, s: Setting,
                  ps: seq<map<string, Profile>>, ms: seq<seq<Memory>>)
    requires RanInOrder(selected, executed, s, ps, ms)
    ensures Map(executed, ExecutedLabel) == Map(selected, ProposalLabel)
  {
  }

  /** The run over the first three actions of the plan is a run of the selection. */
  lemma RanSelected(plan: seq<Proposal>, selected: seq<Proposal>, executed: seq<Executed>, s: Setting,
                    ps: seq<map<string, Profile>>, ms: seq<seq<Memory>>)
    requires selected == Filter(plan[..Min(3, |plan|)], Urgent)
    requires RanInOrder(selected, executed, s, ps, ms)
    ensures Map(executed, ExecutedLabel) == Map(Selected(plan), ProposalLabel)
    ensures Ran(Selected(plan), executed, s, ps[0], ps[|ps| - 1], ms[0], ms[|ms| - 1])
  {
    RanLabels(selected, executed, s, ps, ms);
  }

  lemma RanInOrderSnoc(selected: seq<Proposal>, executed: seq<Executed>, s: Setting,
                       ps: seq<map<string, Profile>>, ms: seq<seq<Memory>>,
                       x: Proposal, e: Executed, after: map<string, Profile>, memories: seq<Memory>)
    requires RanInOrder(selected, executed, s, ps, ms)
    requires ExecutedLabel(e) == ProposalLabel(x)
    requires Executes(x.actionType, s.userId, s.context, s.ai, s.now, s.today, s.online,
                      ps[|ps| - 1], after, ms[|ms| - 1], memories, e.result)
    ensures RanInOrder(selected + [x], executed + [e], s, ps + [after], ms + [memories])
  {
    var sel, ex, ps', ms' := selected + [x], executed + [e], ps + [after], ms + [memories];
    forall k | 0 <= k < |sel|
      ensures ExecutedLabel(ex[k]) == ProposalLabel(sel[k])
      ensures Executes(sel[k].actionType, s.userId, s.context, s.ai, s.now, s.today, s.online,
                       ps'[k], ps'[k + 1], ms'[k], ms'[k + 1], ex[k].result)
    {
      if k < |selected| {
        assert sel[k] == selected[k] && ex[k] == executed[k];
        assert ps'[k] == ps[k] && ps'[k + 1] == ps[k + 1] && ms'[k] == ms[k] && ms'[k + 1] == ms[k + 1];
      }
    }
  }

  /** Running `run` marks `a` completed: it is among them, urgent, and of a known type. */
  predicate CompletedBy(run: seq<Action>, a: Action) {
    a in run && Urgent(a.Planned()) && a.actionType in Catalogue
  }

  lemma CompletedByStep(run: seq<Action>, i: nat, b: Action)
    requires i < |run|
    ensures CompletedBy(run[..i + 1], b) == (CompletedBy(run[..i], b) || (b == run[i] && CompletedBy([run[i]], run[i])))
  {
    assert run[..i + 1] == run[..i] + [run[i]];
  }

  /** One round of the loop: the action runs when it is urgent. */
  method RunAction(action: Action, userId: string, context: Metadata, profiles: ProfileStore, store: MemoryStore,
                   ai: Ai.Model, now: int, today: int) returns (e: Option<Executed>)
    requires profiles.Valid() && store.Valid()
    modifies action, profiles, store
    ensures profiles.Valid() && store.Valid()
    ensures store.online == old(store.online) && store.conversations == old(store.conversations)
    ensures store.nextId >= old(store.nextId) && old(store.memories) <= store.memories
    ensures forall i :: |old(store.memories)| <= i < |store.memories| ==> store.memories[i].id >= old(store.nextId)
    ensures e.Some? <==> Urgent(action.Planned())
    ensures e.Some? ==> ExecutedLabel(e.value) == ProposalLabel(action.Planned())
    ensures action.completed == (old(action.completed) || (Urgent(action.Planned()) && action.actionType in Catalogue))
    ensures e.Some? ==> Executes(action.actionType, userId, context, ai, now, today, store.online,
                                 old(profiles.profiles), profiles.profiles, old(store.memories), store.memories, e.value.result)
    ensures e.None? ==> profiles.profiles == old(profiles.profiles) && store.memories == old(store.memories)
  {
    e := None;
    if action.priority >= 2 {
      var result := ExecuteAction(action, userId, context, profiles, store, ai, now, today);
      e := Some(Executed(action.actionType, action.description, result));
    }
  }

  /** One round of the loop with its bookkeeping: the run so far, extended by the action
      when it is urgent. */
  method RunNext(actions: seq<Action>, i: nat, userId: string, context: Metadata, profiles: ProfileStore,
                 store: MemoryStore, ai: Ai.Model, now: int, today: int, ghost flags: seq<bool>, executed: seq<Executed>,
                 ghost selected: seq<Proposal>, ghost ps: seq<map<string, Profile>>, ghost ms: seq<seq<Memory>>)
    returns (executed': seq<Executed>, ghost selected': seq<Proposal>,
             ghost ps': seq<map<string, Profile>>, ghost ms': seq<seq<Memory>>)
    requires i < |actions| && profiles.Valid() && store.Valid()
    requires selected == Filter(PlannedAll(actions)[..i], Urgent)
    requires RanInOrder(selected, executed, Setting(userId, context, ai, now, today, store.online), ps, ms)
    requires ps[|ps| - 1] == profiles.profiles && ms[|ms| - 1] == store.memories
    requires |flags| == |actions|
    requires forall j :: 0 <= j < |actions| ==> actions[j].completed == (flags[j] || CompletedBy(actions[..i], actions[j]))
    modifies actions[i], profiles, store
    ensures profiles.Valid() && store.Valid()
    ensures store.online == old(store.online) && store.conversations == old(store.conversations)
    ensures store.nextId >= old(store.nextId) && old(store.memories) <= store.memories
    ensures forall k :: |old(store.memories)| <= k < |store.memories| ==> store.memories[k].id >= old(store.nextId)
    ensures forall j :: 0 <= j < |actions| ==> actions[j].completed == (flags[j] || CompletedBy(actions[..i + 1], actions[j]))
    ensures selected' == Filter(PlannedAll(actions)[..i + 1], Urgent)
    ensures RanInOrder(selected', executed', Setting(userId, context, ai, now, today, store.online), ps', ms')
    ensures ps'[0] == ps[0] && ps'[|ps'| - 1] == profiles.profiles
    ensures ms'[0] == ms[0] && ms'[|ms'| - 1] == store.memories
  {
    ghost var plan := PlannedAll(actions);
    SelectionStep(plan, i);
    assert plan[i] == actions[i].Planned();
    executed', selected', ps', ms' := executed, selected, ps, ms;
    var e := RunAction(actions[i], userId, context, profiles, store, ai, now, today);
    if e.Some? {
      RanInOrderSnoc(selected, executed, Setting(userId, context, ai, now, today, store.online), ps, ms,
                     plan[i], e.value, profiles.profiles, store.memories);
      executed', selected' := executed + [e.value], selected + [plan[i]];
      ps', ms' := ps + [profiles.profiles], ms + [store.memories];
    }
    forall j | 0 <= j < |actions|
      ensures actions[j].completed == (flags[j] || CompletedBy(actions[..i + 1], actions[j]))
    {
      CompletedByStep(actions, i, actions[j]);
    }
  }

  /** The loop of `process_message` over the first three actions: it marks completed the
      urgent actions of a known type among them, and runs the urgent ones in order. */
  method RunActions(actions: seq<Action>, userId: string, context: Metadata, profiles: ProfileStore,
                    store: MemoryStore, ai: Ai.Model, now: int, today: int) returns (executed: seq<Executed>)
    requires profiles.Valid() && store.Valid()
    modifies actions, profiles, store
    ensures profiles.Valid() && store.Valid()
    ensures store.online == old(store.online) && store.conversations == old(store.conversations)
    ensures store.nextId >= old(store.nextId) && old(store.memories) <= store.memories
    ensures forall i :: |old(store.memories)| <= i < |store.memories| ==> store.memories[i].id >= old(store.nextId)
    ensures Map(executed, ExecutedLabel) == Map(Selected(PlannedAll(actions)), ProposalLabel)
    ensures forall j :: 0 <= j < |actions| ==>
      actions[j].completed == (old(actions[j].completed) || CompletedBy(actions[..Min(3, |actions|)], actions[j]))
    ensures Ran(Selected(PlannedAll(actions)), executed, Setting(userId, context, ai, now, today, store.online),
                old(profiles.profiles), profiles.profiles, old(store.memories), store.memories)
  {
    var n := Min(3, |actions|);
    assert n == Min(3, |PlannedAll(actions)|);
    executed := [];
    ghost var ps, ms, selected := [profiles.profiles], [store.memories], [];
    ghost var flags := seq(|actions|, j requires 0 <= j < |actions| reads actions => actions[j].completed);
    var i := 0;
    while i < n
      invariant 0 <= i <= n
      invariant profiles.Valid() && store.Valid()
      invariant store.online == old(store.online) && store.conversations == old(store.conversations)
      invariant store.nextId >= old(store.nextId) && old(store.memories) <= store.memories
      invariant forall k :: |old(store.memories)| <= k < |store.memories| ==> store.memories[k].id >= old(store.nextId)
      invariant forall j :: 0 <= j < |actions| ==> actions[j].completed == (flags[j] || CompletedBy(actions[..i], actions[j]))
      invariant selected == Filter(PlannedAll(actions)[..i], Urgent)
      invariant RanInOrder(selected, executed, Setting(userId, context, ai, now, today, store.online), ps, ms)
      invariant ps[0] == old(profiles.profiles) && ps[|ps| - 1] == profiles.profiles
      invariant ms[0] == old(store.memories) && ms[|ms| - 1] == store.memories
    {
      executed, selected, ps, ms :=
        RunNext(actions, i, userId, context, profiles, store, ai, now, today, flags, executed, selected, ps, ms);
      i := i + 1;
    }
    RanSelected(PlannedAll(actions), selected, executed, Setting(userId, context, ai, now, today, store.online), ps, ms);
  }

  /** The part of `process_message` before the turn is stored: the context, the planned
      actions and the reply. */
  method Prepare(userId: string, message: string, context: Option<Metadata>, p: Profile, profiles: ProfileStore,
                 store: MemoryStore, ai: Ai.Model, ranker: Ranker, now: int)
    returns (gathered: ConversationContext, actions: seq<Action>, response: string)
    requires profiles.Find(userId) == Some(p)
    ensures !store.online <==> gathered == Empty
    ensures PlannedAll(actions) == Plan(Some(p))
    ensures forall i :: 0 <= i < |actions| ==> fresh(actions[i])
    ensures response == ResponseFor(userId, message, p, p.medicalDocuments, Plan(Some(p)), ai)
  {
    gathered := GatherContext(userId, context, profiles, store, ai, ranker, now);
    actions := AnalyzeUserNeeds(userId, AsMetadata(gathered), profiles, now);
    response := GenerateResponse(userId, message, p, profiles, PlannedAll(actions), ai);
  }

  /** The conversation record of a turn, as `store_conversation` writes it. */
  function Turn(id: nat, userId: string, message: string, reply: Reply, ai: Ai.Model, now: int): Conversation {
    var context := AsMetadata(reply.context);
    Conversation(id, userId, now, message, reply.response, context,
                 ai.ask(Ai.AnalyzeConversation(userId, message, reply.response, Some(context))), "conversation")
  }

  /** `process_message` once the profile `p` is found. */
  method Converse(userId: string, message: string, context: Option<Metadata>, p: Profile, profiles: ProfileStore,
                  store: MemoryStore, ai: Ai.Model, ranker: Ranker, now: int, today: int) returns (reply: Reply)
    requires profiles.Valid() && store.Valid() && profiles.Find(userId) == Some(p)
    modifies profiles, store
    ensures profiles.Valid() && store.Valid()
    ensures !old(store.online) ==> (reply == ApologyReply
      && profiles.profiles == old(profiles.profiles) && store.memories == old(store.memories)
      && store.conversations == old(store.conversations))
    ensures old(store.online) ==> (
      && !reply.needsProfile && reply.userProfile == Some(p)
      && reply.response == ResponseFor(userId, message, p, p.medicalDocuments, Plan(Some(p)), ai)
      && store.conversations == old(store.conversations) + [Turn(old(store.nextId), userId, message, reply, ai, now)]
      && (forall i :: |old(store.memories)| <= i < |store.memories| ==> store.memories[i].id > old(store.nextId))
      && Map(reply.actions, ExecutedLabel) == Map(Selected(Plan(Some(p))), ProposalLabel)
      && Ran(Selected(Plan(Some(p))), reply.actions, Setting(userId, AsMetadata(reply.context), ai, now, today, true),
             old(profiles.profiles), profiles.profiles, old(store.memories), store.memories))
  {
    var gathered, actions, response := Prepare(userId, message, context, p, profiles, store, ai, ranker, now);
    var ctx := AsMetadata(gathered);
    var stored := store.StoreConversation(userId, message, response, Some(ctx), ai, now);
    if stored.Err? {
      return ApologyReply;
    }
    var executed := RunActions(actions, userId, ctx, profiles, store, ai, now, today);
    reply := Reply(response, executed, gathered, Some(p), false);
  }

  /** `process_message`. Without a profile it asks for one and changes nothing. When the
      conversation cannot be stored it apologises and runs no action. Otherwise the turn
      is stored before any action runs (every memory the actions write has a later id),
      and the actions run are the urgent ones among the first three of the plan, in plan
      order. */
  method ProcessMessage(userId: string, message: string, context: Option<Metadata>, profiles: ProfileStore,
                        store: MemoryStore, ai: Ai.Model, ranker: Ranker, now: int, today: int) returns (reply: Reply)
    requires profiles.Valid() && store.Valid()
    modifies profiles, store
    ensures profiles.Valid() && store.Valid()
    ensures old(profiles.Find(userId)).None? ==> (reply == NoProfileReply
      && profiles.profiles == old(profiles.profiles) && store.memories == old(store.memories)
      && store.conversations == old(store.conversations))
    ensures old(profiles.Find(userId)).Some? && !old(store.online) ==> (reply == ApologyReply
      && profiles.profiles == old(profiles.profiles) && store.memories == old(store.memories)
      && store.conversations == old(store.conversations))
    ensures old(profiles.Find(userId)).Some? && old(store.online) ==> (
      && !reply.needsProfile && reply.userProfile == old(profiles.Find(userId))
      && reply.response == ResponseFor(userId, message, old(profiles.Find(userId)).value,
                                       old(profiles.GetUserMedicalDocuments(userId, None)),
                                       Plan(old(profiles.Find(userId))), ai)
      && store.conversations == old(store.conversations) + [Turn(old(store.nextId), userId, message, reply, ai, now)]
      && (forall i :: |old(store.memories)| <= i < |store.memories| ==> store.memories[i].id > old(store.nextId))
      && Map(reply.actions, ExecutedLabel) == Map(Selected(Plan(old(profiles.Find(userId)))), ProposalLabel)
      && Ran(Selected(Plan(old(profiles.Find(userId)))), reply.actions,
             Setting(userId, AsMetadata(reply.context), ai, now, today, true),
             old(profiles.profiles), profiles.profiles, old(store.memories), store.memories))
  {
    var profile := profiles.Find(userId);
    if profile.None? {
      return NoProfileReply;
    }
    reply := Converse(userId, message, context, profile.value, profiles, store, ai, ranker, now, today);
  }

}

/** The action planner: it proposes prioritised actions from a user's profile and
    executes an action by running the handler its type names. A handler consults the
    model, may set the profile's pregnancy week and may write one memory. */
module ActionPlanner {
  import opened Wrappers
  import opened Values
  import opened Seqs
  import opened Sorting
  import Ai
  import opened UserProfile
  import opened MemoryManager

  // ---------------------------------------------------------------------------
  // Planning

  /** An action as the planner describes it; `metadata` is `{}` when none is given. */
  datatype Proposal = Proposal(actionType: string, description: string, priority: int, metadata: Metadata)

  function UpdateProposal(week: int): Proposal {
    Proposal("pregnancy_update", "Update pregnancy information for week " + IntToString(week), 2,
             map["pregnancy_week" := Int(week)])
  }

  const ReviewProposal: Proposal :=
    Proposal("medical_review", "Perform medical review of uploaded documents", 1,
             map["review_type" := Str("comprehensive")])

  function EducationProposal(week: int): Proposal {
    Proposal("pregnancy_education", "Provide education for pregnancy week " + IntToString(week), 2,
             map["education_type" := Str("weekly_info")])
  }

  /** `_needs_medical_review`: the profile holds at least one document. */
  predicate NeedsMedicalReview(p: Profile) {
    |p.medicalDocuments| > 0
  }

  /** `_needs_pregnancy_education`: the week is set, truthy and positive. */
  predicate NeedsPregnancyEducation(p: Profile) {
    p.pregnancyWeek.Some? && p.pregnancyWeek.value != 0 && p.pregnancyWeek.value > 0
  }

  /** The proposals in the order `analyze_user_needs` appends them; none without a profile. */
  function Proposals(profile: Option<Profile>): seq<Proposal> {
    if profile.None? then []
    else
      var p := profile.value;
      var w := p.pregnancyWeek.GetOr(0);
      (if WeekGiven(p) then [UpdateProposal(w)] else [])
      + (if NeedsMedicalReview(p) then [ReviewProposal] else [])
      + (if NeedsPregnancyEducation(p) then [EducationProposal(w)] else [])
  }

  /** `key=lambda x: x.priority`. */
  function ProposalKey(a: Proposal): Key { Key(a.priority as real, 0.0) }

  /** The position at which `analyze_user_needs` appends an action of each type. */
  function EmissionOrder(a: Proposal): int {
    if a.actionType == "pregnancy_update" then 0
    else if a.actionType == "medical_review" then 1
    else 2
  }

  /** `sorted(actions, key=lambda x: x.priority, reverse=True)`. */
  function Plan(profile: Option<Profile>): seq<Proposal> {
    SortDesc(Proposals(profile), ProposalKey)
  }

  /** The appended proposals: an update exactly when the week is truthy, a review
      exactly when there is a document, an education action exactly when the week is
      positive, and nothing else. */
  lemma ProposalsContents(p: Profile)
    ensures UpdateProposal(p.pregnancyWeek.GetOr(0)) in Proposals(Some(p)) <==> WeekGiven(p)
    ensures ReviewProposal in Proposals(Some(p)) <==> NeedsMedicalReview(p)
    ensures EducationProposal(p.pregnancyWeek.GetOr(0)) in Proposals(Some(p)) <==> NeedsPregnancyEducation(p)
    ensures |Proposals(Some(p))| == (if WeekGiven(p) then 1 else 0) + (if NeedsMedicalReview(p) then 1 else 0)
      + (if NeedsPregnancyEducation(p) then 1 else 0)
    ensures forall a :: a in Proposals(Some(p)) ==>
      a == UpdateProposal(p.pregnancyWeek.GetOr(0)) || a == ReviewProposal || a == EducationProposal(p.pregnancyWeek.GetOr(0))
  {
    var w := p.pregnancyWeek.GetOr(0);
    var u, v, e := UpdateProposal(w), ReviewProposal, EducationProposal(w);
    assert u.actionType != v.actionType && u.actionType != e.actionType && v.actionType != e.actionType by {
      assert |u.actionType| == 16 && |v.actionType| == 14 && |e.actionType| == 19;
    }
    var a := if WeekGiven(p) then [u] else [];
    var b := if NeedsMedicalReview(p) then [v] else [];
    var c := if NeedsPregnancyEducation(p) then [e] else [];
    assert Proposals(Some(p)) == a + b + c;
  }

  /** Sorting keeps exactly the appended proposals. */
  lemma PlanContents(profile: Option<Profile>)
    ensures profile.None? ==> Plan(profile) == []
    ensures profile.Some? ==> |Plan(profile)| == |Proposals(profile)|
    ensures forall a :: a in Plan(profile) <==> a in Proposals(profile)
  {
    SortDescMembers(Proposals(profile), ProposalKey);
  }

  /** The plan runs from the highest priority to the lowest, and actions of equal
      priority keep the order in which they were appended. */
  lemma PlanOrdered(profile: Option<Profile>)
    ensures RankedBy(Plan(profile), ProposalKey, EmissionOrder)
  {
    var props := Proposals(profile);
    assert TagsIncreasing(props, EmissionOrder) by {
      forall i, j | 0 <= i < j < |props| ensures EmissionOrder(props[i]) < EmissionOrder(props[j]) {
        assert props[i] in props && props[j] in props;
      }
    }
    SortDescRanked(props, ProposalKey, EmissionOrder);
  }

  /** Week 20 with one document: the update and the education action, both of priority
      2, come before the review, whose priority is 1. */
  lemma PlanWeekTwenty(p: Profile)
    requires p.pregnancyWeek == Some(20) && |p.medicalDocuments| == 1
    ensures Plan(Some(p)) == [UpdateProposal(20), EducationProposal(20), ReviewProposal]
  {
    assert Proposals(Some(p)) == [UpdateProposal(20), ReviewProposal, EducationProposal(20)];
    SortMiddleLowest(UpdateProposal(20), ReviewProposal, EducationProposal(20), ProposalKey);
  }

  /** Sorting three elements whose middle one has the strictly lowest key moves it last. */
  lemma SortMiddleLowest<T>(x: T, y: T, z: T, key: T -> Key)
    requires AtLeast(key(x), key(z)) && !AtLeast(key(y), key(z))
    ensures SortDesc([x, y, z], key) == [x, z, y]
  {
    var e: seq<T> := [];
    assert [z][1..] == e;
    assert SortDesc(e, key) == e;
    assert Insert(z, e, key) == [z];
    assert SortDesc([z], key) == [z];
    assert Insert(y, e, key) == [y];
    assert [z] + [y] == [z, y];
    assert Insert(y, [z], key) == [z, y];
    assert [y, z][1..] == [z];
    assert SortDesc([y, z], key) == [z, y];
    assert Insert(x, [z, y], key) == [x, z, y];
    assert [x, y, z][1..] == [y, z];
  }

  /** An action; `completed` is the only field that changes after creation. */
  class Action {
    const actionType: string
    const description: string
    const priority: int
    const metadata: Metadata
    const createdAt: int
    var completed: bool

    constructor (actionType: string, description: string, priority: int, metadata: Option<Metadata>, now: int)
      ensures this.actionType == actionType && this.description == description && this.priority == priority
      ensures this.metadata == metadata.GetOr(map[]) && createdAt == now && !completed
    {
      this.actionType := actionType;
      this.description := description;
      this.priority := priority;
      this.metadata := metadata.GetOr(map[]);
      createdAt := now;
      completed := false;
    }

    /** The action as a proposal. */
    function Planned(): Proposal {
      Proposal(actionType, description, priority, metadata)
    }
  }

  function ActionKey(a: Action): Key { Key(a.priority as real, 0.0) }

  function PlannedAll(actions: seq<Action>): seq<Proposal> {
    Map(actions, (a: Action) => a.Planned())
  }

  /** An action sorts by the key of the proposal it carries. */
  lemma KeysAgree()
    ensures forall a: Action :: ActionKey(a) == ProposalKey(a.Planned())
  {
  }

  /** `sorted(actions, key=lambda x: x.priority, reverse=True)` on the actions themselves. */
  function SortActions(actions: seq<Action>): (r: seq<Action>)
    ensures PlannedAll(r) == SortDesc(PlannedAll(actions), ProposalKey)
    ensures multiset(r) == multiset(actions)
  {
    KeysAgree();
    SortDescMap(actions, (a: Action) => a.Planned(), ActionKey, ProposalKey);
    SortDesc(actions, ActionKey)
  }

  /** A new, uncompleted action for a proposal. */
  method NewAction(p: Proposal, now: int) returns (a: Action)
    ensures fresh(a) && a.Planned() == p && a.createdAt == now && !a.completed
  {
    a := new Action(p.actionType, p.description, p.priority, Some(p.metadata), now);
  }

  /** New actions for the proposals of `p`, appended in the order the checks run. */
  method AppendActions(p: Profile, now: int) returns (appended: seq<Action>)
    ensures PlannedAll(appended) == Proposals(Some(p))
    ensures forall i :: 0 <= i < |appended| ==> fresh(appended[i]) && !appended[i].completed && appended[i].createdAt == now
  {
    var w := p.pregnancyWeek.GetOr(0);
    appended := [];
    ghost var expected: seq<Proposal> := [];
    if WeekGiven(p) {
      var a := NewAction(UpdateProposal(w), now);
      MapSnoc(appended, a, (a: Action) => a.Planned());
      appended, expected := appended + [a], expected + [UpdateProposal(w)];
    }
    if NeedsMedicalReview(p) {
      var a := NewAction(ReviewProposal, now);
      MapSnoc(appended, a, (a: Action) => a.Planned());
      appended, expected := appended + [a], expected + [ReviewProposal];
    }
    if NeedsPregnancyEducation(p) {
      var a := NewAction(EducationProposal(w), now);
      MapSnoc(appended, a, (a: Action) => a.Planned());
      appended, expected := appended + [a], expected + [EducationProposal(w)];
    }
    assert PlannedAll(appended) == expected;
  }

  /** `analyze_user_needs`: new actions for the plan of the user's profile, in plan order. */
  method AnalyzeUserNeeds(userId: string, context: Metadata, profiles: ProfileStore, now: int)
    returns (actions: seq<Action>)
    ensures PlannedAll(actions) == Plan(profiles.Find(userId))
    ensures forall i :: 0 <= i < |actions| ==> fresh(actions[i]) && !actions[i].completed && actions[i].createdAt == now
  {
    var found := profiles.Find(userId);
    if found.None? {
      return [];
    }
    var appended := AppendActions(found.value, now);
    actions := SortActions(appended);
    forall i | 0 <= i < |actions| ensures fresh(actions[i]) && !actions[i].completed && actions[i].createdAt == now {
      assert actions[i] in multiset(appended);
    }
  }

  // ---------------------------------------------------------------------------
  // Handlers

  datatype Status = Success | Info | Error

  /** A handler's reply: `status`, `message` and the remaining keys in `details`. */
  datatype ActionResult = ActionResult(status: Status, message: string, details: Metadata)

  /** The memory a handler writes: through `store_memory`, `store_medical_memory` or
      `store_pregnancy_memory`, or none. */
  datatype Write =
    | NoWrite
    | Plain(memoryType: string, content: string, importance: real)
    | Medical(documentType: string, content: string, importance: real)
    | Pregnancy(week: int, content: string, importance: real)

  /** What a handler decides: a new pregnancy week for the profile, a memory to write and
      the reply it returns once the write succeeds. */
  datatype Step = Step(setWeek: Option<int>, write: Write, result: ActionResult)

  /** `_medical_review`: without documents an `info` reply and no memory; otherwise the
      model's review, stored as a medical memory of type "review". */
  function MedicalReviewStep(userId: string, context: Metadata, docs: seq<MedicalDocument>, ai: Ai.Model): (s: Step)
    ensures s.setWeek == None
    ensures s.result.status == Info <==> docs == []
    ensures s.write == NoWrite <==> docs == []
    ensures docs != [] ==> s.write.Medical? && s.write.documentType == "review" && s.write.importance == 0.9
    ensures s.result.status != Error && "action_type" in s.result.details && s.result.details["action_type"] == Str("medical_review")
  {
    if docs == [] then
      Step(None, NoWrite, ActionResult(Info, "No medical documents found for review",
                                       map["action_type" := Str("medical_review")]))
    else
      var review := ai.ask(Ai.MedicalReview(userId, Map(docs, (d: MedicalDocument) => d.documentId), context));
      Step(None, Medical("review", "Medical review completed: " + GetText(review, "summary", ""), 0.9),
           ActionResult(Success, "Medical review completed",
                        map["review_results" := Dict(review), "action_type" := Str("medical_review")]))
  }

  /** The week `_pregnancy_update` computes, when the profile exists and has an LMP date. */
  function ComputedWeek(profile: Option<Profile>, today: int): Option<int> {
    if profile.Some? && profile.value.lmpDate.Some? then Some(WeekSince(profile.value.lmpDate.value, today)) else None
  }

  /** `_pregnancy_update`: when the week computed from the LMP date differs from the
      stored week, set it and write a pregnancy memory; otherwise an `info` reply. */
  function PregnancyUpdateStep(userId: string, context: Metadata, profile: Option<Profile>, ai: Ai.Model, today: int): (s: Step)
    ensures s.setWeek.Some? <==> ComputedWeek(profile, today).Some? && ComputedWeek(profile, today) != profile.value.pregnancyWeek
    ensures s.setWeek.Some? ==> (s.setWeek == ComputedWeek(profile, today) && 1 <= s.setWeek.value <= 42
      && s.write.Pregnancy? && s.write.week == s.setWeek.value && s.write.importance == 0.8
      && s.result.status == Success && s.result.message == "Pregnancy week updated to " + IntToString(s.setWeek.value))
    ensures s.setWeek.None? ==> (s.write == NoWrite
      && s.result == ActionResult(Info, "Pregnancy week is up to date", map["action_type" := Str("pregnancy_update")]))
  {
    var current := ComputedWeek(profile, today);
    if current.Some? && current != profile.value.pregnancyWeek then
      var w := current.value;
      var insights := ai.ask(Ai.PregnancyWeekInsights(userId, Some(w), context));
      Step(Some(w),
           Pregnancy(w, "Pregnancy week updated to " + IntToString(w) + ". Insights: " + GetText(insights, "summary", ""), 0.8),
           ActionResult(Success, "Pregnancy week updated to " + IntToString(w),
                        map["pregnancy_week" := Int(w), "insights" := Dict(insights), "action_type" := Str("pregnancy_update")]))
    else
      Step(None, NoWrite, ActionResult(Info, "Pregnancy week is up to date", map["action_type" := Str("pregnancy_update")]))
  }

  /** Once the update has set the week, running it again on the same day finds the
      week up to date. */
  lemma PregnancyUpdateSettles(userId: string, context: Metadata, p: Profile, ai: Ai.Model, today: int, now: int)
    requires PregnancyUpdateStep(userId, context, Some(p), ai, today).setWeek.Some?
    ensures PregnancyUpdateStep(userId, context,
      Some(Apply(p, WeekUpdate(PregnancyUpdateStep(userId, context, Some(p), ai, today).setWeek.value), now)),
      ai, today).setWeek == None
  {
    var w := PregnancyUpdateStep(userId, context, Some(p), ai, today).setWeek.value;
    ApplyKeeps(p, WeekUpdate(w), now);
  }

  /** `_pregnancy_education`: with a truthy week the model's education content and a
      pregnancy memory; otherwise an `info` reply. */
  function EducationStep(userId: string, context: Metadata, profile: Option<Profile>, ai: Ai.Model): (s: Step)
    ensures s.setWeek == None
    ensures s.write != NoWrite <==> profile.Some? && WeekGiven(profile.value)
    ensures s.write != NoWrite ==> (s.write == Pregnancy(profile.value.pregnancyWeek.value,
      "Provided AI-generated education for week " + IntToString(profile.value.pregnancyWeek.value), 0.6)
      && s.result.status == Success)
    ensures s.write == NoWrite ==> s.result == ActionResult(Info, "Pregnancy week information needed for education",
      map["action_type" := Str("pregnancy_education")])
  {
    if profile.Some? && WeekGiven(profile.value) then
      var w := profile.value.pregnancyWeek.value;
      var content := ai.ask(Ai.PregnancyEducation(userId, w, context));
      Step(None, Pregnancy(w, "Provided AI-generated education for week " + IntToString(w), 0.6),
           ActionResult(Success, "Pregnancy education for week " + IntToString(w),
                        map["action_type" := Str("pregnancy_education"), "week" := Int(w), "content" := Dict(content)]))
    else
      Step(None, NoWrite, ActionResult(Info, "Pregnancy week information needed for education",
                                       map["action_type" := Str("pregnancy_education")]))
  }

  /** `_contraction_tracking`: with truthy `contraction_data` the model's analysis and a
      pregnancy memory for week 0; otherwise an `info` reply. */
  function ContractionStep(userId: string, context: Metadata, ai: Ai.Model): (s: Step)
    ensures s.setWeek == None
    ensures s.write != NoWrite <==> TruthyAt(context, "contraction_data")
    ensures s.write != NoWrite ==> s.write.Pregnancy? && s.write.week == 0 && s.write.importance == 0.9
    ensures s.result.status == Info <==> !TruthyAt(context, "contraction_data")
  {
    var data := Get(context, "contraction_data", Dict(map[]));
    if Truthy(data) then
      var analysis := ai.ask(Ai.AnalyzeContractions(userId, data, context));
      Step(None, Pregnancy(0, "AI contraction analysis: " + GetText(analysis, "summary", ""), 0.9),
           ActionResult(Success, "Contraction analysis completed",
                        map["action_type" := Str("contraction_tracking"), "analysis" := Dict(analysis)]))
    else
      Step(None, NoWrite, ActionResult(Info, "Contraction data needed for analysis",
                                       map["action_type" := Str("contraction_tracking")]))
  }

  /** `_schedule_appointment`: the appointment type defaults to "general". */
  function AppointmentStep(userId: string, context: Metadata, ai: Ai.Model): (s: Step)
    ensures s.setWeek == None && s.result.status == Success
    ensures s.write == Plain("appointment", "AI-assisted appointment scheduling for "
      + (if "appointment_type" in context then Show(context["appointment_type"]) else "general"), 0.8)
  {
    var t := Get(context, "appointment_type", Str("general"));
    var recommendations := ai.ask(Ai.AppointmentRecommendations(userId, t, context));
    Step(None, Plain("appointment", "AI-assisted appointment scheduling for " + Show(t), 0.8),
         ActionResult(Success, "Appointment scheduling for " + Show(t) + " with AI recommendations",
                      map["action_type" := Str("schedule_appointment"), "appointment_type" := t,
                          "recommendations" := Dict(recommendations)]))
  }

  /** `_upload_document`: the document types default to `["general"]`; no memory. */
  function UploadStep(userId: string, context: Metadata, ai: Ai.Model): (s: Step)
    ensures s.setWeek == None && s.write == NoWrite && s.result.status == Success
    ensures "document_types" in s.result.details && s.result.details["document_types"] == if "document_types" in context then context["document_types"] else List([Str("general")])
  {
    var types := Get(context, "document_types", List([Str("general")]));
    var recommendations := ai.ask(Ai.DocumentUploadRecommendations(userId, types, context));
    Step(None, NoWrite,
         ActionResult(Success, "Document upload available with AI recommendations",
                      map["action_type" := Str("upload_document"), "document_types" := types,
                          "recommendations" := Dict(recommendations)]))
  }

  /** `_create_reminder`: the reminder type defaults to "general"; the reply names the
      action type "reminder". */
  function ReminderStep(userId: string, context: Metadata, ai: Ai.Model): (s: Step)
    ensures s.setWeek == None && s.result.status == Success
    ensures s.write == Plain("reminder", s.result.message, 0.7)
    ensures "action_type" in s.result.details && s.result.details["action_type"] == Str("reminder")
  {
    var t := Get(context, "reminder_type", Str("general"));
    var settings := ai.ask(Ai.ReminderSettings(userId, t, context));
    Step(None, Plain("reminder", "AI-optimized reminder created for " + Show(t), 0.7),
         ActionResult(Success, "AI-optimized reminder created for " + Show(t),
                      map["action_type" := Str("reminder"), "reminder_type" := t, "settings" := Dict(settings)]))
  }

  /** `_emergency_contact`: the profile's contact, `None` without a profile; no memory. */
  function EmergencyStep(userId: string, context: Metadata, profile: Option<Profile>, ai: Ai.Model): (s: Step)
    ensures s.setWeek == None && s.write == NoWrite && s.result.status == Success
    ensures "emergency_contact" in s.result.details && s.result.details["emergency_contact"] ==
      if profile.Some? && profile.value.emergencyContact.Some? then Str(profile.value.emergencyContact.value) else Null
  {
    var contact := if profile.Some? then profile.value.emergencyContact else None;
    var recommendations := ai.ask(Ai.EmergencyRecommendations(userId, contact, context));
    Step(None, NoWrite,
         ActionResult(Success, "Emergency contact information with AI recommendations",
                      map["action_type" := Str("emergency_contact"),
                          "emergency_contact" := if contact.Some? then Str(contact.value) else Null,
                          "recommendations" := Dict(recommendations)]))
  }

  /** `_symptom_tracking`: the tracking type defaults to "daily"; a pregnancy memory for
      week 0. */
  function SymptomStep(userId: string, context: Metadata, ai: Ai.Model): (s: Step)
    ensures s.setWeek == None && s.result.status == Success
    ensures s.write.Pregnancy? && s.write.week == 0 && s.write.importance == 0.7
  {
    var t := Get(context, "tracking_type", Str("daily"));
    var analysis := ai.ask(Ai.AnalyzeSymptoms(userId, t, context));
    Step(None, Pregnancy(0, "AI symptom analysis for " + Show(t) + " tracking", 0.7),
         ActionResult(Success, "AI symptom tracking (" + Show(t) + ") initiated",
                      map["action_type" := Str("symptom_tracking"), "tracking_type" := t, "analysis" := Dict(analysis)]))
  }

  /** The nine action types that have a handler. */
  datatype Kind =
    | Appointment | Upload | Review | Update | Reminder | Emergency | Education | Symptoms | Contractions

  /** The key of a handler in `available_actions`. */
  function Name(k: Kind): string {
    match k
    case Appointment => "schedule_appointment"
    case Upload => "upload_document"
    case Review => "medical_review"
    case Update => "pregnancy_update"
    case Reminder => "reminder"
    case Emergency => "emergency_contact"
    case Education => "pregnancy_education"
    case Symptoms => "symptom_tracking"
    case Contractions => "contraction_tracking"
  }

  const Catalogue: seq<string> := [
    "schedule_appointment", "upload_document", "medical_review", "pregnancy_update", "reminder",
    "emergency_contact", "pregnancy_education", "symptom_tracking", "contraction_tracking"]

  /** `action_type in self.available_actions`, with the handler it selects. */
  function KindOf(actionType: string): (k: Option<Kind>)
    ensures k.Some? <==> actionType in Catalogue
    ensures k.Some? ==> Name(k.value) == actionType
  {
    if actionType == "schedule_appointment" then Some(Appointment)
    else if actionType == "upload_document" then Some(Upload)
    else if actionType == "medical_review" then Some(Review)
    else if actionType == "pregnancy_update" then Some(Update)
    else if actionType == "reminder" then Some(Reminder)
    else if actionType == "emergency_contact" then Some(Emergency)
    else if actionType == "pregnancy_education" then Some(Education)
    else if actionType == "symptom_tracking" then Some(Symptoms)
    else if actionType == "contraction_tracking" then Some(Contractions)
    else None
  }

  /** Every handler is found under its own key, so the nine keys are distinct. */
  lemma KindOfName(k: Kind)
    ensures KindOf(Name(k)) == Some(k)
  {
    assert Name(k) in Catalogue;
    assert |"pregnancy_update"| == |"symptom_tracking"| == 16 && "pregnancy_update"[0] != "symptom_tracking"[0];
    assert |"schedule_appointment"| == |"contraction_tracking"| == 20 && "schedule_appointment"[0] != "contraction_tracking"[0];
  }

  /** The step of the handler for `kind`, applied to the profile as it is when the action runs. */
  function Handle(kind: Kind, userId: string, context: Metadata, profile: Option<Profile>,
                  ai: Ai.Model, today: int): Step
  {
    match kind
    case Appointment => AppointmentStep(userId, context, ai)
    case Upload => UploadStep(userId, context, ai)
    case Review => MedicalReviewStep(userId, context, if profile.Some? then profile.value.medicalDocuments else [], ai)
    case Update => PregnancyUpdateStep(userId, context, profile, ai, today)
    case Reminder => ReminderStep(userId, context, ai)
    case Emergency => EmergencyStep(userId, context, profile, ai)
    case Education => EducationStep(userId, context, profile, ai)
    case Symptoms => SymptomStep(userId, context, ai)
    case Contractions => ContractionStep(userId, context, ai)
  }

  /** Handlers never report an error themselves (an error reply comes only from a
      failed write or from an unknown type), and only the update changes the profile. */
  lemma HandleNeverFails(kind: Kind, userId: string, context: Metadata, profile: Option<Profile>, ai: Ai.Model, today: int)
    ensures Handle(kind, userId, context, profile, ai, today).result.status != Error
    ensures Handle(kind, userId, context, profile, ai, today).setWeek.Some? ==> kind == Update
  {
  }


  /** Only the review writes a medical memory, and only the appointment and reminder
      handlers write a plain memory. */
  lemma HandleWrites(kind: Kind, userId: string, context: Metadata, profile: Option<Profile>, ai: Ai.Model, today: int)
    ensures Handle(kind, userId, context, profile, ai, today).write.Medical? ==> kind == Review
    ensures Handle(kind, userId, context, profile, ai, today).write.Plain? ==> kind == Appointment || kind == Reminder
  {
  }


  /** `m` is the memory `w` stores for `userId` at `now`. */
  predicate Records(m: Memory, userId: string, w: Write, ai: Ai.Model, now: int) {
    && m.userId == userId && m.createdAt == now && m.lastAccessed == now
    && match w
       case NoWrite => false
       case Plain(t, c, importance) =>
         m.memoryType == t && m.content == c && m.importance == importance && m.metadata == map[]
       case Medical(dt, c, importance) =>
         && m.memoryType == "medical" && m.content == c && m.importance == importance
         && m.metadata == map["document_type" := Str(dt),
                              "ai_medical_analysis" := Dict(ai.ask(Ai.AnalyzeMedicalMemory(userId, dt, c)))]
       case Pregnancy(week, c, importance) =>
         && m.memoryType == "pregnancy" && m.content == c && m.importance == importance
         && m.metadata == map["pregnancy_week" := Int(week),
                              "ai_pregnancy_insights" := Dict(ai.ask(Ai.AnalyzePregnancyMemory(userId, week, c)))]
  }

  /** The profiles after the step's week, if any, is set on the user's profile. */
  predicate WeekSet(step: Step, userId: string, now: int, before: map<string, Profile>, after: map<string, Profile>) {
    after == if step.setWeek.Some? && userId in before
             then before[userId := Apply(before[userId], WeekUpdate(step.setWeek.value), now)]
             else before
  }

  /** The memories and the reply after writing `w`: the memory is appended and the reply
      is `result`, or an error when the database is unavailable. */
  predicate Wrote(w: Write, result: ActionResult, userId: string, ai: Ai.Model, now: int, online: bool,
                  written: seq<Memory>, memories: seq<Memory>, r: ActionResult)
  {
    if w.NoWrite? then memories == written && r == result
    else if !online then memories == written && r.status == Error && r.details == map[]
    else
      && |memories| == |written| + 1 && memories[..|written|] == written
      && Records(memories[|written|], userId, w, ai, now) && r == result
  }

  /** The effect of carrying out `step` for `userId`. */
  predicate Performed(step: Step, userId: string, ai: Ai.Model, now: int, online: bool,
                      before: map<string, Profile>, after: map<string, Profile>,
                      written: seq<Memory>, memories: seq<Memory>, r: ActionResult)
  {
    WeekSet(step, userId, now, before, after) && Wrote(step.write, step.result, userId, ai, now, online, written, memories, r)
  }

  /** What `execute_action` does for an action of type `actionType` when the stored
      profiles are `before`: the handler of the type runs on the user's stored profile;
      a type outside the catalogue yields the "Unknown action type" error and changes nothing. */
  predicate Executes(actionType: string, userId: string, context: Metadata, ai: Ai.Model, now: int, today: int,
                     online: bool, before: map<string, Profile>, after: map<string, Profile>,
                     written: seq<Memory>, memories: seq<Memory>, r: ActionResult)
  {
    if actionType in Catalogue then
      Performed(Handle(KindOf(actionType).value, userId, context, if userId in before then Some(before[userId]) else None,
                       ai, today),
                userId, ai, now, online, before, after, written, memories, r)
    else
      r == ActionResult(Error, "Unknown action type", map[]) && after == before && memories == written
  }

  /** Writes the memory of a step and returns its reply. */
  method WriteMemory(w: Write, result: ActionResult, userId: string, store: MemoryStore, ai: Ai.Model, now: int)
    returns (r: ActionResult)
    requires store.Valid()
    modifies store
    ensures store.Valid()
    ensures store.online == old(store.online) && store.conversations == old(store.conversations)
    ensures store.nextId >= old(store.nextId) && old(store.memories) <= store.memories
    ensures forall i :: |old(store.memories)| <= i < |store.memories| ==> store.memories[i].id >= old(store.nextId)
    ensures Wrote(w, result, userId, ai, now, store.online, old(store.memories), store.memories, r)
  {
    var stored: Result<nat, string>;
    match w {
      case NoWrite =>
        return result;
      case Plain(t, c, importance) =>
        stored := store.StoreMemory(userId, t, c, importance, None, ai, now);
      case Medical(dt, c, importance) =>
        stored := store.StoreMedicalMemory(userId, dt, c, importance, ai, now);
      case Pregnancy(week, c, importance) =>
        stored := store.StorePregnancyMemory(userId, week, c, importance, ai, now);
    }
    r := if stored.Err? then ActionResult(Error, stored.error, map[]) else result;
  }

  /** Carries out a handler's step against the profile and memory stores. */
  method Perform(step: Step, userId: string, profiles: ProfileStore, store: MemoryStore, ai: Ai.Model, now: int)
    returns (r: ActionResult)
    requires profiles.Valid() && store.Valid()
    modifies profiles, store
    ensures profiles.Valid() && store.Valid()
    ensures store.online == old(store.online) && store.conversations == old(store.conversations)
    ensures store.nextId >= old(store.nextId) && old(store.memories) <= store.memories
    ensures forall i :: |old(store.memories)| <= i < |store.memories| ==> store.memories[i].id >= old(store.nextId)
    ensures Performed(step, userId, ai, now, store.online, old(profiles.profiles), profiles.profiles,
                      old(store.memories), store.memories, r)
  {
    if step.setWeek.Some? {
      var _ := profiles.UpdateUserProfile(userId, WeekUpdate(step.setWeek.value), now);
    }
    r := WriteMemory(step.write, step.result, userId, store, ai, now);
  }

  /** `execute_action`: a type outside the catalogue yields the "Unknown action type"
      error and leaves everything as it was; otherwise the type's handler runs once and
      the action is marked completed, whatever the handler reports. */
  method ExecuteAction(action: Action, userId: string, context: Metadata, profiles: ProfileStore, store: MemoryStore,
                       ai: Ai.Model, now: int, today: int) returns (r: ActionResult)
    requires profiles.Valid() && store.Valid()
    modifies action, profiles, store
    ensures profiles.Valid() && store.Valid()
    ensures store.online == old(store.online) && store.conversations == old(store.conversations)
    ensures store.nextId >= old(store.nextId) && old(store.memories) <= store.memories
    ensures forall i :: |old(store.memories)| <= i < |store.memories| ==> store.memories[i].id >= old(store.nextId)
    ensures action.actionType !in Catalogue ==> (r == ActionResult(Error, "Unknown action type", map[])
      && action.completed == old(action.completed)
      && profiles.profiles == old(profiles.profiles) && store.memories == old(store.memories))
    ensures action.actionType in Catalogue ==> (action.completed
      && Performed(Handle(KindOf(action.actionType).value, userId, context, old(profiles.Find(userId)), ai, today),
                   userId, ai, now, store.online, old(profiles.profiles), profiles.profiles,
                   old(store.memories), store.memories, r))
    ensures Executes(action.actionType, userId, context, ai, now, today, store.online, old(profiles.profiles),
                     profiles.profiles, old(store.memories), store.memories, r)
  {
    var kind := KindOf(action.actionType);
    if kind.None? {
      return ActionResult(Error, "Unknown action type", map[]);
    }
    r := Perform(Handle(kind.value, userId, context, profiles.Find(userId), ai, today), userId, profiles, store, ai, now);
    action.completed := true;
  }
}

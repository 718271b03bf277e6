/** The MongoDB client: the cache of user ids created in this session, profile creation
    with the derived pregnancy fields, and the document and task queries. The
    collections are sequences of documents in insertion order. */
module MongoClient {
  import opened Wrappers
  import opened Seqs
  import DataProcessing
  import UserProfile

  /** A profile document. `lmpDate` and `dueDate` are dates (day numbers), as the profile
      model declares them; `dateOfBirth` is the caller's number, `createdAt` and
      `updatedAt` timestamps. Height and weight are not part of this model. */
  datatype ProfileDict = ProfileDict(
    userId: string,
    name: Option<string>,
    dateOfBirth: Option<int>,
    pregnancyWeek: Option<int>,
    lmpDate: Option<int>,
    dueDate: Option<int>,
    bloodType: Option<string>,
    medicalConditions: seq<string>,
    allergies: seq<string>,
    medications: seq<string>,
    emergencyContact: Option<string>,
    medicalDocuments: seq<UserProfile.MedicalDocument>,
    createdAt: int,
    updatedAt: int)

  /** A task document; `priority` is the priority's name, times are timestamps. */
  datatype TaskRecord = TaskRecord(
    taskId: string,
    userId: string,
    title: string,
    description: Option<string>,
    taskType: string,
    priority: string,
    dueDate: Option<int>,
    completed: bool,
    completedAt: Option<int>,
    pregnancyWeek: Option<int>,
    createdAt: int)

  /** How `create_user_profile` fails: the HTTP error it raises for a known id, or the
      `TypeError` that `parse_ddmmyyyy` raises on `len` of a date, which neither
      `calculate_pregnancy_week` nor `calculate_due_date` catches. */
  datatype CreateError = Raised(error: HttpError) | TypeErrorRaised

  /** The profile as `create_user_profile` stores it: a missing LMP fails the
      `not date_str` check, the `ValueError` is caught, and both derived fields are
      `None`; a given LMP is a date, whose length cannot be taken. Both times are `now`. */
  function Stored(profile: ProfileDict, now: int): (r: Result<ProfileDict, CreateError>)
    ensures r.Err? <==> profile.lmpDate.Some?
    ensures r.Err? ==> r.error == TypeErrorRaised
    ensures r.Ok? ==> r.value.pregnancyWeek.None? && r.value.dueDate.None?
    ensures r.Ok? ==> r.value.(pregnancyWeek := profile.pregnancyWeek, dueDate := profile.dueDate,
                                createdAt := profile.createdAt, updatedAt := profile.updatedAt) == profile
  {
    if profile.lmpDate.Some? then Err(TypeErrorRaised)
    else Ok(profile.(pregnancyWeek := None, dueDate := None, createdAt := now, updatedAt := now))
  }

  /** No profile is ever stored with a pregnancy week or a due date: either the LMP is
      missing and both are `None`, or it is given and the creation raises, even for an
      LMP whose DDMMYYYY text would give both. */
  lemma StoredNeverDerives(profile: ProfileDict, lmpText: string, today: int, now: int)
    requires profile.lmpDate.Some? && DataProcessing.ParseDdmmyyyy(lmpText).Some?
    requires profile.lmpDate.value == DataProcessing.DayNumber(DataProcessing.ParseDdmmyyyy(lmpText).value)
    ensures Stored(profile, now) == Err(TypeErrorRaised)
    ensures Stored(profile.(lmpDate := None), now).Ok?
    ensures Stored(profile.(lmpDate := None), now).value.pregnancyWeek.None?
    ensures Derived(profile, Some(lmpText), today, now).pregnancyWeek.Some?
    ensures Derived(profile, Some(lmpText), today, now).dueDate == profile.lmpDate.(value := profile.lmpDate.value + 280)
  {
  }

  /** `calculate_pregnancy_week` of an optional LMP text; a missing text is invalid. */
  function WeekOf(lmpDate: Option<string>, today: int): Option<int> {
    if lmpDate.Some? then DataProcessing.CalculatePregnancyWeek(lmpDate.value, today) else None
  }

  /** `calculate_due_date` of an optional LMP text. */
  function DueDateOf(lmpDate: Option<string>): Option<int> {
    if lmpDate.Some? then DataProcessing.CalculateDueDate(lmpDate.value) else None
  }

  /** The profile `create_user_profile` evidently means to store, where the LMP is the
      DDMMYYYY text `lmpText` its parser expects: the pregnancy week and due date are
      recomputed from it, whatever the caller gave, and both times are `now`. */
  function Derived(profile: ProfileDict, lmpText: Option<string>, today: int, now: int): ProfileDict {
    profile.(pregnancyWeek := WeekOf(lmpText, today), dueDate := DueDateOf(lmpText),
             createdAt := now, updatedAt := now)
  }

  /** The derived fields depend only on the LMP text: a valid one gives a week in 1..42
      and a due date 280 days after it, an invalid or missing one gives neither; every
      other field is the caller's. */
  lemma DerivedFields(profile: ProfileDict, lmpText: Option<string>, today: int, now: int)
    ensures var lmp := if lmpText.Some? then DataProcessing.ParseDdmmyyyy(lmpText.value) else None;
      && (Derived(profile, lmpText, today, now).pregnancyWeek.Some? <==> lmp.Some?)
      && (Derived(profile, lmpText, today, now).dueDate.Some? <==> lmp.Some?)
      && (lmp.Some? ==> 1 <= Derived(profile, lmpText, today, now).pregnancyWeek.value <= 42)
      && (lmp.Some? ==> Derived(profile, lmpText, today, now).dueDate.value == DataProcessing.DayNumber(lmp.value) + 280)
    ensures Derived(profile, lmpText, today, now).(pregnancyWeek := profile.pregnancyWeek, dueDate := profile.dueDate,
                                                   createdAt := profile.createdAt, updatedAt := profile.updatedAt) == profile
  {
  }

  /** Two profiles that differ only in the week and due date they claim are stored
      alike: the caller's values are always overridden. */
  lemma DerivedIgnoresGiven(profile: ProfileDict, lmpText: Option<string>, week: Option<int>, due: Option<int>,
                            today: int, now: int)
    ensures Derived(profile.(pregnancyWeek := week, dueDate := due), lmpText, today, now)
         == Derived(profile, lmpText, today, now)
  {
  }

  class MongoDBClient {
    var userIdsCache: set<string>
    var userProfiles: seq<ProfileDict>
    var tasks: seq<TaskRecord>

    /** Every cached id belongs to a stored profile. */
    ghost predicate Valid()
      reads this
    {
      forall u :: u in userIdsCache ==> exists i :: 0 <= i < |userProfiles| && userProfiles[i].userId == u
    }

    /** A client with an empty cache over the given collections. */
    constructor (userProfiles: seq<ProfileDict>, tasks: seq<TaskRecord>)
      ensures userIdsCache == {} && this.userProfiles == userProfiles && this.tasks == tasks && Valid()
    {
      userIdsCache := {};
      this.userProfiles := userProfiles;
      this.tasks := tasks;
    }

    /** `_is_user_id_valid`: the id was not created in this session. */
    predicate IsUserIdValid(userId: string)
      reads this
    {
      userId !in userIdsCache
    }

    /** `create_user_profile`: an id already created in this session is rejected and
        nothing changes; a given LMP raises before anything changes; otherwise the
        profile is stored without week or due date and its id cached. */
    method CreateUserProfile(profile: ProfileDict, now: int) returns (r: Result<ProfileDict, CreateError>)
      requires Valid()
      modifies this
      ensures Valid()
      ensures old(userIdsCache) <= userIdsCache && tasks == old(tasks)
      ensures profile.userId in old(userIdsCache) ==> r == Err(Raised(HttpError(400, "User ID already exists")))
      ensures profile.userId !in old(userIdsCache) ==> r == Stored(profile, now)
      ensures r.Err? ==> userIdsCache == old(userIdsCache) && userProfiles == old(userProfiles)
      ensures r.Ok? ==> userIdsCache == old(userIdsCache) + {profile.userId}
      ensures r.Ok? ==> userProfiles == old(userProfiles) + [r.value]
      ensures r.Ok? ==> !IsUserIdValid(profile.userId)
    {
      if !IsUserIdValid(profile.userId) {
        return Err(Raised(HttpError(400, "User ID already exists")));
      }
      if profile.lmpDate.Some? {
        return Err(TypeErrorRaised);
      }
      var stored := profile;
      stored := stored.(pregnancyWeek := None);
      stored := stored.(dueDate := None);
      stored := stored.(createdAt := now);
      stored := stored.(updatedAt := now);
      var before := userProfiles;
      userIdsCache := userIdsCache + {stored.userId};
      userProfiles := userProfiles + [stored];
      forall u | u in userIdsCache
        ensures exists i :: 0 <= i < |userProfiles| && userProfiles[i].userId == u
      {
        if u == profile.userId {
          assert userProfiles[|before|].userId == u;
        } else {
          var i :| 0 <= i < |before| && before[i].userId == u;
          assert userProfiles[i] == before[i];
        }
      }
      r := Ok(stored);
    }

    /** `get_user_profile`: the first stored profile with that id. */
    function GetUserProfile(userId: string): (r: Option<ProfileDict>)
      reads this
      ensures r.None? <==> forall i :: 0 <= i < |userProfiles| ==> userProfiles[i].userId != userId
      ensures r.Some? ==> r.value.userId == userId && r.value in userProfiles
    {
      FirstProfile(userProfiles, userId)
    }

    /** `get_user_documents`: the documents of the user's profile, `[]` when there is no
        such profile. */
    function GetUserDocuments(userId: string): (r: seq<UserProfile.MedicalDocument>)
      reads this
      ensures GetUserProfile(userId).None? ==> r == []
      ensures GetUserProfile(userId).Some? ==> r == GetUserProfile(userId).value.medicalDocuments
    {
      var user := GetUserProfile(userId);
      if user.Some? && user.value.medicalDocuments != [] then user.value.medicalDocuments else []
    }

    /** `get_user_tasks`: the user's tasks in stored order, only those whose completion
        flag is `completed` when it is given. */
    method GetUserTasks(userId: string, completed: Option<bool>) returns (found: seq<TaskRecord>)
      ensures found == Filter(tasks, t => MatchesQuery(t, userId, completed))
      ensures completed.None? ==> forall t :: t in found <==> t in tasks && t.userId == userId
      ensures completed.Some? ==> forall t :: t in found <==> t in tasks && t.userId == userId && t.completed == completed.value
    {
      found := [];
      var i := 0;
      while i < |tasks|
        invariant 0 <= i <= |tasks|
        invariant found == Filter(tasks[..i], t => MatchesQuery(t, userId, completed))
      {
        var t := tasks[i];
        if MatchesQuery(t, userId, completed) {
          found := found + [t];
        }
        FilterConcat(tasks[..i], [t], t => MatchesQuery(t, userId, completed));
        assert tasks[..i + 1] == tasks[..i] + [t];
        i := i + 1;
      }
      assert tasks[..i] == tasks;
      forall t
        ensures t in found <==> t in tasks && MatchesQuery(t, userId, completed)
      {
        FilterMembers(tasks, t => MatchesQuery(t, userId, completed), t);
      }
    }
  }

  /** The first profile with the id, in stored order. */
  function FirstProfile(profiles: seq<ProfileDict>, userId: string): (r: Option<ProfileDict>)
    ensures r.None? <==> forall i :: 0 <= i < |profiles| ==> profiles[i].userId != userId
    ensures r.Some? ==> r.value.userId == userId && r.value in profiles
  {
    if profiles == [] then None
    else if profiles[0].userId == userId then Some(profiles[0])
    else FirstProfile(profiles[1..], userId)
  }

  /** The filter `{"user_id": userId}`, with `"completed": completed` when it is given. */
  predicate MatchesQuery(t: TaskRecord, userId: string, completed: Option<bool>) {
    t.userId == userId && (completed.None? || t.completed == completed.value)
  }
}

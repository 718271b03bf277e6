/** User profiles and the medical documents attached to them, with the pregnancy
    information derived from a profile. */
module UserProfile {
  import opened Wrappers
  import opened Values
  import opened Seqs
  import DataProcessing

  /** A stored medical document; `uploadDate` is a timestamp in seconds. */
  datatype MedicalDocument = MedicalDocument(
    documentId: string,
    docType: string,
    uploadDate: int,
    documentDate: Option<string>,
    originalFilename: string,
    textLength: int,
    chunksCount: int,
    status: string,
    metadata: Metadata)

  /** A user profile. Dates are day numbers, `createdAt` and `updatedAt` timestamps;
      height and weight are not part of this model. */
  datatype Profile = Profile(
    userId: string,
    name: Option<string>,
    dateOfBirth: Option<int>,
    pregnancyWeek: Option<int>,
    lmpDate: Option<int>,
    dueDate: Option<int>,
    bloodType: Option<string>,
    medicalConditions: seq<string>,
    allergies: seq<string>,
    medications: seq<string>,
    emergencyContact: Option<string>,
    medicalDocuments: seq<MedicalDocument>,
    createdAt: int,
    updatedAt: int)

  /** The fields an update may `$set`; `None` leaves a field as it is. */
  datatype ProfileUpdate = ProfileUpdate(
    name: Option<string>,
    dateOfBirth: Option<int>,
    pregnancyWeek: Option<int>,
    bloodType: Option<string>,
    medicalConditions: Option<seq<string>>,
    allergies: Option<seq<string>>,
    medications: Option<seq<string>>,
    emergencyContact: Option<string>)

  /** `profile.pregnancy_week` is truthy. */
  predicate WeekGiven(p: Profile) {
    p.pregnancyWeek.Some? && p.pregnancyWeek.value != 0
  }

  /** The Hebrew trimester label used by the profile, the chat replies and the timeline:
      "first" up to week 13, "second" up to week 26, "third" after. */
  function Trimester(week: int): (t: string)
    ensures t == "ראשון" <==> week <= 13
    ensures t == "שני" <==> 13 < week <= 26
    ensures t == "שלישי" <==> 26 < week
  {
    if week <= 13 then "ראשון" else if week <= 26 then "שני" else "שלישי"
  }

  /** `calculate_pregnancy_week`: whole weeks (floor division) from the LMP day to
      `today`, clamped to 1..42. */
  function WeekSince(lmp: int, today: int): (w: int)
    ensures 1 <= w <= 42
    ensures today < lmp ==> w == 1
    ensures 7 <= today - lmp < 43 * 7 ==> w == (today - lmp) / 7
  {
    DataProcessing.ClampWeek((today - lmp) / 7)
  }

  /** The week never goes back as days pass. */
  lemma WeekSinceMonotone(lmp: int, today: int, later: int)
    requires today <= later
    ensures WeekSince(lmp, today) <= WeekSince(lmp, later)
  {
    assert (today - lmp) / 7 <= (later - lmp) / 7;
  }

  // ---------------------------------------------------------------------------
  // Documents of a profile

  /** `doc_type` is truthy. */
  predicate TypeGiven(docType: Option<string>) {
    docType.Some? && docType.value != ""
  }

  /** The number of documents of type `t`. */
  function CountType(docs: seq<MedicalDocument>, t: string): nat {
    if docs == [] then 0
    else CountType(docs[..|docs| - 1], t) + (if docs[|docs| - 1].docType == t then 1 else 0)
  }

  /** The documents of type `t`, in stored order. */
  function OfType(docs: seq<MedicalDocument>, t: string): (r: seq<MedicalDocument>)
    ensures forall i :: 0 <= i < |r| ==> r[i].docType == t && r[i] in docs
    ensures forall i :: 0 <= i < |docs| && docs[i].docType == t ==> docs[i] in r
    ensures |r| == CountType(docs, t)
  {
    if docs == [] then []
    else
      var last := docs[|docs| - 1];
      OfType(docs[..|docs| - 1], t) + (if last.docType == t then [last] else [])
  }

  /** The condition `doc.doc_type == t` of the type filter. */
  function IsOfType(t: string): MedicalDocument -> bool {
    (d: MedicalDocument) => d.docType == t
  }

  /** The documents of a type are the filter of the stored list: each once, in stored order. */
  lemma {:induction false} OfTypeFilter(docs: seq<MedicalDocument>, t: string)
    ensures OfType(docs, t) == Filter(docs, IsOfType(t))
  {
    if docs != [] {
      var n := |docs| - 1;
      OfTypeFilter(docs[..n], t);
      assert docs == docs[..n] + [docs[n]];
      FilterConcat(docs[..n], [docs[n]], IsOfType(t));
      assert Filter([docs[n]], IsOfType(t)) == if docs[n].docType == t then [docs[n]] else [];
    }
  }

  /** The documents left after `$pull` by document id. */
  function WithoutDocument(docs: seq<MedicalDocument>, documentId: string): (r: seq<MedicalDocument>)
    ensures |r| <= |docs|
    ensures forall i :: 0 <= i < |r| ==> r[i].documentId != documentId
    ensures forall i :: 0 <= i < |docs| && docs[i].documentId != documentId ==> docs[i] in r
    ensures |r| == |docs| <==> forall i :: 0 <= i < |docs| ==> docs[i].documentId != documentId
  {
    if docs == [] then []
    else
      var rest := WithoutDocument(docs[1..], documentId);
      if docs[0].documentId != documentId then [docs[0]] + rest else rest
  }

  /** Removing a document just added, whose id was new, gives back the documents from before. */
  lemma {:induction false} RemoveAfterAdd(docs: seq<MedicalDocument>, doc: MedicalDocument)
    requires forall i :: 0 <= i < |docs| ==> docs[i].documentId != doc.documentId
    ensures WithoutDocument(docs + [doc], doc.documentId) == docs
  {
    if docs == [] {
      assert docs + [doc] == [doc];
    } else {
      assert (docs + [doc])[1..] == docs[1..] + [doc];
      RemoveAfterAdd(docs[1..], doc);
    }
  }

  // ---------------------------------------------------------------------------
  // Document summary

  /** Per-type counts in the order the types were first seen (a Python dict). */
  type Tally = seq<(string, nat)>

  /** Adds one document of type `t` to a tally. */
  function Bump(tally: Tally, t: string): Tally {
    if tally == [] then [(t, 1)]
    else if tally[0].0 == t then [(t, tally[0].1 + 1)] + tally[1..]
    else [tally[0]] + Bump(tally[1..], t)
  }

  /** The counts the summary loop builds for `docs`. */
  function TallyOf(docs: seq<MedicalDocument>): Tally {
    if docs == [] then [] else Bump(TallyOf(docs[..|docs| - 1]), docs[|docs| - 1].docType)
  }

  /** The count of `t` in a tally, 0 when absent. */
  function Lookup(tally: Tally, t: string): nat {
    if tally == [] then 0 else if tally[0].0 == t then tally[0].1 else Lookup(tally[1..], t)
  }

  function SumCounts(tally: Tally): nat {
    if tally == [] then 0 else tally[0].1 + SumCounts(tally[1..])
  }

  predicate DistinctKeys(tally: Tally) {
    forall i, j :: 0 <= i < j < |tally| ==> tally[i].0 != tally[j].0
  }

  /** `Bump` is what the loop does: increment the entry for `t`, or append one. */
  lemma {:induction false} BumpAt(tally: Tally, t: string, j: nat)
    requires j <= |tally|
    requires forall k :: 0 <= k < j ==> tally[k].0 != t
    requires j < |tally| ==> tally[j].0 == t
    ensures j == |tally| ==> Bump(tally, t) == tally + [(t, 1)]
    ensures j < |tally| ==> Bump(tally, t) == tally[j := (t, tally[j].1 + 1)]
  {
    if tally != [] && j > 0 {
      BumpAt(tally[1..], t, j - 1);
      if j == |tally| {
        assert [tally[0]] + (tally[1..] + [(t, 1)]) == tally + [(t, 1)];
      } else {
        assert [tally[0]] + tally[1..][j - 1 := (t, tally[j].1 + 1)] == tally[j := (t, tally[j].1 + 1)];
      }
    }
  }

  lemma {:induction false} BumpLookup(tally: Tally, t: string, k: string)
    ensures Lookup(Bump(tally, t), k) == Lookup(tally, k) + (if k == t then 1 else 0)
  {
    if tally != [] && tally[0].0 != t {
      BumpLookup(tally[1..], t, k);
    }
  }

  lemma {:induction false} BumpSum(tally: Tally, t: string)
    ensures SumCounts(Bump(tally, t)) == SumCounts(tally) + 1
  {
    if tally != [] && tally[0].0 != t {
      BumpSum(tally[1..], t);
    }
  }

  lemma {:induction false} BumpDistinct(tally: Tally, t: string)
    requires DistinctKeys(tally)
    requires forall i :: 0 <= i < |tally| ==> tally[i].1 > 0
    ensures DistinctKeys(Bump(tally, t))
    ensures forall i :: 0 <= i < |Bump(tally, t)| ==> Bump(tally, t)[i].1 > 0
    ensures forall i :: 0 <= i < |Bump(tally, t)| ==> Bump(tally, t)[i].0 == t || exists j :: 0 <= j < |tally| && tally[j].0 == Bump(tally, t)[i].0
  {
    if tally != [] && tally[0].0 != t {
      BumpDistinct(tally[1..], t);
      var rest := Bump(tally[1..], t);
      assert Bump(tally, t) == [tally[0]] + rest;
      forall i | 0 <= i < |rest| ensures tally[0].0 != rest[i].0 {
        if rest[i].0 != t {
          var j :| 0 <= j < |tally[1..]| && tally[1..][j].0 == rest[i].0;
          assert tally[j + 1].0 == rest[i].0;
        }
      }
    }
  }

  /** Each type's entry holds the number of documents of that type. */
  lemma {:induction false} TallyCounts(docs: seq<MedicalDocument>, t: string)
    ensures Lookup(TallyOf(docs), t) == CountType(docs, t)
  {
    if docs != [] {
      TallyCounts(docs[..|docs| - 1], t);
      BumpLookup(TallyOf(docs[..|docs| - 1]), docs[|docs| - 1].docType, t);
    }
  }

  /** The per-type counts add up to the number of documents. */
  lemma {:induction false} TallyTotal(docs: seq<MedicalDocument>)
    ensures SumCounts(TallyOf(docs)) == |docs|
  {
    if docs != [] {
      TallyTotal(docs[..|docs| - 1]);
      BumpSum(TallyOf(docs[..|docs| - 1]), docs[|docs| - 1].docType);
    }
  }

  /** Every type appears once in the summary, with a positive count. */
  lemma {:induction false} TallyDistinct(docs: seq<MedicalDocument>)
    ensures DistinctKeys(TallyOf(docs))
    ensures forall i :: 0 <= i < |TallyOf(docs)| ==> TallyOf(docs)[i].1 > 0
  {
    if docs != [] {
      TallyDistinct(docs[..|docs| - 1]);
      BumpDistinct(TallyOf(docs[..|docs| - 1]), docs[|docs| - 1].docType);
    }
  }

  /** The index Python's `max(documents, key=upload_date)` picks: a latest document,
      the first one among equally late documents. */
  function LatestIndex(docs: seq<MedicalDocument>): (k: nat)
    requires docs != []
    ensures k < |docs|
    ensures forall j :: 0 <= j < |docs| ==> docs[j].uploadDate <= docs[k].uploadDate
    ensures forall j :: 0 <= j < k ==> docs[j].uploadDate < docs[k].uploadDate
  {
    if |docs| == 1 then 0
    else
      var k := LatestIndex(docs[..|docs| - 1]);
      if docs[|docs| - 1].uploadDate > docs[k].uploadDate then |docs| - 1 else k
  }

  /** The metadata of a document flags abnormal values. */
  predicate Abnormal(doc: MedicalDocument) {
    TruthyAt(doc.metadata, "has_abnormal_values") || TruthyAt(doc.metadata, "has_abnormalities")
  }

  datatype LatestDocument = LatestDocument(docType: string, uploadDate: int, filename: string)

  datatype DocumentSummary = DocumentSummary(
    totalDocuments: nat,
    documentsByType: Tally,
    latestDocument: Option<LatestDocument>,
    hasAbnormalResults: bool)

  function LatestOf(doc: MedicalDocument): LatestDocument {
    LatestDocument(doc.docType, doc.uploadDate, doc.originalFilename)
  }

  /** What `get_document_summary` reports about `docs`. */
  predicate IsSummaryOf(s: DocumentSummary, docs: seq<MedicalDocument>) {
    && s.totalDocuments == |docs|
    && s.documentsByType == TallyOf(docs)
    && (docs == [] ==> s.latestDocument == None)
    && (docs != [] ==> s.latestDocument == Some(LatestOf(docs[LatestIndex(docs)])))
    && (s.hasAbnormalResults <==> exists i :: 0 <= i < |docs| && Abnormal(docs[i]))
  }

  /** The counting loop `counts[t] = counts.get(t, 0) + 1` over the documents, with the
      dictionary as a list of entries in insertion order. */
  method CountByType(docs: seq<MedicalDocument>) returns (byType: Tally)
    ensures byType == TallyOf(docs)
  {
    byType := [];
    var i := 0;
    while i < |docs|
      invariant 0 <= i <= |docs|
      invariant byType == TallyOf(docs[..i])
    {
      var t := docs[i].docType;
      var j := 0;
      while j < |byType| && byType[j].0 != t
        invariant 0 <= j <= |byType|
        invariant forall k :: 0 <= k < j ==> byType[k].0 != t
      {
        j := j + 1;
      }
      BumpAt(byType, t, j);
      if j == |byType| {
        byType := byType + [(t, 0)];
      }
      byType := byType[j := (t, byType[j].1 + 1)];
      assert docs[..i + 1][..i] == docs[..i];
      i := i + 1;
    }
    assert docs[..|docs|] == docs;
  }

  /** The loops of `get_document_summary`: counts per type, the latest document, and
      whether some document is flagged abnormal (the scan stops at the first one). */
  method SummarizeDocuments(docs: seq<MedicalDocument>) returns (s: DocumentSummary)
    ensures IsSummaryOf(s, docs)
  {
    var byType := CountByType(docs);
    var latest: Option<LatestDocument> := None;
    if docs != [] {
      latest := Some(LatestOf(docs[LatestIndex(docs)]));
    }
    var abnormal := false;
    var i := 0;
    while i < |docs|
      invariant 0 <= i <= |docs|
      invariant forall k :: 0 <= k < i ==> !Abnormal(docs[k])
    {
      if TruthyAt(docs[i].metadata, "has_abnormal_values") || TruthyAt(docs[i].metadata, "has_abnormalities") {
        abnormal := true;
        break;
      }
      i := i + 1;
    }
    s := DocumentSummary(|docs|, byType, latest, abnormal);
  }

  // ---------------------------------------------------------------------------
  // Pregnancy information

  datatype PregnancyInfo = PregnancyInfo(currentWeek: Option<int>, daysUntilDue: Option<int>, trimester: Option<string>)

  /** `get_pregnancy_info` for an existing profile, `today` being a day number. */
  function PregnancyInfoOf(p: Profile, today: int): (info: PregnancyInfo)
    ensures info.currentWeek == p.pregnancyWeek
    ensures info.daysUntilDue.Some? <==> p.dueDate.Some?
    ensures p.dueDate.Some? ==> today + info.daysUntilDue.value == p.dueDate.value
    ensures info.trimester.Some? <==> WeekGiven(p)
    ensures WeekGiven(p) ==> info.trimester.value == Trimester(p.pregnancyWeek.value)
  {
    PregnancyInfo(
      p.pregnancyWeek,
      if p.dueDate.Some? then Some(p.dueDate.value - today) else None,
      if WeekGiven(p) then Some(Trimester(p.pregnancyWeek.value)) else None)
  }

  /** `$set` of the given fields, with `updated_at` set to `now`. */
  function Apply(p: Profile, u: ProfileUpdate, now: int): Profile {
    p.(name := if u.name.Some? then u.name else p.name,
       dateOfBirth := if u.dateOfBirth.Some? then u.dateOfBirth else p.dateOfBirth,
       pregnancyWeek := if u.pregnancyWeek.Some? then u.pregnancyWeek else p.pregnancyWeek,
       bloodType := if u.bloodType.Some? then u.bloodType else p.bloodType,
       medicalConditions := u.medicalConditions.GetOr(p.medicalConditions),
       allergies := u.allergies.GetOr(p.allergies),
       medications := u.medications.GetOr(p.medications),
       emergencyContact := if u.emergencyContact.Some? then u.emergencyContact else p.emergencyContact,
       updatedAt := now)
  }

  /** An update touches only the fields it sets and the update time. */
  lemma ApplyKeeps(p: Profile, u: ProfileUpdate, now: int)
    ensures Apply(p, u, now).userId == p.userId
    ensures Apply(p, u, now).medicalDocuments == p.medicalDocuments
    ensures Apply(p, u, now).lmpDate == p.lmpDate && Apply(p, u, now).dueDate == p.dueDate
    ensures Apply(p, u, now).createdAt == p.createdAt && Apply(p, u, now).updatedAt == now
    ensures u.pregnancyWeek.Some? ==> Apply(p, u, now).pregnancyWeek == u.pregnancyWeek
    ensures u.pregnancyWeek.None? ==> Apply(p, u, now).pregnancyWeek == p.pregnancyWeek
  {
  }

  /** An update that sets only the pregnancy week. */
  function WeekUpdate(week: int): ProfileUpdate {
    ProfileUpdate(None, None, Some(week), None, None, None, None, None)
  }

  /** The profile collection, keyed by user id. */
  class ProfileStore {
    var profiles: map<string, Profile>

    /** Every profile is stored under its own user id. */
    ghost predicate Valid()
      reads this
    {
      forall u :: u in profiles ==> profiles[u].userId == u
    }

    constructor ()
      ensures profiles == map[] && Valid()
    {
      profiles := map[];
    }

    /** `get_user_profile`. */
    function Find(userId: string): Option<Profile>
      reads this
    {
      if userId in profiles then Some(profiles[userId]) else None
    }

    /** `update_user_profile`: the updated profile when the stored document changed,
        otherwise `None`. */
    method UpdateUserProfile(userId: string, u: ProfileUpdate, now: int) returns (r: Option<Profile>)
      requires Valid()
      modifies this
      ensures Valid()
      ensures userId !in old(profiles) ==> r == None && profiles == old(profiles)
      ensures userId in old(profiles) ==> profiles == old(profiles)[userId := Apply(old(profiles)[userId], u, now)]
      ensures r.Some? <==> userId in old(profiles) && Apply(old(profiles)[userId], u, now) != old(profiles)[userId]
      ensures r.Some? ==> r.value == profiles[userId]
    {
      r := None;
      if userId in profiles {
        var before := profiles[userId];
        var after := Apply(before, u, now);
        profiles := profiles[userId := after];
        if after != before {
          r := Some(after);
        }
      }
    }

    /** `add_medical_document`: `$push` to the end of the profile's list; true exactly
        when the profile exists. */
    method AddMedicalDocument(userId: string, doc: MedicalDocument) returns (added: bool)
      requires Valid()
      modifies this
      ensures Valid()
      ensures added <==> userId in old(profiles)
      ensures added ==> profiles == old(profiles)[userId := old(profiles)[userId].(
        medicalDocuments := old(profiles)[userId].medicalDocuments + [doc])]
      ensures !added ==> profiles == old(profiles)
    {
      added := false;
      if userId in profiles {
        var p := profiles[userId];
        profiles := profiles[userId := p.(medicalDocuments := p.medicalDocuments + [doc])];
        added := true;
      }
    }

    /** `remove_medical_document`: `$pull` every document with that id; true exactly
        when something was removed. */
    method RemoveMedicalDocument(userId: string, documentId: string) returns (removed: bool)
      requires Valid()
      modifies this
      ensures Valid()
      ensures removed <==> (userId in old(profiles) &&
        exists i :: 0 <= i < |old(profiles)[userId].medicalDocuments| &&
          old(profiles)[userId].medicalDocuments[i].documentId == documentId)
      ensures userId in old(profiles) ==> profiles == old(profiles)[userId := old(profiles)[userId].(
        medicalDocuments := WithoutDocument(old(profiles)[userId].medicalDocuments, documentId))]
      ensures userId !in old(profiles) ==> profiles == old(profiles)
    {
      removed := false;
      if userId in profiles {
        var p := profiles[userId];
        var kept := WithoutDocument(p.medicalDocuments, documentId);
        profiles := profiles[userId := p.(medicalDocuments := kept)];
        removed := |kept| != |p.medicalDocuments|;
      }
    }

    /** `get_user_medical_documents`: `[]` without a profile, else the stored documents,
        only those of `docType` when one is given. */
    function GetUserMedicalDocuments(userId: string, docType: Option<string>): (r: seq<MedicalDocument>)
      reads this
      ensures userId !in profiles ==> r == []
      ensures userId in profiles && !TypeGiven(docType) ==> r == profiles[userId].medicalDocuments
      ensures userId in profiles && TypeGiven(docType) ==>
        r == Filter(profiles[userId].medicalDocuments, IsOfType(docType.value))
        && |r| == CountType(profiles[userId].medicalDocuments, docType.value)
    {
      if userId !in profiles then []
      else if TypeGiven(docType) then
        OfTypeFilter(profiles[userId].medicalDocuments, docType.value);
        OfType(profiles[userId].medicalDocuments, docType.value)
      else profiles[userId].medicalDocuments
    }

    /** `get_document_summary`: the summary of all the user's documents. */
    method GetDocumentSummary(userId: string) returns (s: DocumentSummary)
      ensures IsSummaryOf(s, GetUserMedicalDocuments(userId, None))
    {
      s := SummarizeDocuments(GetUserMedicalDocuments(userId, None));
    }

    /** `get_pregnancy_info`: `None` without a profile. */
    function GetPregnancyInfo(userId: string, today: int): (r: Option<PregnancyInfo>)
      reads this
      ensures r.None? <==> userId !in profiles
      ensures r.Some? ==> r.value == PregnancyInfoOf(profiles[userId], today)
    {
      if userId in profiles then Some(PregnancyInfoOf(profiles[userId], today)) else None
    }
  }
}

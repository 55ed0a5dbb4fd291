/**
 * The symptom service (src/services/symptomService.ts): daily symptom log entries with a date,
 * a mood and a description of symptoms, each owned by one user.
 */
module SymptomService {
  import opened Outcomes
  import opened Js
  import opened Errors
  import opened Store

  // The messages the service throws.
  const InvalidSymptomId := "ID gejala tidak valid."
  const SymptomNotFound := "Gejala tidak ditemukan."
  const DateRequired := "Tanggal wajib diisi dan harus format tanggal valid (ISO)."
  const MoodRequired := "Suasana hati wajib diisi dan harus berupa string yang tidak kosong."
  const SymptomsRequired := "Gejala wajib diisi dan harus berupa string yang tidak kosong."
  const DateInvalid := "Tanggal harus format tanggal valid (ISO) jika disediakan."
  const MoodBlank := "Suasana hati harus berupa string yang tidak kosong jika disediakan."
  const SymptomsBlank := "Gejala harus berupa string yang tidak kosong jika disediakan."

  /** A stored symptom entry; `date` is milliseconds since the epoch. */
  datatype Symptom = Symptom(userId: int, date: int, mood: string, symptoms: string)

  /** The body of an update request. */
  datatype SymptomPatch = SymptomPatch(date: Value, mood: Value, symptoms: Value)

  /** A text as the service stores it: not empty and trimmed. */
  predicate IsStoredText(s: string) {
    s != "" && IsTrimmed(s)
  }

  /** The table invariant the symptom operations keep: every mood and symptoms text is stored trimmed. */
  ghost predicate TrimmedSymptoms(rows: map<int, Symptom>) {
    forall id :: id in rows ==> IsStoredText(rows[id].mood) && IsStoredText(rows[id].symptoms)
  }

  /** Writing an entry whose texts are stored texts keeps `TrimmedSymptoms`. */
  lemma WriteKeepsTrimmed(rows: map<int, Symptom>, id: int, s: Symptom)
    requires TrimmedSymptoms(rows)
    requires IsStoredText(s.mood) && IsStoredText(s.symptoms)
    ensures TrimmedSymptoms(rows[id := s])
  {
  }

  /** `orderBy: { date: 'desc' }`: the latest date first. */
  function LatestDateFirst(row: Row<Symptom>): int {
    -row.val.date
  }

  /** `where: { userId }`. */
  function OwnedBy(userId: int): Row<Symptom> -> bool {
    (row: Row<Symptom>) => row.val.userId == userId
  }

  /** `getSymptoms(userId)`: exactly the user's entries, latest first. */
  method GetSymptoms(symptoms: Table<Symptom>, userId: int) returns (s: seq<Row<Symptom>>)
    requires symptoms.Valid()
    ensures IsSelection(symptoms.rows, OwnedBy(userId), LatestDateFirst, s)
  {
    s := symptoms.Select(OwnedBy(userId), LatestDateFirst);
  }

  /** What `getSymptoms` returns: the user's entries and no one else's, all of them, latest date first. */
  lemma UserSymptomsAreOwnLatestFirst(rows: map<int, Symptom>, userId: int, s: seq<Row<Symptom>>)
    requires IsSelection(rows, OwnedBy(userId), LatestDateFirst, s)
    ensures forall i :: 0 <= i < |s| ==> s[i].val.userId == userId && s[i].id in rows
    ensures forall id :: id in rows && rows[id].userId == userId ==>
      exists i :: 0 <= i < |s| && s[i] == Row(id, rows[id])
    ensures forall i, j :: 0 <= i < j < |s| ==> s[i].val.date >= s[j].val.date
  {
    forall id | id in rows && rows[id].userId == userId
      ensures exists i :: 0 <= i < |s| && s[i] == Row(id, rows[id])
    {
      assert OwnedBy(userId)(Row(id, rows[id]));
      var i :| 0 <= i < |s| && s[i].id == id;
      assert s[i] == Row(id, rows[id]);
    }
    forall i, j | 0 <= i < j < |s| ensures s[i].val.date >= s[j].val.date {
      assert LatestDateFirst(s[i]) <= LatestDateFirst(s[j]);
    }
  }

  /** `getSymptomById(id)`. */
  method GetSymptomById(symptoms: Table<Symptom>, id: Numeric) returns (r: Result<Row<Symptom>, Failure>)
    ensures id.NaN? ==> FailsWith(r, 400)
    ensures id.NonInteger? ==> r == Err(Unclassified)
    ensures id.Integer? && id.i !in symptoms.rows ==> FailsWith(r, 404)
    ensures r.Ok? <==> id.Integer? && id.i in symptoms.rows
    ensures r.Ok? ==> r.value == Row(id.i, symptoms.rows[id.i])
  {
    if IsNaN(id) {
      return Raise(InvalidSymptomId, 400);
    }
    if id.NonInteger? {
      return Err(Unclassified);
    }
    var found := symptoms.Find(id.i);
    if found.None? {
      return Raise(SymptomNotFound, 404);
    }
    r := Ok(found.value);
  }

  /** The body checks of `createSymptom` pass. */
  predicate CreateSymptomFieldsValid(parse: DateParser, date: Value, mood: Value, text: Value) {
    IsValidDateString(parse, date) && IsNonBlankText(mood) && IsNonBlankText(text)
  }

  /** The entry `createSymptom` stores for fields that passed the checks: texts trimmed. */
  function NewSymptom(parse: DateParser, userId: int, date: Value, mood: Value, text: Value): (s: Symptom)
    requires CreateSymptomFieldsValid(parse, date, mood, text)
    ensures IsStoredText(s.mood) && IsStoredText(s.symptoms)
    ensures s.userId == userId && s.date == DateOf(parse, date)
    ensures s.mood == Trim(mood.s) && s.symptoms == Trim(text.s)
  {
    Symptom(userId, DateOf(parse, date), Trim(mood.s), Trim(text.s))
  }

  /** `createSymptom(userId, date, mood, symptoms)`: stores mood and symptoms trimmed. */
  method CreateSymptom(symptoms: Table<Symptom>, parse: DateParser, userId: int, date: Value, mood: Value,
                       text: Value)
    returns (r: Result<Row<Symptom>, Failure>)
    requires symptoms.Valid() && TrimmedSymptoms(symptoms.rows)
    modifies symptoms
    ensures symptoms.Valid() && TrimmedSymptoms(symptoms.rows)
    ensures !IsValidDateString(parse, date) ==> FailsWith(r, 400)
    ensures IsValidDateString(parse, date) && !IsNonBlankText(mood) ==> FailsWith(r, 400)
    ensures (IsValidDateString(parse, date) && IsNonBlankText(mood) && !IsNonBlankText(text))
            ==> FailsWith(r, 400)
    ensures r.Ok? <==> CreateSymptomFieldsValid(parse, date, mood, text)
    ensures r.Ok? ==> && r.value.id !in old(symptoms.rows)
                      && r.value.val == NewSymptom(parse, userId, date, mood, text)
                      && symptoms.rows == old(symptoms.rows)[r.value.id := r.value.val]
    ensures r.Err? ==> symptoms.rows == old(symptoms.rows)
  {
    // A valid date string and a non-blank text are never falsy, so the `!value ||` halves of the
    // source's guards are subsumed.
    if !IsValidDateString(parse, date) {
      return Raise(DateRequired, 400);
    }
    if !IsNonBlankText(mood) {
      return Raise(MoodRequired, 400);
    }
    if !IsNonBlankText(text) {
      return Raise(SymptomsRequired, 400);
    }
    var entry := NewSymptom(parse, userId, date, mood, text);
    WriteKeepsTrimmed(symptoms.rows, symptoms.nextId, entry);
    var row := symptoms.Insert(entry);
    r := Ok(row);
  }

  /** The body checks of `updateSymptom` pass. */
  predicate SymptomPatchValid(parse: DateParser, data: SymptomPatch) {
    && (data.date == Undefined || IsValidDateString(parse, data.date))
    && (data.mood == Undefined || IsNonBlankText(data.mood))
    && (data.symptoms == Undefined || IsNonBlankText(data.symptoms))
  }

  /** `s` with the supplied fields of `data` written, texts trimmed. */
  function ApplySymptomPatch(parse: DateParser, s: Symptom, data: SymptomPatch): Symptom
    requires SymptomPatchValid(parse, data)
  {
    Symptom(
      s.userId,
      if data.date == Undefined then s.date else DateOf(parse, data.date),
      if data.mood == Undefined then s.mood else Trim(data.mood.s),
      if data.symptoms == Undefined then s.symptoms else Trim(data.symptoms.s))
  }

  /** `updateSymptom(id, date, mood, symptoms)`: looks the entry up before checking any field. */
  method UpdateSymptom(symptoms: Table<Symptom>, parse: DateParser, id: Numeric, data: SymptomPatch)
    returns (r: Result<Row<Symptom>, Failure>)
    requires symptoms.Valid() && TrimmedSymptoms(symptoms.rows)
    modifies symptoms
    ensures symptoms.Valid() && TrimmedSymptoms(symptoms.rows)
    ensures id.NaN? ==> FailsWith(r, 400)
    ensures id.NonInteger? ==> r == Err(Unclassified)
    ensures id.Integer? && id.i !in old(symptoms.rows) ==> FailsWith(r, 404)
    ensures id.Integer? && id.i in old(symptoms.rows) && !SymptomPatchValid(parse, data) ==> FailsWith(r, 400)
    ensures r.Ok? <==> id.Integer? && id.i in old(symptoms.rows) && SymptomPatchValid(parse, data)
    ensures r.Ok? ==> && r.value == Row(id.i, ApplySymptomPatch(parse, old(symptoms.rows)[id.i], data))
                      && symptoms.rows == old(symptoms.rows)[id.i := r.value.val]
    ensures r.Err? ==> symptoms.rows == old(symptoms.rows)
  {
    if IsNaN(id) {
      return Raise(InvalidSymptomId, 400);
    }
    if id.NonInteger? {
      return Err(Unclassified);
    }
    var found := symptoms.Find(id.i);
    if found.None? {
      return Raise(SymptomNotFound, 404);
    }
    if data.date != Undefined && !IsValidDateString(parse, data.date) {
      return Raise(DateInvalid, 400);
    }
    if data.mood != Undefined && !IsNonBlankText(data.mood) {
      return Raise(MoodBlank, 400);
    }
    if data.symptoms != Undefined && !IsNonBlankText(data.symptoms) {
      return Raise(SymptomsBlank, 400);
    }
    var s := ApplySymptomPatch(parse, found.value.val, data);
    PatchKeepsStoredText(parse, found.value.val, data);
    WriteKeepsTrimmed(symptoms.rows, id.i, s);
    var row := symptoms.Update(id.i, s);
    r := Ok(row);
  }

  /** A patch that passes the checks turns an entry with stored texts into another one. */
  lemma PatchKeepsStoredText(parse: DateParser, s: Symptom, data: SymptomPatch)
    requires SymptomPatchValid(parse, data)
    requires IsStoredText(s.mood) && IsStoredText(s.symptoms)
    ensures IsStoredText(ApplySymptomPatch(parse, s, data).mood)
    ensures IsStoredText(ApplySymptomPatch(parse, s, data).symptoms)
  {
    if data.mood != Undefined {
      NonBlankTrimsToStored(data.mood);
    }
    if data.symptoms != Undefined {
      NonBlankTrimsToStored(data.symptoms);
    }
  }

  /** A non-blank string trims to a text the symptom table can hold. */
  lemma NonBlankTrimsToStored(v: Value)
    requires IsNonBlankText(v)
    ensures IsStoredText(Trim(v.s))
  {
  }

  /** Re-sending an update that succeeded changes nothing more: stored texts are already trimmed. */
  lemma ApplySymptomPatchIdempotent(parse: DateParser, s: Symptom, data: SymptomPatch)
    requires SymptomPatchValid(parse, data)
    ensures ApplySymptomPatch(parse, ApplySymptomPatch(parse, s, data), data) == ApplySymptomPatch(parse, s, data)
    ensures ApplySymptomPatch(parse, s, data).userId == s.userId
    ensures data.date == Undefined ==> ApplySymptomPatch(parse, s, data).date == s.date
    ensures data.mood == Undefined ==> ApplySymptomPatch(parse, s, data).mood == s.mood
    ensures data.symptoms == Undefined ==> ApplySymptomPatch(parse, s, data).symptoms == s.symptoms
    ensures data.date != Undefined ==> ApplySymptomPatch(parse, s, data).date == DateOf(parse, data.date)
    ensures data.mood != Undefined ==> ApplySymptomPatch(parse, s, data).mood == Trim(data.mood.s)
    ensures data.symptoms != Undefined ==> ApplySymptomPatch(parse, s, data).symptoms == Trim(data.symptoms.s)
  {
  }

  /** `deleteSymptom(id)`: removes that one entry and returns it. */
  method DeleteSymptom(symptoms: Table<Symptom>, id: Numeric) returns (r: Result<Row<Symptom>, Failure>)
    requires symptoms.Valid() && TrimmedSymptoms(symptoms.rows)
    modifies symptoms
    ensures symptoms.Valid() && TrimmedSymptoms(symptoms.rows)
    ensures id.NaN? ==> FailsWith(r, 400)
    ensures id.NonInteger? ==> r == Err(Unclassified)
    ensures id.Integer? && id.i !in old(symptoms.rows) ==> FailsWith(r, 404)
    ensures r.Ok? <==> id.Integer? && id.i in old(symptoms.rows)
    ensures r.Ok? ==> r.value == Row(id.i, old(symptoms.rows)[id.i])
                      && symptoms.rows == old(symptoms.rows) - {id.i}
    ensures r.Err? ==> symptoms.rows == old(symptoms.rows)
  {
    if IsNaN(id) {
      return Raise(InvalidSymptomId, 400);
    }
    if id.NonInteger? {
      return Err(Unclassified);
    }
    var found := symptoms.Find(id.i);
    if found.None? {
      return Raise(SymptomNotFound, 404);
    }
    var row := symptoms.Delete(id.i);
    r := Ok(row);
  }
}

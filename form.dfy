/** The company form: its inputs, the two editor lists that stand in for the
    chips and rows on the page, the errors box, and the handlers that load,
    edit and submit it. */
module Form {
  import opened Seqs
  import opened Text
  import opened Entities
  import opened Skills
  import opened Repository
  import opened Validation

  /** `collectFormData`: the record a submit would save. The validated
      inputs, the address and the lists are taken trimmed or as they are;
      the designation and the join date are stored untrimmed. */
  function Collect(v: Fields, skills: seq<Skill>, education: seq<Education>, id: string, now: string): (r: Record)
    ensures r.id == id && r.createdAt == now
    ensures r.skills == skills && r.education == education
    ensures var t := TrimFields(v);
      r.companyName == t.companyName && r.companyEmail == t.companyEmail &&
      r.companyPhone == t.companyPhone && r.employeeName == t.employeeName &&
      r.empEmail == t.empEmail && r.empPhone == t.empPhone && r.companyAddress == t.companyAddress
    ensures r.designation == v.designation && r.joinDate == v.joinDate
  {
    Record(id, Trim(v.companyName), Trim(v.companyAddress), Trim(v.companyEmail), Trim(v.companyPhone),
           Trim(v.employeeName), v.designation, v.joinDate, Trim(v.empEmail), Trim(v.empPhone),
           skills, education, now)
  }

  /** A record collected from a form the validator accepted has every
      required value, within its length limit, at least one skill and at
      least one education entry, and a join date that is not blank. */
  lemma AcceptedRecordWithinLimits(v: Fields, skills: seq<Skill>, education: seq<Education>,
                                   id: string, now: string, future: string -> bool)
    requires Violations(Candidate(TrimFields(v), |skills|, |education|), future) == []
    ensures var r := Collect(v, skills, education, id, now);
      r.companyName != "" && |r.companyName| <= 50 &&
      r.companyEmail != "" && |r.companyEmail| <= 100 &&
      r.companyPhone != "" && |r.companyPhone| <= 15 &&
      r.employeeName != "" && |r.employeeName| <= 25 &&
      r.empEmail != "" && |r.empEmail| <= 100 &&
      r.empPhone != "" && |r.empPhone| <= 15 &&
      Trim(r.joinDate) != "" && !future(Trim(r.joinDate)) &&
      |r.skills| > 0 && |r.education| > 0
  {
    NoViolationsIffAcceptable(Candidate(TrimFields(v), |skills|, |education|), future);
  }

  /** The collection the submit handler saves: create mode (an empty id)
      appends the payload, edit mode replaces the first record with the id. */
  function Saved(all: seq<Record>, editId: string, payload: Record): seq<Record> {
    if editId == "" then all + [payload] else ReplaceFirst(all, editId, payload)
  }

  /** Create adds exactly one record at the end and keeps the others in
      place; edit keeps the length, changes only the first record with the
      id (which keeps its `createdAt`), and changes nothing for an unknown id. */
  lemma SavedSpec(all: seq<Record>, editId: string, payload: Record)
    ensures editId == "" ==>
      |Saved(all, editId, payload)| == |all| + 1 &&
      Saved(all, editId, payload)[..|all|] == all &&
      Saved(all, editId, payload)[|all|] == payload
    ensures editId != "" ==> |Saved(all, editId, payload)| == |all|
    ensures editId != "" && FirstWithId(all, editId).None? ==> Saved(all, editId, payload) == all
    ensures editId != "" && FirstWithId(all, editId).Some? ==>
      var k := FirstWithId(all, editId).value;
      Saved(all, editId, payload) == all[k := payload.(createdAt := all[k].createdAt)]
  {
    if editId == "" {
      assert (all + [payload])[..|all|] == all;
    } else {
      ReplaceFirstAt(all, editId, payload);
    }
  }

  /** The form view of the single-page application. */
  class FormSession {
    /** The hidden id input: the record being edited, "" when creating. */
    var editId: string
    /** The nine text inputs. */
    var fields: Fields
    /** The chips of the skills list, in page order. */
    var skills: seq<Skill>
    /** The rows of the education list, in page order. */
    var education: seq<Education>
    /** The text of the selected catalog option, "" when none is selected. */
    var selectedSkill: string
    /** `Number()` of the rating box; a cleared box reads as 0. */
    var ratingInput: int
    /** The catalog search box. */
    var skillSearch: string
    /** The three inputs of the education editor. */
    var eduSchool: string
    var eduCourse: string
    var eduYear: string
    /** The messages in the errors box, [] while it is hidden. */
    var errors: seq<string>
    /** Whether the "saved" message is showing. */
    var saved: bool

    /** The chip list never holds two chips with the same name. */
    predicate Valid()
      reads this
    {
      NamesUnique(skills)
    }

    /** What the validator reads from the page. */
    function Submission(): Candidate
      reads this
    {
      Candidate(TrimFields(fields), |skills|, |education|)
    }

    /** What `collectFormData` builds: the id comes from the hidden input,
        or is the fresh `newId` in create mode. */
    function Payload(newId: string, now: string): Record
      reads this
    {
      Collect(fields, skills, education, if editId != "" then editId else newId, now)
    }

    /** Everything but the skill chips and the skill inputs is as before. */
    twostate predicate OnlySkillsChanged()
      reads this
    {
      editId == old(editId) && fields == old(fields) && education == old(education) &&
      selectedSkill == old(selectedSkill) &&
      eduSchool == old(eduSchool) && eduCourse == old(eduCourse) && eduYear == old(eduYear) &&
      saved == old(saved)
    }

    /** Everything but the education rows, their inputs and the errors box is as before. */
    twostate predicate OnlyEducationChanged()
      reads this
    {
      editId == old(editId) && fields == old(fields) && skills == old(skills) &&
      selectedSkill == old(selectedSkill) && ratingInput == old(ratingInput) &&
      skillSearch == old(skillSearch) && saved == old(saved)
    }

    /** The form as first shown for a new company. */
    constructor ()
      ensures Valid()
      ensures editId == "" && fields == BlankFields && skills == [] && education == []
      ensures selectedSkill == "" && ratingInput == 0 && skillSearch == ""
      ensures eduSchool == "" && eduCourse == "" && eduYear == ""
      ensures errors == [] && !saved
    {
      editId := "";
      fields := BlankFields;
      skills := [];
      education := [];
      selectedSkill := "";
      ratingInput := 0;
      skillSearch := "";
      eduSchool := "";
      eduCourse := "";
      eduYear := "";
      errors := [];
      saved := false;
    }

    /** `addSkillChip`: every chip with the name is removed, then the new
        chip is appended at the end. */
    method AddChip(name: string, rating: int)
      requires Valid()
      modifies this
      ensures Valid()
      ensures skills == Upsert(old(skills), name, rating)
      ensures OnlySkillsChanged()
      ensures ratingInput == old(ratingInput) && skillSearch == old(skillSearch) && errors == old(errors)
    {
      UpsertKeepsUnique(skills, name, rating);
      var kept: seq<Skill> := [];
      var i := 0;
      while i < |skills|
        invariant 0 <= i <= |skills|
        invariant kept == RemoveNamed(skills[..i], name)
        invariant unchanged(this)
      {
        FilterAppend(skills[..i], [skills[i]], OtherName(name));
        assert skills[..i + 1] == skills[..i] + [skills[i]];
        if skills[i].name != name {
          kept := kept + [skills[i]];
        }
        i := i + 1;
      }
      assert skills[..i] == skills;
      skills := kept + [Skill(name, rating)];
    }

    /** The "add skill" button: an empty selection is rejected first, a
        rating that is 0, below 1 or above 5 second; each rejection shows its
        message and leaves the list as it was. Otherwise the chip is added
        and the rating and search boxes are cleared. */
    method AddSkill()
      requires Valid()
      modifies this
      ensures Valid()
      ensures OnlySkillsChanged()
      ensures old(selectedSkill) == "" ==>
        errors == ["Select a skill name."] && skills == old(skills) &&
        ratingInput == old(ratingInput) && skillSearch == old(skillSearch)
      ensures old(selectedSkill) != "" && (old(ratingInput) == 0 || old(ratingInput) < 1 || old(ratingInput) > 5) ==>
        errors == ["Enter rating 1–5."] && skills == old(skills) &&
        ratingInput == old(ratingInput) && skillSearch == old(skillSearch)
      ensures old(selectedSkill) != "" && 1 <= old(ratingInput) <= 5 ==>
        skills == Upsert(old(skills), old(selectedSkill), old(ratingInput)) &&
        ratingInput == 0 && skillSearch == "" && errors == old(errors)
    {
      var name := selectedSkill;
      var rating := ratingInput;
      if name == "" {
        errors := ["Select a skill name."];
        return;
      }
      if rating == 0 || rating < 1 || rating > 5 {
        errors := ["Enter rating 1–5."];
        return;
      }
      AddChip(name, rating);
      ratingInput := 0;
      skillSearch := "";
    }

    /** A chip's remove button: that chip, and only that chip, leaves the list. */
    method RemoveSkill(i: nat)
      requires Valid() && i < |skills|
      modifies this
      ensures Valid()
      ensures skills == old(skills)[..i] + old(skills)[i + 1..]
      ensures OnlySkillsChanged()
      ensures ratingInput == old(ratingInput) && skillSearch == old(skillSearch) && errors == old(errors)
    {
      var s := skills;
      skills := s[..i] + s[i + 1..];
      forall a, b | 0 <= a < b < |skills| ensures skills[a].name != skills[b].name {
        var a' := if a < i then a else a + 1;
        var b' := if b < i then b else b + 1;
        assert skills[a] == s[a'] && skills[b] == s[b'];
      }
    }

    /** `addEducationRow`: the row is appended at the end, duplicates allowed. */
    method AddEducationRow(school: string, course: string, year: string)
      modifies this
      ensures education == old(education) + [Education(school, course, year)]
      ensures OnlyEducationChanged()
      ensures eduSchool == old(eduSchool) && eduCourse == old(eduCourse) && eduYear == old(eduYear)
      ensures errors == old(errors)
    {
      education := education + [Education(school, course, year)];
    }

    /** The "add education" button: school and course are trimmed, the
        year is taken as it is; if any of the three is empty the message is
        shown and nothing else changes, otherwise one row is appended and the
        three inputs are cleared. */
    method AddEducation()
      modifies this
      ensures OnlyEducationChanged()
      ensures Trim(old(eduSchool)) == "" || Trim(old(eduCourse)) == "" || old(eduYear) == "" ==>
        errors == ["Education: all fields are required."] && education == old(education) &&
        eduSchool == old(eduSchool) && eduCourse == old(eduCourse) && eduYear == old(eduYear)
      ensures Trim(old(eduSchool)) != "" && Trim(old(eduCourse)) != "" && old(eduYear) != "" ==>
        education == old(education) + [Education(Trim(old(eduSchool)), Trim(old(eduCourse)), old(eduYear))] &&
        eduSchool == "" && eduCourse == "" && eduYear == "" && errors == old(errors)
    {
      var school := Trim(eduSchool);
      var course := Trim(eduCourse);
      var year := eduYear;
      if school == "" || course == "" || year == "" {
        errors := ["Education: all fields are required."];
        return;
      }
      AddEducationRow(school, course, year);
      eduSchool := "";
      eduCourse := "";
      eduYear := "";
    }

    /** An education row's remove button: that row, and only that row, leaves the list. */
    method RemoveEducation(i: nat)
      requires i < |education|
      modifies this
      ensures education == old(education)[..i] + old(education)[i + 1..]
      ensures OnlyEducationChanged()
      ensures eduSchool == old(eduSchool) && eduCourse == old(eduCourse) && eduYear == old(eduYear)
      ensures errors == old(errors)
    {
      education := education[..i] + education[i + 1..];
    }

    /** `showFormView(editId)`: the inputs and both lists are cleared, the
        boxes hidden and the hidden id set; when a stored record has the id,
        its values seed the inputs, its skills are replayed through
        `addSkillChip` and its education rows are appended as they are. */
    method Show(id: string, all: seq<Record>)
      modifies this
      ensures Valid()
      ensures editId == id && errors == [] && !saved
      ensures id == "" || FirstWithId(all, id).None? ==>
        fields == BlankFields && skills == [] && education == []
      ensures id != "" && FirstWithId(all, id).Some? ==>
        var data := all[FirstWithId(all, id).value];
        fields == Fields(data.companyName, data.companyAddress, data.companyEmail, data.companyPhone,
                         data.employeeName, data.designation, data.joinDate, data.empEmail, data.empPhone) &&
        skills == Replay(data.skills) && education == data.education
      ensures selectedSkill == old(selectedSkill) && ratingInput == old(ratingInput) && skillSearch == old(skillSearch)
      ensures eduSchool == old(eduSchool) && eduCourse == old(eduCourse) && eduYear == old(eduYear)
    {
      fields := BlankFields;
      skills := [];
      education := [];
      errors := [];
      saved := false;
      editId := id;
      if id != "" {
        var found := FirstWithId(all, id);
        if found.Some? {
          var data := all[found.value];
          fields := Fields(data.companyName, data.companyAddress, data.companyEmail, data.companyPhone,
                           data.employeeName, data.designation, data.joinDate, data.empEmail, data.empPhone);
          ReplaySkills(data.skills);
          AddEducationRows(data.education);
        }
      }
    }

    /** `forEach(s => addSkillChip(s.name, s.rating))` over a stored list,
        starting from an empty chip list. */
    method ReplaySkills(stored: seq<Skill>)
      requires skills == []
      modifies this
      ensures Valid()
      ensures skills == Replay(stored)
      ensures OnlySkillsChanged()
      ensures ratingInput == old(ratingInput) && skillSearch == old(skillSearch) && errors == old(errors)
    {
      var i := 0;
      while i < |stored|
        invariant 0 <= i <= |stored|
        invariant Valid()
        invariant skills == Replay(stored[..i])
        invariant OnlySkillsChanged()
        invariant ratingInput == old(ratingInput) && skillSearch == old(skillSearch) && errors == old(errors)
      {
        assert stored[..i + 1][..i] == stored[..i];
        AddChip(stored[i].name, stored[i].rating);
        i := i + 1;
      }
      assert stored[..i] == stored;
    }

    /** `forEach(e => addEducationRow(e.school, e.course, e.completedYear))`:
        the stored rows are appended as they are, in order. */
    method AddEducationRows(rows: seq<Education>)
      modifies this
      ensures education == old(education) + rows
      ensures OnlyEducationChanged()
      ensures eduSchool == old(eduSchool) && eduCourse == old(eduCourse) && eduYear == old(eduYear)
      ensures errors == old(errors)
    {
      var j := 0;
      while j < |rows|
        invariant 0 <= j <= |rows|
        invariant education == old(education) + rows[..j]
        invariant OnlyEducationChanged()
        invariant eduSchool == old(eduSchool) && eduCourse == old(eduCourse) && eduYear == old(eduYear)
        invariant errors == old(errors)
      {
        assert rows[..j + 1] == rows[..j] + [rows[j]];
        var e := rows[j];
        AddEducationRow(e.school, e.course, e.completedYear);
        j := j + 1;
      }
      assert rows[..j] == rows;
    }

    /** The form's submit handler. The errors box and the saved message are
        hidden first; when the validator reports anything its messages are
        shown and the collection is not touched. Otherwise the collected
        record is saved: appended with the fresh id and timestamp in create
        mode, or put in place of the first record with the id, keeping that
        record's `createdAt`, in edit mode. */
    method Submit(store: Storage, newId: string, now: string, future: string -> bool)
      requires Valid()
      modifies this, store
      ensures Valid()
      ensures errors == Violations(Submission(), future)
      ensures saved <==> errors == []
      ensures errors != [] ==> store.records == old(store.records)
      ensures errors == [] ==> store.records == Saved(old(store.records), editId, Payload(newId, now))
      ensures editId == old(editId) && fields == old(fields) && skills == old(skills) && education == old(education)
      ensures selectedSkill == old(selectedSkill) && ratingInput == old(ratingInput) && skillSearch == old(skillSearch)
      ensures eduSchool == old(eduSchool) && eduCourse == old(eduCourse) && eduYear == old(eduYear)
    {
      errors := [];
      saved := false;
      var err := ValidateForm(TrimFields(fields), skills, education, future);
      if |err| > 0 {
        errors := err;
        return;
      }
      var payload := Collect(fields, skills, education, if editId != "" then editId else newId, now);
      var all := store.records;
      if editId != "" {
        var idx := FindIndex(all, editId);
        if idx != -1 {
          payload := payload.(createdAt := all[idx].createdAt);
          all := all[idx := payload];
        }
        ReplaceFirstAt(store.records, editId, Payload(newId, now));
      } else {
        payload := payload.(id := newId, createdAt := now);
        all := all + [payload];
      }
      store.records := all;
      saved := true;
    }
  }
}

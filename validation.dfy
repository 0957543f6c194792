/** The submit-time form validator. Its specification is a table of sixteen
    checks in a fixed order; the reported messages are those of the checks
    that fail, in table order. */
module Validation {
  import opened Seqs
  import opened Text
  import opened Entities

  /** The seven validated inputs (address and designation are never checked). */
  datatype FieldId = CompanyName | CompanyEmail | CompanyPhone | EmployeeName | JoinDate | EmpEmail | EmpPhone

  function Label(f: FieldId): string {
    match f
    case CompanyName => "Company Name"
    case CompanyEmail => "Company Email"
    case CompanyPhone => "Company Phone"
    case EmployeeName => "Employee Name"
    case JoinDate => "Join Date"
    case EmpEmail => "Employee Email"
    case EmpPhone => "Employee Phone"
  }

  /** The value of a validated input. */
  function Value(v: Fields, f: FieldId): string {
    match f
    case CompanyName => v.companyName
    case CompanyEmail => v.companyEmail
    case CompanyPhone => v.companyPhone
    case EmployeeName => v.employeeName
    case JoinDate => v.joinDate
    case EmpEmail => v.empEmail
    case EmpPhone => v.empPhone
  }

  datatype Check =
    | Required(field: FieldId)
    | MaxLength(field: FieldId, limit: nat)
    | NotFuture
    | HasSkill
    | HasEducation

  /** The checks in the order the validator runs them. */
  const Checks: seq<Check> := [
    Required(CompanyName), Required(CompanyEmail), Required(CompanyPhone),
    Required(EmployeeName), Required(JoinDate), Required(EmpEmail), Required(EmpPhone),
    MaxLength(CompanyName, 50), MaxLength(CompanyEmail, 100), MaxLength(CompanyPhone, 15),
    MaxLength(EmployeeName, 25), MaxLength(EmpEmail, 100), MaxLength(EmpPhone, 15),
    NotFuture, HasSkill, HasEducation]

  /** The group a check belongs to: required, max length, date, skills,
      education. */
  function Rank(c: Check): int {
    match c
    case Required(_) => 0
    case MaxLength(_, _) => 1
    case NotFuture => 2
    case HasSkill => 3
    case HasEducation => 4
  }

  /** The text of a max-length violation, `${label} max length ${n}`. */
  function MaxMessage(name: string, n: nat): string {
    name + " max length " + Decimal(n)
  }

  function RequiredMessage(f: FieldId): string {
    match f
    case CompanyName => "Company Name is required."
    case CompanyEmail => "Company Email is required."
    case CompanyPhone => "Company Phone is required."
    case EmployeeName => "Employee Name is required."
    case JoinDate => "Join Date is required."
    case EmpEmail => "Employee Email is required."
    case EmpPhone => "Employee Phone is required."
  }

  function Message(c: Check): string {
    match c
    case Required(f) => RequiredMessage(f)
    case MaxLength(f, n) => MaxMessage(Label(f), n)
    case NotFuture => "Join Date must be a past date."
    case HasSkill => "Add at least one skill."
    case HasEducation => "Add at least one education entry."
  }

  /** Every input with surrounding white space removed, as the validator's
      `v(id)` reads it. */
  function TrimFields(v: Fields): (r: Fields)
    ensures IsTrimmed(r.companyName) && IsTrimmed(r.companyEmail) && IsTrimmed(r.companyPhone)
    ensures IsTrimmed(r.employeeName) && IsTrimmed(r.joinDate) && IsTrimmed(r.empEmail) && IsTrimmed(r.empPhone)
  {
    Fields(Trim(v.companyName), Trim(v.companyAddress), Trim(v.companyEmail), Trim(v.companyPhone),
           Trim(v.employeeName), Trim(v.designation), Trim(v.joinDate), Trim(v.empEmail), Trim(v.empPhone))
  }

  /** What the validator looks at: the trimmed inputs and the sizes of the
      two editor lists. */
  datatype Candidate = Candidate(fields: Fields, skillCount: nat, eduCount: nat)

  /** Whether a check fails. The date check is only consulted for a
      non-empty join date; `future` stands for the comparison of that date
      with today's local midnight. */
  predicate Fails(c: Check, x: Candidate, future: string -> bool) {
    match c
    case Required(f) => Value(x.fields, f) == ""
    case MaxLength(f, n) => |Value(x.fields, f)| > n
    case NotFuture => x.fields.joinDate != "" && future(x.fields.joinDate)
    case HasSkill => x.skillCount == 0
    case HasEducation => x.eduCount == 0
  }

  function FailsFor(x: Candidate, future: string -> bool): Check -> bool {
    (c: Check) => Fails(c, x, future)
  }

  /** The failing checks, in table order. */
  function FailedChecks(x: Candidate, future: string -> bool): seq<Check> {
    Filter(Checks, FailsFor(x, future))
  }

  function Messages(cs: seq<Check>): (r: seq<string>)
    ensures |r| == |cs|
  {
    seq(|cs|, i requires 0 <= i < |cs| => Message(cs[i]))
  }

  /** The messages a run of the checks `cs` pushes, in order. */
  function Run(cs: seq<Check>, x: Candidate, future: string -> bool): seq<string>
    decreases |cs|
  {
    if |cs| == 0 then []
    else
      var done := Run(cs[..|cs| - 1], x, future);
      var c := cs[|cs| - 1];
      if Fails(c, x, future) then done + [Message(c)] else done
  }

  /** The messages pushed by the first `k` checks of the table. */
  function Pushed(k: nat, x: Candidate, future: string -> bool): seq<string>
    requires k <= |Checks|
  {
    if k == 0 then []
    else if Fails(Checks[k - 1], x, future) then Pushed(k - 1, x, future) + [Message(Checks[k - 1])]
    else Pushed(k - 1, x, future)
  }

  /** What the validator reports for a candidate. */
  function Violations(x: Candidate, future: string -> bool): seq<string> {
    Pushed(|Checks|, x, future)
  }

  /** Running check `k` after the first `k` extends their messages to those
      of the first `k + 1`. */
  lemma PushedNext(k: nat, x: Candidate, future: string -> bool, before: seq<string>, after: seq<string>)
    requires k < |Checks| && before == Pushed(k, x, future)
    requires after == if Fails(Checks[k], x, future) then before + [Message(Checks[k])] else before
    ensures after == Pushed(k + 1, x, future)
  {
  }

  /** The table, position by position. */
  lemma ChecksAt()
    ensures |Checks| == 16
    ensures Checks[0] == Required(CompanyName) && Checks[1] == Required(CompanyEmail)
    ensures Checks[2] == Required(CompanyPhone) && Checks[3] == Required(EmployeeName)
    ensures Checks[4] == Required(JoinDate) && Checks[5] == Required(EmpEmail)
    ensures Checks[6] == Required(EmpPhone)
    ensures Checks[7] == MaxLength(CompanyName, 50) && Checks[8] == MaxLength(CompanyEmail, 100)
    ensures Checks[9] == MaxLength(CompanyPhone, 15) && Checks[10] == MaxLength(EmployeeName, 25)
    ensures Checks[11] == MaxLength(EmpEmail, 100) && Checks[12] == MaxLength(EmpPhone, 15)
    ensures Checks[13] == NotFuture && Checks[14] == HasSkill && Checks[15] == HasEducation
  {
  }

  /** The first seven rows of the table, evaluated. */
  lemma RequiredRows(x: Candidate, future: string -> bool)
    ensures Fails(Checks[0], x, future) == (x.fields.companyName == "") && Message(Checks[0]) == "Company Name is required."
    ensures Fails(Checks[1], x, future) == (x.fields.companyEmail == "") && Message(Checks[1]) == "Company Email is required."
    ensures Fails(Checks[2], x, future) == (x.fields.companyPhone == "") && Message(Checks[2]) == "Company Phone is required."
    ensures Fails(Checks[3], x, future) == (x.fields.employeeName == "") && Message(Checks[3]) == "Employee Name is required."
    ensures Fails(Checks[4], x, future) == (x.fields.joinDate == "") && Message(Checks[4]) == "Join Date is required."
    ensures Fails(Checks[5], x, future) == (x.fields.empEmail == "") && Message(Checks[5]) == "Employee Email is required."
    ensures Fails(Checks[6], x, future) == (x.fields.empPhone == "") && Message(Checks[6]) == "Employee Phone is required."
  {
    CompanyRequiredRows(x, future);
    EmployeeRequiredRows(x, future);
  }

  /** Rows 0-2 of `RequiredRows`, proved apart to keep each proof small. */
  lemma CompanyRequiredRows(x: Candidate, future: string -> bool)
    ensures Fails(Checks[0], x, future) == (x.fields.companyName == "") && Message(Checks[0]) == "Company Name is required."
    ensures Fails(Checks[1], x, future) == (x.fields.companyEmail == "") && Message(Checks[1]) == "Company Email is required."
    ensures Fails(Checks[2], x, future) == (x.fields.companyPhone == "") && Message(Checks[2]) == "Company Phone is required."
  {
    ChecksAt();
  }

  /** Rows 3-6 of `RequiredRows`, proved apart to keep each proof small. */
  lemma EmployeeRequiredRows(x: Candidate, future: string -> bool)
    ensures Fails(Checks[3], x, future) == (x.fields.employeeName == "") && Message(Checks[3]) == "Employee Name is required."
    ensures Fails(Checks[4], x, future) == (x.fields.joinDate == "") && Message(Checks[4]) == "Join Date is required."
    ensures Fails(Checks[5], x, future) == (x.fields.empEmail == "") && Message(Checks[5]) == "Employee Email is required."
    ensures Fails(Checks[6], x, future) == (x.fields.empPhone == "") && Message(Checks[6]) == "Employee Phone is required."
  {
    ChecksAt();
  }

  /** The six max-length rows of the table, evaluated. */
  lemma LengthRows(x: Candidate, future: string -> bool)
    ensures Fails(Checks[7], x, future) == (|x.fields.companyName| > 50) && Message(Checks[7]) == MaxMessage("Company Name", 50)
    ensures Fails(Checks[8], x, future) == (|x.fields.companyEmail| > 100) && Message(Checks[8]) == MaxMessage("Company Email", 100)
    ensures Fails(Checks[9], x, future) == (|x.fields.companyPhone| > 15) && Message(Checks[9]) == MaxMessage("Company Phone", 15)
    ensures Fails(Checks[10], x, future) == (|x.fields.employeeName| > 25) && Message(Checks[10]) == MaxMessage("Employee Name", 25)
    ensures Fails(Checks[11], x, future) == (|x.fields.empEmail| > 100) && Message(Checks[11]) == MaxMessage("Employee Email", 100)
    ensures Fails(Checks[12], x, future) == (|x.fields.empPhone| > 15) && Message(Checks[12]) == MaxMessage("Employee Phone", 15)
  {
    CompanyLengthRows(x, future);
    EmployeeLengthRows(x, future);
  }

  /** Rows 7-9 of `LengthRows`, proved apart to keep each proof small. */
  lemma CompanyLengthRows(x: Candidate, future: string -> bool)
    ensures Fails(Checks[7], x, future) == (|x.fields.companyName| > 50) && Message(Checks[7]) == MaxMessage("Company Name", 50)
    ensures Fails(Checks[8], x, future) == (|x.fields.companyEmail| > 100) && Message(Checks[8]) == MaxMessage("Company Email", 100)
    ensures Fails(Checks[9], x, future) == (|x.fields.companyPhone| > 15) && Message(Checks[9]) == MaxMessage("Company Phone", 15)
  {
    ChecksAt();
  }

  /** Rows 10-12 of `LengthRows`, proved apart to keep each proof small. */
  lemma EmployeeLengthRows(x: Candidate, future: string -> bool)
    ensures Fails(Checks[10], x, future) == (|x.fields.employeeName| > 25) && Message(Checks[10]) == MaxMessage("Employee Name", 25)
    ensures Fails(Checks[11], x, future) == (|x.fields.empEmail| > 100) && Message(Checks[11]) == MaxMessage("Employee Email", 100)
    ensures Fails(Checks[12], x, future) == (|x.fields.empPhone| > 15) && Message(Checks[12]) == MaxMessage("Employee Phone", 15)
  {
    ChecksAt();
  }

  /** The four limits the table uses print as their digits, so each
      max-length message reads `${label} max length 50` and so on. */
  lemma LimitDigits()
    ensures Decimal(15) == "15" && Decimal(25) == "25" && Decimal(50) == "50" && Decimal(100) == "100"
  {
    assert Decimal(1) == "1" && Decimal(2) == "2" && Decimal(5) == "5";
    assert Decimal(10) == "10";
  }

  /** The last three rows of the table, evaluated. */
  lemma FinalRows(x: Candidate, future: string -> bool)
    ensures Fails(Checks[13], x, future) == (x.fields.joinDate != "" && future(x.fields.joinDate))
    ensures Message(Checks[13]) == "Join Date must be a past date."
    ensures Fails(Checks[14], x, future) == (x.skillCount == 0) && Message(Checks[14]) == "Add at least one skill."
    ensures Fails(Checks[15], x, future) == (x.eduCount == 0) && Message(Checks[15]) == "Add at least one education entry."
  {
    ChecksAt();
  }

  /** `validateForm`: every check runs, and each failing one pushes its
      message onto the list. The inputs `t` are already trimmed. */
  method ValidateForm(t: Fields, skills: seq<Skill>, education: seq<Education>, future: string -> bool)
    returns (err: seq<string>)
    ensures err == Violations(Candidate(t, |skills|, |education|), future)
  {
    ghost var x := Candidate(t, |skills|, |education|);
    err := RequiredChecks(t, x, future);
    err := LengthChecks(err, t, x, future);
    FinalRows(x, future);
    var joinDate := t.joinDate;

    // joinDate cannot be future
    ghost var before := err;
    if joinDate != "" {
      if future(joinDate) { err := err + ["Join Date must be a past date."]; }
    }
    PushedNext(13, x, future, before, err);

    // at least one skill, at least one education entry
    before := err;
    if |skills| == 0 { err := err + ["Add at least one skill."]; }
    PushedNext(14, x, future, before, err);
    before := err;
    if |education| == 0 { err := err + ["Add at least one education entry."]; }
    PushedNext(15, x, future, before, err);
  }

  /** The seven "is required." checks that open `validateForm`. */
  method RequiredChecks(t: Fields, ghost x: Candidate, ghost future: string -> bool) returns (err: seq<string>)
    requires x.fields == t
    ensures err == Pushed(7, x, future)
  {
    RequiredRows(x, future);
    err := [];
    var companyName := t.companyName;
    var companyEmail := t.companyEmail;
    var companyPhone := t.companyPhone;
    var employeeName := t.employeeName;
    var joinDate := t.joinDate;
    var empEmail := t.empEmail;
    var empPhone := t.empPhone;

    ghost var before := err;
    if companyName == "" { err := err + ["Company Name is required."]; }
    PushedNext(0, x, future, before, err);
    before := err;
    if companyEmail == "" { err := err + ["Company Email is required."]; }
    PushedNext(1, x, future, before, err);
    before := err;
    if companyPhone == "" { err := err + ["Company Phone is required."]; }
    PushedNext(2, x, future, before, err);
    before := err;
    if employeeName == "" { err := err + ["Employee Name is required."]; }
    PushedNext(3, x, future, before, err);
    before := err;
    if joinDate == "" { err := err + ["Join Date is required."]; }
    PushedNext(4, x, future, before, err);
    before := err;
    if empEmail == "" { err := err + ["Employee Email is required."]; }
    PushedNext(5, x, future, before, err);
    before := err;
    if empPhone == "" { err := err + ["Employee Phone is required."]; }
    PushedNext(6, x, future, before, err);
  }

  /** The validator's `max` helper: a value longer than `n` characters
      pushes `${label} max length ${n}`. */
  method Max(err: seq<string>, val: string, n: nat, name: string) returns (r: seq<string>)
    ensures |val| > n ==> r == err + [MaxMessage(name, n)]
    ensures |val| <= n ==> r == err
  {
    r := err;
    if |val| > n { r := r + [MaxMessage(name, n)]; }
  }

  /** The six max-length checks of `validateForm`. */
  method LengthChecks(err0: seq<string>, t: Fields, ghost x: Candidate, ghost future: string -> bool)
    returns (err: seq<string>)
    requires x.fields == t && err0 == Pushed(7, x, future)
    ensures err == Pushed(13, x, future)
  {
    LengthRows(x, future);
    err := err0;
    ghost var before := err;
    err := Max(err, t.companyName, 50, "Company Name");
    PushedNext(7, x, future, before, err);
    before := err;
    err := Max(err, t.companyEmail, 100, "Company Email");
    PushedNext(8, x, future, before, err);
    before := err;
    err := Max(err, t.companyPhone, 15, "Company Phone");
    PushedNext(9, x, future, before, err);
    before := err;
    err := Max(err, t.employeeName, 25, "Employee Name");
    PushedNext(10, x, future, before, err);
    before := err;
    err := Max(err, t.empEmail, 100, "Employee Email");
    PushedNext(11, x, future, before, err);
    before := err;
    err := Max(err, t.empPhone, 15, "Employee Phone");
    PushedNext(12, x, future, before, err);
  }

  lemma MessagesAppend(a: seq<Check>, b: seq<Check>)
    ensures Messages(a + b) == Messages(a) + Messages(b)
  {
  }

  /** The messages of a run are those of the failing checks, in order. */
  lemma {:induction false} RunIsFiltered(cs: seq<Check>, x: Candidate, future: string -> bool)
    ensures Run(cs, x, future) == Messages(Filter(cs, FailsFor(x, future)))
    decreases |cs|
  {
    var p := FailsFor(x, future);
    if |cs| > 0 {
      var init := cs[..|cs| - 1];
      var c := cs[|cs| - 1];
      RunIsFiltered(init, x, future);
      assert cs == init + [c];
      FilterAppend(init, [c], p);
      var last := if p(c) then [c] else [];
      assert Filter([c], p) == last;
      MessagesAppend(Filter(init, p), last);
    }
  }

  /** The table's first `k` checks push what a run of them pushes. */
  lemma {:induction false} PushedIsRun(k: nat, x: Candidate, future: string -> bool)
    requires k <= |Checks|
    ensures Pushed(k, x, future) == Run(Checks[..k], x, future)
  {
    if k > 0 {
      PushedIsRun(k - 1, x, future);
      assert Checks[..k][..k - 1] == Checks[..k - 1];
    }
  }

  /** The reported messages are those of the failing checks, in table order. */
  lemma ViolationsAreFailedChecks(x: Candidate, future: string -> bool)
    ensures Violations(x, future) == Messages(FailedChecks(x, future))
  {
    PushedIsRun(|Checks|, x, future);
    assert Checks[..|Checks|] == Checks;
    RunIsFiltered(Checks, x, future);
  }

  /** At most one message per check. */
  lemma ViolationsBound(x: Candidate, future: string -> bool)
    ensures |Violations(x, future)| <= |Checks|
  {
    ViolationsAreFailedChecks(x, future);
  }

  /** A message is reported exactly when some check of the table fails and
      has that message. */
  lemma ViolationsMembership(x: Candidate, future: string -> bool, m: string)
    ensures m in Violations(x, future) <==>
      exists i :: 0 <= i < |Checks| && Fails(Checks[i], x, future) && m == Message(Checks[i])
  {
    ViolationsAreFailedChecks(x, future);
    MessagesOfFiltered(Checks, FailsFor(x, future), m);
  }

  lemma MessagesOfFiltered(cs: seq<Check>, p: Check -> bool, m: string)
    ensures m in Messages(Filter(cs, p)) <==> exists i :: 0 <= i < |cs| && p(cs[i]) && m == Message(cs[i])
  {
    var failed := Filter(cs, p);
    if m in Messages(failed) {
      var j :| 0 <= j < |failed| && Messages(failed)[j] == m;
      FilterMembership(cs, p, failed[j]);
      var i :| 0 <= i < |cs| && cs[i] == failed[j];
      assert p(cs[i]) && m == Message(cs[i]);
    }
    if exists i :: 0 <= i < |cs| && p(cs[i]) && m == Message(cs[i]) {
      var i :| 0 <= i < |cs| && p(cs[i]) && m == Message(cs[i]);
      FilterMembership(cs, p, cs[i]);
      var j :| 0 <= j < |failed| && failed[j] == cs[i];
      assert Messages(failed)[j] == m;
    }
  }

  /** The messages come grouped as the validator runs them: the failing
      checks keep table order, so every required-field message precedes
      every max-length message, which precede the date, skills and
      education messages, in that order. */
  lemma ViolationsOrdered(x: Candidate, future: string -> bool)
    ensures IsSubsequence(FailedChecks(x, future), Checks)
    ensures NonDecreasing(FailedChecks(x, future), Rank)
  {
    FilterIsSubsequence(Checks, FailsFor(x, future));
    ChecksRanked();
    FilterKeepsOrder(Checks, FailsFor(x, future), Rank);
  }

  /** The table lists its groups in the order of `Rank`. */
  lemma ChecksRanked()
    ensures NonDecreasing(Checks, Rank)
  {
    forall i | 0 <= i < |Checks|
      ensures Rank(Checks[i]) == if i < 7 then 0 else if i < 13 then 1 else i - 11
    {
    }
  }

  /** Everything the validator demands of a submission, spelled out. */
  predicate Acceptable(x: Candidate, future: string -> bool) {
    var v := x.fields;
    v.companyName != "" && v.companyEmail != "" && v.companyPhone != "" &&
    v.employeeName != "" && v.joinDate != "" && v.empEmail != "" && v.empPhone != "" &&
    |v.companyName| <= 50 && |v.companyEmail| <= 100 && |v.companyPhone| <= 15 &&
    |v.employeeName| <= 25 && |v.empEmail| <= 100 && |v.empPhone| <= 15 &&
    !future(v.joinDate) && x.skillCount > 0 && x.eduCount > 0
  }

  /** The first `k + 1` checks push nothing exactly when the first `k` push
      nothing and check `k` passes. */
  lemma PushedEmptyNext(k: nat, x: Candidate, future: string -> bool)
    requires k < |Checks|
    ensures Pushed(k + 1, x, future) == [] <==> Pushed(k, x, future) == [] && !Fails(Checks[k], x, future)
  {
  }

  /** The validator reports nothing exactly when the submission is acceptable. */
  lemma NoViolationsIffAcceptable(x: Candidate, future: string -> bool)
    ensures Violations(x, future) == [] <==> Acceptable(x, future)
  {
    NoViolationsIffAllPass(x, future);
    RequiredRows(x, future);
    LengthRows(x, future);
    FinalRows(x, future);
  }

  /** Nothing is pushed exactly when every check of the table passes. */
  lemma NoViolationsIffAllPass(x: Candidate, future: string -> bool)
    ensures Violations(x, future) == [] <==>
      !Fails(Checks[0], x, future) && !Fails(Checks[1], x, future) && !Fails(Checks[2], x, future) &&
      !Fails(Checks[3], x, future) && !Fails(Checks[4], x, future) && !Fails(Checks[5], x, future) &&
      !Fails(Checks[6], x, future) && !Fails(Checks[7], x, future) && !Fails(Checks[8], x, future) &&
      !Fails(Checks[9], x, future) && !Fails(Checks[10], x, future) && !Fails(Checks[11], x, future) &&
      !Fails(Checks[12], x, future) && !Fails(Checks[13], x, future) && !Fails(Checks[14], x, future) &&
      !Fails(Checks[15], x, future)
  {
    PushedEmptyNext(0, x, future);
    PushedEmptyNext(1, x, future);
    PushedEmptyNext(2, x, future);
    PushedEmptyNext(3, x, future);
    PushedEmptyNext(4, x, future);
    PushedEmptyNext(5, x, future);
    PushedEmptyNext(6, x, future);
    PushedEmptyNext(7, x, future);
    PushedEmptyNext(8, x, future);
    PushedEmptyNext(9, x, future);
    PushedEmptyNext(10, x, future);
    PushedEmptyNext(11, x, future);
    PushedEmptyNext(12, x, future);
    PushedEmptyNext(13, x, future);
    PushedEmptyNext(14, x, future);
    PushedEmptyNext(15, x, future);
  }

  /** With an empty join date the date comparison is never consulted. */
  lemma EmptyDateNeedsNoClock(x: Candidate, f1: string -> bool, f2: string -> bool)
    requires x.fields.joinDate == ""
    ensures Violations(x, f1) == Violations(x, f2)
  {
    forall i | 0 <= i < |Checks| ensures FailsFor(x, f1)(Checks[i]) == FailsFor(x, f2)(Checks[i]) {
    }
    FilterAgree(Checks, FailsFor(x, f1), FailsFor(x, f2));
    ViolationsAreFailedChecks(x, f1);
    ViolationsAreFailedChecks(x, f2);
  }

  /** Submitting the untouched form reports the seven required fields and the
      two empty lists: nine messages, no length or date message. */
  lemma BlankFormViolations(future: string -> bool)
    ensures Violations(Candidate(BlankFields, 0, 0), future) == [
      "Company Name is required.", "Company Email is required.", "Company Phone is required.",
      "Employee Name is required.", "Join Date is required.", "Employee Email is required.",
      "Employee Phone is required.", "Add at least one skill.", "Add at least one education entry."]
    ensures |Violations(Candidate(BlankFields, 0, 0), future)| == 9
  {
    var x := Candidate(BlankFields, 0, 0);
    RequiredRows(x, future);
    var r0: seq<string> := [];
    var r1 := r0 + ["Company Name is required."];
    PushedNext(0, x, future, r0, r1);
    var r2 := r1 + ["Company Email is required."];
    PushedNext(1, x, future, r1, r2);
    var r3 := r2 + ["Company Phone is required."];
    PushedNext(2, x, future, r2, r3);
    var r4 := r3 + ["Employee Name is required."];
    PushedNext(3, x, future, r3, r4);
    var r5 := r4 + ["Join Date is required."];
    PushedNext(4, x, future, r4, r5);
    var r6 := r5 + ["Employee Email is required."];
    PushedNext(5, x, future, r5, r6);
    var r := r6 + ["Employee Phone is required."];
    PushedNext(6, x, future, r6, r);
    BlankFormTail(future, r);
  }

  /** No length or date check fails on the untouched form; both list checks do. */
  lemma BlankFormTail(future: string -> bool, r: seq<string>)
    requires r == Pushed(7, Candidate(BlankFields, 0, 0), future)
    ensures Violations(Candidate(BlankFields, 0, 0), future) ==
      r + ["Add at least one skill.", "Add at least one education entry."]
  {
    var x := Candidate(BlankFields, 0, 0);
    LengthRows(x, future);
    FinalRows(x, future);
    PushedNext(7, x, future, r, r);
    PushedNext(8, x, future, r, r);
    PushedNext(9, x, future, r, r);
    PushedNext(10, x, future, r, r);
    PushedNext(11, x, future, r, r);
    PushedNext(12, x, future, r, r);
    PushedNext(13, x, future, r, r);
    PushedNext(14, x, future, r, r + ["Add at least one skill."]);
    PushedNext(15, x, future, r + ["Add at least one skill."],
      r + ["Add at least one skill.", "Add at least one education entry."]);
  }
}

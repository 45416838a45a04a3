/**
 * The validator chains that guard `POST /exercises` (index.ts:38-52) and
 * `PUT /exercises/:_id` (index.ts:86-100).
 *
 * Each chain names one field and runs its validators in order. No chain
 * calls `bail()`, so every failing validator adds one error, and the errors
 * are collected in the order the chains are declared: name, reps, weight,
 * unit, date. The two custom validators (unit and date) are the project's
 * own logic and are modelled exactly. The library validators `notEmpty`,
 * `isAlpha('en-US', {ignore: ' '})` and `isInt({min: 1})` are modelled by
 * the simplified predicates `Present`, `IsAlphaIgnoringSpaces` and
 * `IsIntAtLeastOne`.
 */
module FieldValidation {
  import opened Wrappers
  import opened DateValidation

  /**
   * A request body as the chains see it. An absent text field reads as the
   * empty string; `reps` and `weight` are whole numbers, or `None` when
   * absent.
   */
  datatype Payload = Payload(
    name: string,
    reps: Option<int>,
    weight: Option<int>,
    unit: string,
    date: string)

  /** One entry of `validationResult(req).array()`: the field and its message. */
  datatype ValidationError = ValidationError(field: string, msg: string)

  // Default messages of the chains, as given to `check(...)` and `body(...)`.
  const NameMessage := "Name should be a string"
  const RepsMessage := "Reps should be numeric and greater than 0"
  const WeightMessage := "Weight must be numeric and above 0"
  const UnitMessage := "Must include units"
  /** The default message of the POST route's date chain (index.ts:48). */
  const PostDateMessage := "invalid"
  /** The default message of the PUT route's date chain (index.ts:96). */
  const PutDateMessage := "Invalid date"

  // Messages of the errors the two custom validators throw.
  const UnitRuleMessage := "Unit must be kgs or lbs"
  const DateRuleMessage := "Invalid date format"

  // ---------------------------------------------------------------------
  // Library validators (simplified).

  /** `notEmpty()` on a text field: absent or "" fails. */
  predicate Present(s: string) {
    s != ""
  }

  predicate IsAsciiLetter(c: char) {
    'A' <= c <= 'Z' || 'a' <= c <= 'z'
  }

  /**
   * `isAlpha('en-US', {ignore: ' '})`, simplified: once the spaces are
   * ignored, a non-empty run of ASCII letters.
   */
  predicate IsAlphaIgnoringSpaces(s: string) {
    && (forall i :: 0 <= i < |s| ==> IsAsciiLetter(s[i]) || s[i] == ' ')
    && (exists i :: 0 <= i < |s| && IsAsciiLetter(s[i]))
  }

  /** `isInt({min: 1})` on a field that holds a whole number (simplified). */
  predicate IsIntAtLeastOne(n: Option<int>) {
    n.Some? && n.value >= 1
  }

  // ---------------------------------------------------------------------
  // The project's two custom validators.

  /**
   * The custom unit validator (index.ts:42-47, 90-95): it yields no error
   * exactly for "kgs" and "lbs", and otherwise the error it throws.
   */
  function UnitRule(unit: string): (r: Option<string>)
    ensures r.None? <==> unit in {"kgs", "lbs"}
    ensures r.Some? ==> r.value == UnitRuleMessage
  {
    if unit != "kgs" && unit != "lbs" then Some(UnitRuleMessage) else None
  }

  /** The custom date validator (index.ts:48-52, 96-100). */
  function DateRule(date: string): Option<string> {
    if !IsDateValid(date) then Some(DateRuleMessage) else None
  }

  /**
   * The date rule yields "Invalid date format" exactly when the regular
   * expression of `isDateValid` does not match, and nothing otherwise.
   */
  lemma DateRuleIsRegexTest(date: string)
    ensures DateRule(date).None? <==> AnchoredMatch(DatePattern, date)
    ensures DateRule(date).Some? ==> DateRule(date).value == DateRuleMessage
  {
    DateValidIsRegexTest(date);
  }

  // ---------------------------------------------------------------------
  // The chains and their result.

  /** The error a single validator adds to the result, if any. */
  function Check(field: string, passes: bool, msg: string): seq<ValidationError> {
    if passes then [] else [ValidationError(field, msg)]
  }

  /** The error a custom validator adds: the message it throws, if it throws. */
  function Rule(field: string, outcome: Option<string>): seq<ValidationError> {
    match outcome
    case None => []
    case Some(msg) => [ValidationError(field, msg)]
  }

  /** The fields that the errors in `errors` concern. */
  ghost function FieldsOf(errors: seq<ValidationError>): set<string> {
    set e | e in errors :: e.field
  }

  // The field constraints the chains enforce, one per field.
  predicate NameValid(name: string) { Present(name) && IsAlphaIgnoringSpaces(name) }
  predicate CountValid(n: Option<int>) { IsIntAtLeastOne(n) }
  predicate UnitValid(unit: string) { unit == "kgs" || unit == "lbs" }
  predicate DateValid(date: string) { IsDateValid(date) }

  /** Every field of the body meets its constraint. */
  predicate PayloadValid(p: Payload) {
    && NameValid(p.name)
    && CountValid(p.reps)
    && CountValid(p.weight)
    && UnitValid(p.unit)
    && DateValid(p.date)
  }

  /** The fields of the body that break their constraint. */
  ghost function InvalidFields(p: Payload): (fields: set<string>)
    ensures fields <= {"name", "reps", "weight", "unit", "date"}
    ensures fields == {} <==> PayloadValid(p)
  {
    (if NameValid(p.name) then {} else {"name"}) +
    (if CountValid(p.reps) then {} else {"reps"}) +
    (if CountValid(p.weight) then {} else {"weight"}) +
    (if UnitValid(p.unit) then {} else {"unit"}) +
    (if DateValid(p.date) then {} else {"date"})
  }

  /** The chain `check('name', ...).notEmpty().isAlpha(...)`: no error exactly for a valid name. */
  function NameErrors(name: string): (r: seq<ValidationError>)
    ensures r == [] <==> NameValid(name)
  {
    Check("name", Present(name), NameMessage) +
    Check("name", IsAlphaIgnoringSpaces(name), NameMessage)
  }

  /** The chains `check('reps' | 'weight', ...).notEmpty().isInt({min: 1})`. */
  function CountErrors(field: string, n: Option<int>, msg: string): (r: seq<ValidationError>)
    ensures r == [] <==> CountValid(n)
  {
    Check(field, n.Some?, msg) +
    Check(field, IsIntAtLeastOne(n), msg)
  }

  /** The chain `check('unit', ...).notEmpty().custom(...)`: no error exactly for "kgs" or "lbs". */
  function UnitErrors(unit: string): (r: seq<ValidationError>)
    ensures r == [] <==> UnitValid(unit)
  {
    Check("unit", Present(unit), UnitMessage) +
    Rule("unit", UnitRule(unit))
  }

  /** The chain `body('date', dateMessage).notEmpty().custom(...)`: no error exactly for a valid date. */
  function DateErrors(date: string, dateMessage: string): (r: seq<ValidationError>)
    ensures r == [] <==> DateValid(date)
  {
    Check("date", Present(date), dateMessage) +
    Rule("date", DateRule(date))
  }

  /**
   * The errors of the five chains of a route, in declaration order;
   * `dateMessage` is the default message of that route's date chain.
   */
  function ChainErrors(p: Payload, dateMessage: string): (errors: seq<ValidationError>)
    ensures errors == [] <==> PayloadValid(p)
  {
    NameErrors(p.name) +
    CountErrors("reps", p.reps, RepsMessage) +
    CountErrors("weight", p.weight, WeightMessage) +
    UnitErrors(p.unit) +
    DateErrors(p.date, dateMessage)
  }

  /**
   * `validationResult(req).array()` after the five chains of a route: empty
   * exactly when every field is valid, and otherwise the chains' errors
   * (`ValidateReports` says what they hold).
   */
  function Validate(p: Payload, dateMessage: string): (errors: seq<ValidationError>)
    ensures errors == [] <==> PayloadValid(p)
  {
    if PayloadValid(p) then [] else ChainErrors(p, dateMessage)
  }

  // ---------------------------------------------------------------------
  // What the error list reports.

  lemma FieldsOfAppend(a: seq<ValidationError>, b: seq<ValidationError>)
    ensures FieldsOf(a + b) == FieldsOf(a) + FieldsOf(b)
  {
    forall f | f in FieldsOf(a + b) ensures f in FieldsOf(a) + FieldsOf(b) {
      var e :| e in a + b && e.field == f;
    }
    forall f | f in FieldsOf(a) + FieldsOf(b) ensures f in FieldsOf(a + b) {
      var e :| (e in a || e in b) && e.field == f;
      assert e in a + b;
    }
  }

  /** A chain of two validators on one field mentions that field exactly when one of them fails. */
  lemma FieldsOfChain(first: seq<ValidationError>, second: seq<ValidationError>, field: string)
    requires forall e | e in first :: e.field == field
    requires forall e | e in second :: e.field == field
    ensures FieldsOf(first + second) == if first + second == [] then {} else {field}
  {
    FieldsOfAppend(first, second);
    if first != [] { assert first[0] in first; }
    if second != [] { assert second[0] in second; }
  }

  /** The name chain reports the name exactly when it is invalid. */
  lemma NameChainFields(name: string)
    ensures FieldsOf(NameErrors(name)) == if NameValid(name) then {} else {"name"}
  {
    FieldsOfChain(Check("name", Present(name), NameMessage),
      Check("name", IsAlphaIgnoringSpaces(name), NameMessage), "name");
  }

  /** The reps and weight chains report their field exactly when its count is invalid. */
  lemma CountChainFields(field: string, n: Option<int>, msg: string)
    ensures FieldsOf(CountErrors(field, n, msg)) == if CountValid(n) then {} else {field}
  {
    FieldsOfChain(Check(field, n.Some?, msg), Check(field, IsIntAtLeastOne(n), msg), field);
  }

  /**
   * The unit chain reports the unit exactly when it is invalid, and its
   * errors include "Unit must be kgs or lbs" exactly then.
   */
  lemma UnitChainFields(unit: string)
    ensures FieldsOf(UnitErrors(unit)) == if UnitValid(unit) then {} else {"unit"}
    ensures ValidationError("unit", UnitRuleMessage) in UnitErrors(unit) <==> !UnitValid(unit)
  {
    FieldsOfChain(Check("unit", Present(unit), UnitMessage), Rule("unit", UnitRule(unit)), "unit");
    assert ValidationError("unit", UnitRuleMessage) !in Check("unit", Present(unit), UnitMessage);
  }

  /**
   * The date chain reports the date exactly when it is invalid, and its
   * errors include "Invalid date format" exactly then.
   */
  lemma DateChainFields(date: string, dateMessage: string)
    ensures FieldsOf(DateErrors(date, dateMessage)) == if DateValid(date) then {} else {"date"}
    ensures ValidationError("date", DateRuleMessage) in DateErrors(date, dateMessage) <==> !DateValid(date)
  {
    FieldsOfChain(Check("date", Present(date), dateMessage), Rule("date", DateRule(date)), "date");
  }

  /** An error is about one of the fields its list reports. */
  lemma InFieldsOf(e: ValidationError, errors: seq<ValidationError>)
    requires e in errors
    ensures e.field in FieldsOf(errors)
  {
  }

  /** The fields the five chains report are exactly the invalid ones. */
  lemma ChainErrorsFields(p: Payload, dateMessage: string)
    ensures FieldsOf(ChainErrors(p, dateMessage)) == InvalidFields(p)
  {
    var a := NameErrors(p.name);
    var b := CountErrors("reps", p.reps, RepsMessage);
    var c := CountErrors("weight", p.weight, WeightMessage);
    var d := UnitErrors(p.unit);
    var e := DateErrors(p.date, dateMessage);
    assert ChainErrors(p, dateMessage) == a + b + c + d + e;
    FieldsOfAppend(a, b);
    FieldsOfAppend(a + b, c);
    FieldsOfAppend(a + b + c, d);
    FieldsOfAppend(a + b + c + d, e);
    NameChainFields(p.name);
    CountChainFields("reps", p.reps, RepsMessage);
    CountChainFields("weight", p.weight, WeightMessage);
    UnitChainFields(p.unit);
    DateChainFields(p.date, dateMessage);
  }

  /** Every error of the five chains names the chain's own field. */
  lemma ChainsTagged(p: Payload, dateMessage: string)
    ensures forall e | e in NameErrors(p.name) :: e.field == "name"
    ensures forall e | e in CountErrors("reps", p.reps, RepsMessage) :: e.field == "reps"
    ensures forall e | e in CountErrors("weight", p.weight, WeightMessage) :: e.field == "weight"
    ensures forall e | e in UnitErrors(p.unit) :: e.field == "unit"
    ensures forall e | e in DateErrors(p.date, dateMessage) :: e.field == "date"
  {
  }

  /** The chains' errors hold the unit error exactly when the unit is invalid. */
  lemma ChainErrorsUnitMessage(p: Payload, dateMessage: string)
    ensures ValidationError("unit", UnitRuleMessage) in ChainErrors(p, dateMessage) <==> !UnitValid(p.unit)
  {
    var u := ValidationError("unit", UnitRuleMessage);
    var a := NameErrors(p.name);
    var b := CountErrors("reps", p.reps, RepsMessage);
    var c := CountErrors("weight", p.weight, WeightMessage);
    var d := UnitErrors(p.unit);
    var e := DateErrors(p.date, dateMessage);
    assert ChainErrors(p, dateMessage) == a + b + c + d + e;
    ChainsTagged(p, dateMessage);
    UnitChainFields(p.unit);
    assert u !in a && u !in b && u !in c && u !in e;
  }

  /** The chains' errors hold the date format error exactly when the date is invalid. */
  lemma ChainErrorsDateMessage(p: Payload, dateMessage: string)
    ensures ValidationError("date", DateRuleMessage) in ChainErrors(p, dateMessage) <==> !DateValid(p.date)
  {
    var t := ValidationError("date", DateRuleMessage);
    var a := NameErrors(p.name);
    var b := CountErrors("reps", p.reps, RepsMessage);
    var c := CountErrors("weight", p.weight, WeightMessage);
    var d := UnitErrors(p.unit);
    var e := DateErrors(p.date, dateMessage);
    assert ChainErrors(p, dateMessage) == a + b + c + d + e;
    ChainsTagged(p, dateMessage);
    DateChainFields(p.date, dateMessage);
    assert t !in a && t !in b && t !in c && t !in d;
  }

  /**
   * The error list names exactly the invalid fields, so every entry names
   * one of the five fields; it holds "Unit must be kgs or lbs" exactly when
   * the unit is neither "kgs" nor "lbs", and "Invalid date format" exactly
   * when the date is invalid.
   */
  lemma ValidateReports(p: Payload, dateMessage: string)
    ensures FieldsOf(Validate(p, dateMessage)) == InvalidFields(p)
    ensures ValidationError("unit", UnitRuleMessage) in Validate(p, dateMessage) <==> !UnitValid(p.unit)
    ensures ValidationError("date", DateRuleMessage) in Validate(p, dateMessage) <==> !DateValid(p.date)
  {
    if PayloadValid(p) {
      assert Validate(p, dateMessage) == [];
    } else {
      assert Validate(p, dateMessage) == ChainErrors(p, dateMessage);
      ChainErrorsFields(p, dateMessage);
      ChainErrorsUnitMessage(p, dateMessage);
      ChainErrorsDateMessage(p, dateMessage);
    }
  }

  // ---------------------------------------------------------------------
  // Examples.

  /** "Squats" is a name of letters. */
  lemma SquatsIsAName()
    ensures NameValid("Squats")
  {
    var l := "Squats";
    assert IsAsciiLetter(l[0]);
    assert forall i :: 0 <= i < |l| ==> IsAsciiLetter(l[i]);
  }

  /** The body of a well-formed request passes every chain. */
  lemma SquatsAccepted()
    ensures Validate(Payload("Squats", Some(10), Some(150), "lbs", "04-05-23"), PostDateMessage) == []
  {
    SquatsIsAName();
    DateExamples();
  }

  /**
   * A body that breaks only the unit rule is rejected with the unit error
   * alone: any unit other than "kgs" or "lbs" yields "Unit must be kgs or lbs".
   */
  lemma StonesRejected()
    ensures Validate(Payload("Squats", Some(10), Some(150), "stones", "04-05-23"), PostDateMessage)
            == [ValidationError("unit", UnitRuleMessage)]
  {
    var p := Payload("Squats", Some(10), Some(150), "stones", "04-05-23");
    SquatsIsAName();
    DateExamples();
    assert NameErrors(p.name) == [];
    assert CountErrors("reps", p.reps, RepsMessage) == [];
    assert CountErrors("weight", p.weight, WeightMessage) == [];
    assert UnitErrors(p.unit) == [ValidationError("unit", UnitRuleMessage)];
    assert DateErrors(p.date, PostDateMessage) == [];
    assert !PayloadValid(p);
  }

  /** An empty body fails every validator of every chain, in declaration order. */
  lemma EmptyBodyErrors()
    ensures Validate(Payload("", None, None, "", ""), PutDateMessage) == [
      ValidationError("name", NameMessage), ValidationError("name", NameMessage),
      ValidationError("reps", RepsMessage), ValidationError("reps", RepsMessage),
      ValidationError("weight", WeightMessage), ValidationError("weight", WeightMessage),
      ValidationError("unit", UnitMessage), ValidationError("unit", UnitRuleMessage),
      ValidationError("date", PutDateMessage), ValidationError("date", DateRuleMessage)]
  {
    DateExamples();
  }
}

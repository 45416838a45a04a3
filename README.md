# Exercise log API: a Dafny model

This project models the request-handling core of a small HTTP service. The
service keeps an exercise log: one collection of records, each with a name,
reps, weight, unit and date. It exposes `GET /`, `GET /exercises`,
`POST /exercises` and `GET`/`PUT`/`DELETE /exercises/:_id`.

The model covers three parts:

- `date_validation.dfy` (module `DateValidation`) models `isDateValid`, the
  MM-DD-YY shape check. The source tests the JavaScript regular expression
  `/^\d\d-\d\d-\d\d$/`. The model is a character-level predicate. It is proved
  equal, in both directions, to two independent definitions:
  - an anchored match of the regular expression's atoms;
  - the "MM-DD-YY of 2-digit integers" shape promised by the doc comment.
- `field_validation.dfy` (module `FieldValidation`) models the validator
  chains that guard POST and PUT. These are the project's two custom rules
  (unit and date) and the error list they produce together with the library
  rules.
- `router.dfy` (module `Router`) models the route handlers as a per-request
  state machine, `Handle`, over an abstract collection (`map<Id, Exercise>`
  plus the next identifier the store will assign). The class `ExerciseApi`
  holds the collection as fields that its route methods update in place.
  Each route method is proved to agree with `Handle`.
- `router_properties.dfy` (module `RouterProperties`) proves properties of
  `Handle`:
  - the meaning of each status code;
  - the collection invariant, kept by every route and by any sequence of
    requests;
  - what a later request sees after POST, PUT or DELETE.

Modelling choices:

- Validation runs before any lookup. So a PUT with an invalid body answers
  400 whether or not the record exists.
- No chain calls `bail()`, so every failing validator adds one error. Errors
  are collected in the order the chains are declared.
- A custom validator that throws reports the message of the error it threw.
- The date chain's default message differs between the routes: `invalid` on
  POST, `Invalid date` on PUT.
- The store's identifiers are modelled as natural numbers from a counter. A
  deleted identifier is never handed out again.

Where the design description and the code disagree, the model follows the
code:

- PUT requires every field to be present and valid, and replaces all five
  fields. It does not do a partial update.
- A malformed identifier is not a clean "not found" in the code: the
  database driver rejects it and the rejection goes unhandled. The model has
  no malformed identifiers (see Left out).

## Model

| member | source | states |
|---|---|---|
| DateValidation.AnchoredMatchPointwise | validation/date_validation.ts:9 | A regex `^p$` of single-character atoms with no flags matches exactly the strings as long as `p` whose every character matches its atom, so no trailing newline is allowed |
| DateValidation.DateValidIsRegexTest | validation/date_validation.ts:6-11 | `IsDateValid(s)` holds if and only if `/^\d\d-\d\d-\d\d$/` matches `s` |
| DateValidation.DateValidIsMmDdYy | validation/date_validation.ts:1-11 | `IsDateValid(s)` holds if and only if `s` is some MM, "-", DD, "-", YY with each part two ASCII digits (sound and complete) |
| DateValidation.DateValidShape | validation/date_validation.ts:9 | An accepted date has length 8, '-' at positions 2 and 5, and an ASCII digit at every other position |
| DateValidation.NoCalendarCheck | validation/date_validation.ts:4-10 | There is no range check: "99-99-99", "00-00-00" and "13-32-00" are accepted |
| DateValidation.DateExamples | validation/date_validation.ts:4-10 | "04-05-23" is accepted; "4-5-23", "2023-04-05", "04/05/23", a trailing newline, a leading space and "" are rejected |
| FieldValidation.UnitRule | index.ts:42-47 | The unit rule yields no error exactly for "kgs" and "lbs"; otherwise it yields "Unit must be kgs or lbs" |
| FieldValidation.DateRuleIsRegexTest | index.ts:48-52 | The date rule yields no error exactly when `/^\d\d-\d\d-\d\d$/` matches the date; otherwise it yields "Invalid date format" |
| FieldValidation.InvalidFields | index.ts:38-52 | The invalid fields of a body are among the five schema fields, and there are none exactly when every field is valid |
| FieldValidation.NameErrors | index.ts:39 | The name chain adds no error exactly when the name is non-empty letters and spaces with at least one letter |
| FieldValidation.CountErrors | index.ts:40-41 | The reps and weight chains add no error exactly when the count is present and at least 1 |
| FieldValidation.UnitErrors | index.ts:42-47 | The unit chain adds no error exactly for "kgs" or "lbs" |
| FieldValidation.DateErrors | index.ts:48-52 | The date chain adds no error exactly for an MM-DD-YY date |
| FieldValidation.NameChainFields | index.ts:39 | Every error of the name chain concerns the name, and there is one exactly when the name is invalid |
| FieldValidation.CountChainFields | index.ts:40-41 | Every error of a count chain concerns its own field, and there is one exactly when the count is invalid |
| FieldValidation.UnitChainFields | index.ts:42-47 | Every error of the unit chain concerns the unit; it holds "Unit must be kgs or lbs" exactly when the unit is neither "kgs" nor "lbs" |
| FieldValidation.DateChainFields | index.ts:48-52 | Every error of the date chain concerns the date; it holds "Invalid date format" exactly when the date is not MM-DD-YY |
| FieldValidation.ChainErrors | index.ts:38-52 | The five chains together add no error exactly when the whole body is valid |
| FieldValidation.ChainErrorsFields | index.ts:38-52 | The fields named by the five chains' errors are exactly the invalid fields |
| FieldValidation.ChainErrorsUnitMessage | index.ts:38-52 | The five chains' errors hold the unit error exactly when the unit is invalid; no other chain produces it |
| FieldValidation.ChainErrorsDateMessage | index.ts:38-52 | The five chains' errors hold the date format error exactly when the date is invalid; no other chain produces it |
| FieldValidation.Validate | index.ts:38-59 | The validation result is empty exactly when all five fields are valid |
| FieldValidation.ValidateReports | index.ts:38-59 | The validation result names exactly the invalid fields, and holds the unit and date messages exactly when those rules fail |
| FieldValidation.SquatsAccepted | index.ts:38-52 | The body {Squats, 10, 150, lbs, 04-05-23} passes every chain |
| FieldValidation.StonesRejected | index.ts:42-47 | The same body with unit "stones" fails with exactly one error: the unit error "Unit must be kgs or lbs" |
| FieldValidation.EmptyBodyErrors | index.ts:86-100 | An empty PUT body fails every validator of every chain, in declaration order, with the PUT date chain's message |
| Router.FromPayload | index.ts:65-66 | The record written from a valid body meets every field constraint of the data model |
| Router.ExerciseApi.GetRoot | index.ts:23-25 | GET / always answers 200 with {Message: "Loud and clear"} |
| Router.ExerciseApi.GetExercises | index.ts:29-32 | GET /exercises always answers 200 with the whole collection |
| Router.ExerciseApi.PostExercise | index.ts:53-69 | POST answers 400 exactly when validation fails, leaving the collection unchanged. Otherwise it stores the record under a fresh identifier and answers 201 with it. The invariant is kept |
| Router.ExerciseApi.GetExercise | index.ts:73-81 | GET by id answers 404 {Error: "Not found"} when the record is absent, else 200 with the record |
| Router.ExerciseApi.PutExercise | index.ts:101-123 | PUT answers 400 exactly when validation fails, 404 exactly when valid but absent, and else replaces the record and answers 200 with it. Only the 200 case changes the collection |
| Router.ExerciseApi.DeleteExercise | index.ts:127-135 | DELETE answers 404 and changes nothing when the record is absent. Otherwise it removes exactly that record and answers 204 with it |
| RouterProperties.WriteErrors | index.ts:38-59 | A POST or PUT body has no validation errors exactly when all five fields are valid |
| RouterProperties.StatusCodes | index.ts:23-135 | Every status is 200, 201, 204, 400 or 404. 400 means a POST or PUT with validation errors. 404 means `{Error: "Not found"}` on an absent record past validation. 201 means a created record, 204 a deleted one. Error responses never change the collection |
| RouterProperties.ReadsChangeNothing | index.ts:23-81 | GET /, GET /exercises and GET /exercises/:_id leave the collection unchanged |
| RouterProperties.CreateKeepsInvariant | index.ts:53-69 | POST keeps the invariant: only a validated record is added, under an identifier not yet in use |
| RouterProperties.UpdateKeepsInvariant | index.ts:101-123 | PUT keeps the invariant: a record is replaced only by a validated one |
| RouterProperties.RemoveKeepsInvariant | index.ts:127-135 | DELETE keeps the invariant |
| RouterProperties.HandleKeepsInvariant | index.ts:23-135 | Every route keeps the invariant: every identifier in use is below the next one, and every stored record meets the field constraints |
| RouterProperties.RunKeepsInvariant | index.ts:23-135 | The invariant holds after any sequence of requests |
| RouterProperties.RunNextIdGrows | index.ts:64-67 | The next identifier never decreases over any sequence of requests |
| RouterProperties.CreateThenRead | index.ts:64-80 | A valid POST stores the body's fields under a fresh identifier and leaves earlier records untouched; a later GET of that identifier answers 200 with the same record |
| RouterProperties.UpdateThenRead | index.ts:107-118 | A valid PUT on a present record replaces its fields and touches no other record; a later GET answers 200 with the new fields |
| RouterProperties.UpdateIdempotent | index.ts:110-118 | Repeating the same PUT leaves the collection as the first one did |
| RouterProperties.RemoveThenRead | index.ts:127-134 | After DELETE the record is gone and the others are untouched; a later GET or DELETE of that identifier answers 404 |
| RouterProperties.Scenario | index.ts:38-80 | POST of the squat body answers 201 with its fields. POST with unit "stones" answers 400 with only the unit error and changes nothing. GET of an unused identifier answers 404 |

## Left out

- Database connection and startup are I/O and configuration. This covers `mongoose.connect`, the "open" log line, environment loading and `app.listen` (index.ts:10-21, 137-139).
- The persistence functions of models/exercises_model.ts and exercises_model.mjs are not part of this model. They are one-line delegations to the database driver. The collection is an abstract map. `findByIdAndUpdate` with `{new: true}` is taken only as "the updated record, or nothing".
- Store-assigned ObjectIds are modelled as natural numbers from a counter. Malformed identifiers are left out: the driver rejects them with an error the code does not handle.
- Store failures (unreachable store, rejected writes) have no response in the code and are left out. So are `asyncHandler` and async scheduling.
- The library validators are simplified, because their parsing rules are library behaviour:
  - `notEmpty` is "not the empty string";
  - `isAlpha('en-US', {ignore: ' '})` is "only ASCII letters and spaces, at least one letter";
  - `isInt({min: 1})` is "a whole number at least 1".
- The body's shape is simplified. An absent text field is the empty string. Reps and weight are whole numbers or absent. Non-string JSON values, fractional or textual counts, and extra body fields are not modelled.
- The loose `!=` comparison of the unit rule on non-string values is left out. The unit is always a string here.
- `check(...)` reads fields from every request location, not only the body. The model reads the body only.
- The exact shape of express-validator's error objects (value, location, type) is left out. An error is its field and its message.
- Express drops the body of a 204 response on the wire. The model keeps the deleted record that the code passes to `send`.
- Console logging of validation errors (index.ts:61) is left out.
- `GET /exercises` returns the collection as a map. The order in which the store lists records is not modelled.

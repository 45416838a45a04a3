/**
 * The route handlers of index.ts over the exercise collection.
 *
 * The collection is a map from identifiers to records; `nextId` stands for
 * the store's assignment of fresh identifiers on creation. `Handle` is the
 * per-request state machine: a request and the collection before it give
 * the collection after it and the response (status and JSON body). The
 * class `ExerciseApi` holds the collection as fields that its route
 * methods update in place, each proved to behave as `Handle` says.
 */
module Router {
  import opened Wrappers
  import opened DateValidation
  import opened FieldValidation

  /** A record's identifier, assigned by the store when the record is created. */
  type Id = nat

  /** One stored exercise: the five fields of the schema. */
  datatype Exercise = Exercise(name: string, reps: int, weight: int, unit: string, date: string)

  /** The body of a response. */
  datatype Body =
    | Message(message: string)                     // {Message: ...}
    | Error(error: string)                         // {Error: ...}
    | Errors(errors: seq<ValidationError>)         // {errors: [...]}
    | Document(id: Id, exercise: Exercise)         // one record with its _id
    | Collection(exercises: map<Id, Exercise>)     // the whole collection

  datatype Response = Response(status: int, body: Body)

  const RootMessage := "Loud and clear"
  const NotFoundMessage := "Not found"
  const NotFound := Response(404, Error(NotFoundMessage))

  /** The collection and the identifier the store will assign next. */
  datatype Store = Store(exercises: map<Id, Exercise>, nextId: Id)

  /** The six routes; `body` is the parsed request body. */
  datatype Request =
    | Root                          // GET /
    | List                          // GET /exercises
    | Create(body: Payload)         // POST /exercises
    | Read(id: Id)                  // GET /exercises/:_id
    | Update(id: Id, body: Payload) // PUT /exercises/:_id
    | Remove(id: Id)                // DELETE /exercises/:_id

  datatype Outcome = Outcome(store: Store, response: Response)

  /** A stored record meets the field constraints of the data model. */
  predicate ExerciseValid(e: Exercise) {
    && NameValid(e.name)
    && e.reps >= 1
    && e.weight >= 1
    && UnitValid(e.unit)
    && DateValid(e.date)
  }

  /**
   * The collection's invariant: every identifier in use is below the next
   * one to be assigned, and every record meets the field constraints.
   */
  ghost predicate StoreInvariant(s: Store) {
    forall id :: id in s.exercises ==> id < s.nextId && ExerciseValid(s.exercises[id])
  }

  /**
   * The record `addExercise` and `updateExercise` write from a body whose
   * counts are present; its fields are the body's.
   */
  function FromPayload(p: Payload): (e: Exercise)
    requires p.reps.Some? && p.weight.Some?
    ensures PayloadValid(p) ==> ExerciseValid(e)
  {
    Exercise(p.name, p.reps.value, p.weight.value, p.unit, p.date)
  }

  /** POST /exercises: validate the body, then add the record under a fresh identifier. */
  function HandleCreate(s: Store, p: Payload): Outcome {
    var errors := Validate(p, PostDateMessage);
    if errors != [] then
      Outcome(s, Response(400, Errors(errors)))
    else
      var e := FromPayload(p);
      Outcome(Store(s.exercises[s.nextId := e], s.nextId + 1), Response(201, Document(s.nextId, e)))
  }

  /** GET /exercises/:_id. */
  function HandleRead(s: Store, id: Id): Outcome {
    if id !in s.exercises then Outcome(s, NotFound)
    else Outcome(s, Response(200, Document(id, s.exercises[id])))
  }

  /** PUT /exercises/:_id: validate the body first, then look the record up and replace it. */
  function HandleUpdate(s: Store, id: Id, p: Payload): Outcome {
    var errors := Validate(p, PutDateMessage);
    if errors == [] then
      if id !in s.exercises then Outcome(s, NotFound)
      else
        var e := FromPayload(p);
        Outcome(Store(s.exercises[id := e], s.nextId), Response(200, Document(id, e)))
    else
      Outcome(s, Response(400, Errors(errors)))
  }

  /** DELETE /exercises/:_id. */
  function HandleRemove(s: Store, id: Id): Outcome {
    if id !in s.exercises then Outcome(s, NotFound)
    else Outcome(Store(s.exercises - {id}, s.nextId), Response(204, Document(id, s.exercises[id])))
  }

  /** The state machine of one request. */
  function Handle(s: Store, req: Request): Outcome {
    match req
    case Root => Outcome(s, Response(200, Message(RootMessage)))
    case List => Outcome(s, Response(200, Collection(s.exercises)))
    case Create(p) => HandleCreate(s, p)
    case Read(id) => HandleRead(s, id)
    case Update(id, p) => HandleUpdate(s, id, p)
    case Remove(id) => HandleRemove(s, id)
  }

  /** The service: the collection, updated in place by the route methods. */
  class ExerciseApi {
    var exercises: map<Id, Exercise>
    var nextId: Id

    function State(): Store
      reads this
    {
      Store(exercises, nextId)
    }

    ghost predicate Valid()
      reads this
    {
      StoreInvariant(State())
    }

    /** A service over an existing collection. */
    constructor (exercises: map<Id, Exercise>, nextId: Id)
      requires StoreInvariant(Store(exercises, nextId))
      ensures Valid()
      ensures this.exercises == exercises && this.nextId == nextId
    {
      this.exercises := exercises;
      this.nextId := nextId;
    }

    /** GET /: always 200 with the greeting. */
    method GetRoot() returns (r: Response)
      ensures r == Response(200, Message(RootMessage))
      ensures r == Handle(State(), Root).response
    {
      r := Response(200, Message(RootMessage));
    }

    /** GET /exercises: always 200 with the whole collection. */
    method GetExercises() returns (r: Response)
      ensures r == Response(200, Collection(exercises))
      ensures r == Handle(State(), List).response
    {
      var all := exercises;
      r := Response(200, Collection(all));
    }

    /** POST /exercises: 400 with the errors and nothing written, or 201 with the new record. */
    method PostExercise(body: Payload) returns (r: Response)
      requires Valid()
      modifies this
      ensures Valid()
      ensures Outcome(State(), r) == HandleCreate(old(State()), body)
      ensures r.status == 400 <==> Validate(body, PostDateMessage) != []
      ensures r.status == 400 ==> exercises == old(exercises) && nextId == old(nextId)
      ensures r.status != 400 ==>
                && old(nextId) !in old(exercises)
                && exercises == old(exercises)[old(nextId) := FromPayload(body)]
                && r == Response(201, Document(old(nextId), FromPayload(body)))
    {
      var errors := Validate(body, PostDateMessage);
      if errors != [] {
        r := Response(400, Errors(errors));
      } else {
        var e := FromPayload(body);
        var id := nextId;
        exercises := exercises[id := e];
        nextId := nextId + 1;
        r := Response(201, Document(id, e));
      }
    }

    /** GET /exercises/:_id: 404 when absent, else 200 with the record. */
    method GetExercise(id: Id) returns (r: Response)
      ensures id !in exercises ==> r == NotFound
      ensures id in exercises ==> r == Response(200, Document(id, exercises[id]))
      ensures r == HandleRead(State(), id).response
    {
      if id !in exercises {
        r := NotFound;
      } else {
        r := Response(200, Document(id, exercises[id]));
      }
    }

    /**
     * PUT /exercises/:_id: 400 with the errors whether or not the record
     * exists; otherwise 404 when absent, else the record replaced and 200.
     */
    method PutExercise(id: Id, body: Payload) returns (r: Response)
      requires Valid()
      modifies this
      ensures Valid()
      ensures Outcome(State(), r) == HandleUpdate(old(State()), id, body)
      ensures nextId == old(nextId)
      ensures r.status == 400 <==> Validate(body, PutDateMessage) != []
      ensures r.status == 404 <==> Validate(body, PutDateMessage) == [] && id !in old(exercises)
      ensures r.status != 200 ==> exercises == old(exercises)
      ensures r.status == 200 ==>
                && exercises == old(exercises)[id := FromPayload(body)]
                && r == Response(200, Document(id, FromPayload(body)))
    {
      var errors := Validate(body, PutDateMessage);
      if errors == [] {
        if id !in exercises {
          r := NotFound;
        } else {
          var e := FromPayload(body);
          exercises := exercises[id := e];
          r := Response(200, Document(id, e));
        }
      } else {
        r := Response(400, Errors(errors));
      }
    }

    /** DELETE /exercises/:_id: 404 when absent, else the record removed and 204. */
    method DeleteExercise(id: Id) returns (r: Response)
      requires Valid()
      modifies this
      ensures Valid()
      ensures Outcome(State(), r) == HandleRemove(old(State()), id)
      ensures nextId == old(nextId)
      ensures id !in old(exercises) ==> r == NotFound && exercises == old(exercises)
      ensures id in old(exercises) ==>
                && exercises == old(exercises) - {id}
                && r == Response(204, Document(id, old(exercises)[id]))
    {
      if id !in exercises {
        r := NotFound;
      } else {
        var deleted := exercises[id];
        exercises := exercises - {id};
        r := Response(204, Document(id, deleted));
      }
    }
  }
}

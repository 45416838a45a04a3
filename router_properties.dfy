/**
 * Properties of the route handlers' state machine `Router.Handle`: what
 * each status code means, what the routes leave untouched, the
 * collection's invariant, and what a later request sees after a write.
 */
module RouterProperties {
  import opened Wrappers
  import opened DateValidation
  import opened FieldValidation
  import opened Router

  /** The validation errors of a write request, under its route's date message. */
  function WriteErrors(req: Request): (errors: seq<ValidationError>)
    requires req.Create? || req.Update?
    ensures errors == [] <==> PayloadValid(req.body)
  {
    Validate(req.body, if req.Create? then PostDateMessage else PutDateMessage)
  }

  /** The request names a record: GET, PUT and DELETE on /exercises/:_id. */
  predicate Targets(req: Request) {
    req.Read? || req.Update? || req.Remove?
  }

  /**
   * The status codes and what each means: 400 exactly for a POST or PUT
   * whose body fails validation, checked before the record is looked up;
   * 404 `{Error: "Not found"}` exactly for a request on an absent record
   * that got past validation; otherwise 200, 201 for a created record, or
   * 204 for a deleted one. No error response changes the collection.
   */
  lemma StatusCodes(s: Store, req: Request)
    ensures var o := Handle(s, req);
      && o.response.status in {200, 201, 204, 400, 404}
      && (o.response.status == 400 <==> (req.Create? || req.Update?) && WriteErrors(req) != [])
      && (o.response.status == 400 ==> o.response.body == Errors(WriteErrors(req)))
      && (o.response.status == 404 <==>
            Targets(req) && req.id !in s.exercises && !(req.Update? && WriteErrors(req) != []))
      && (o.response.status == 404 ==> o.response == NotFound)
      && (o.response.status == 201 <==> req.Create? && WriteErrors(req) == [])
      && (o.response.status == 204 <==> req.Remove? && req.id in s.exercises)
      && (o.response.status in {400, 404} ==> o.store == s)
  {
    match req
    case Create(p) =>
      var errors := Validate(p, PostDateMessage);
      assert WriteErrors(req) == errors;
    case Update(id, p) =>
      var errors := Validate(p, PutDateMessage);
      assert WriteErrors(req) == errors;
    case _ =>
  }

  /** GET /, GET /exercises and GET /exercises/:_id never change the collection. */
  lemma ReadsChangeNothing(s: Store, req: Request)
    requires req.Root? || req.List? || req.Read?
    ensures Handle(s, req).store == s
  {
  }

  /** POST keeps the invariant: the new record is validated and its identifier is fresh. */
  lemma CreateKeepsInvariant(s: Store, p: Payload)
    requires StoreInvariant(s)
    ensures StoreInvariant(HandleCreate(s, p).store)
  {
    if Validate(p, PostDateMessage) == [] {
      var t := HandleCreate(s, p).store;
      forall id | id in t.exercises
        ensures id < t.nextId && ExerciseValid(t.exercises[id])
      {
        if id != s.nextId {
          assert id in s.exercises;
        }
      }
    }
  }

  /** PUT keeps the invariant: a record is replaced only by a validated one. */
  lemma UpdateKeepsInvariant(s: Store, id: Id, p: Payload)
    requires StoreInvariant(s)
    ensures StoreInvariant(HandleUpdate(s, id, p).store)
  {
  }

  /** DELETE keeps the invariant. */
  lemma RemoveKeepsInvariant(s: Store, id: Id)
    requires StoreInvariant(s)
    ensures StoreInvariant(HandleRemove(s, id).store)
  {
  }

  /** Every route keeps the collection's invariant: only validated bodies are written. */
  lemma HandleKeepsInvariant(s: Store, req: Request)
    requires StoreInvariant(s)
    ensures StoreInvariant(Handle(s, req).store)
  {
    match req
    case Create(p) => CreateKeepsInvariant(s, p);
    case Update(id, p) => UpdateKeepsInvariant(s, id, p);
    case Remove(id) => RemoveKeepsInvariant(s, id);
    case _ =>
  }

  /** A sequence of requests, each handled on the collection the previous one left. */
  function Run(s: Store, reqs: seq<Request>): (t: Store)
    decreases |reqs|
  {
    if reqs == [] then s else Run(Handle(s, reqs[0]).store, reqs[1..])
  }

  /** The invariant holds after any sequence of requests. */
  lemma {:induction false} RunKeepsInvariant(s: Store, reqs: seq<Request>)
    requires StoreInvariant(s)
    ensures StoreInvariant(Run(s, reqs))
    decreases |reqs|
  {
    if reqs != [] {
      HandleKeepsInvariant(s, reqs[0]);
      RunKeepsInvariant(Handle(s, reqs[0]).store, reqs[1..]);
    }
  }

  /** Identifiers only grow: a deleted record's identifier is never handed out again. */
  lemma {:induction false} RunNextIdGrows(s: Store, reqs: seq<Request>)
    ensures Run(s, reqs).nextId >= s.nextId
    decreases |reqs|
  {
    if reqs != [] {
      RunNextIdGrows(Handle(s, reqs[0]).store, reqs[1..]);
    }
  }

  /**
   * POST then GET: a valid body is stored under a fresh identifier, the
   * response is 201 with the body's fields and that identifier, the earlier
   * records are untouched, and a later GET of the identifier returns the
   * same record with 200.
   */
  lemma CreateThenRead(s: Store, p: Payload)
    requires StoreInvariant(s)
    requires Validate(p, PostDateMessage) == []
    ensures var o := Handle(s, Create(p));
      && o.response.status == 201
      && o.response.body.Document?
      && var id := o.response.body.id;
      && var e := o.response.body.exercise;
      && id !in s.exercises
      && e == Exercise(p.name, p.reps.value, p.weight.value, p.unit, p.date)
      && o.store.exercises.Keys == s.exercises.Keys + {id}
      && (forall k :: k in s.exercises ==> o.store.exercises[k] == s.exercises[k])
      && Handle(o.store, Read(id)).response == Response(200, Document(id, e))
  {
    var e := FromPayload(p);
    var t := Store(s.exercises[s.nextId := e], s.nextId + 1);
    assert Handle(s, Create(p)) == Outcome(t, Response(201, Document(s.nextId, e)));
    assert s.nextId !in s.exercises;
  }

  /**
   * PUT then GET: a valid body on a present record replaces its five
   * fields, touches no other record, and a later GET returns the new fields.
   */
  lemma UpdateThenRead(s: Store, id: Id, p: Payload)
    requires id in s.exercises
    requires Validate(p, PutDateMessage) == []
    ensures var o := Handle(s, Update(id, p));
      && var e := Exercise(p.name, p.reps.value, p.weight.value, p.unit, p.date);
      && o.response == Response(200, Document(id, e))
      && o.store.exercises.Keys == s.exercises.Keys
      && (forall k :: k in s.exercises && k != id ==> o.store.exercises[k] == s.exercises[k])
      && Handle(o.store, Read(id)).response == Response(200, Document(id, e))
  {
    var e := FromPayload(p);
    var t := Store(s.exercises[id := e], s.nextId);
    assert Handle(s, Update(id, p)) == Outcome(t, Response(200, Document(id, e)));
  }

  /** PUT with the same body twice leaves the collection as the first PUT did. */
  lemma UpdateIdempotent(s: Store, id: Id, p: Payload)
    ensures var t := Handle(s, Update(id, p)).store;
      Handle(t, Update(id, p)).store == t
  {
  }

  /**
   * DELETE then GET: the record (if any) is gone, every other record is
   * untouched, and a later GET or DELETE of the identifier answers 404.
   */
  lemma RemoveThenRead(s: Store, id: Id)
    ensures var t := Handle(s, Remove(id)).store;
      && t.exercises.Keys == s.exercises.Keys - {id}
      && (forall k :: k in t.exercises ==> t.exercises[k] == s.exercises[k])
      && Handle(t, Read(id)).response == NotFound
      && Handle(t, Remove(id)).response == NotFound
  {
  }

  /**
   * The example requests: POST of a well-formed squat record gives 201 with
   * its fields; POST with unit "stones" gives 400 with the unit error alone;
   * GET of an identifier that is not in use gives 404.
   */
  lemma Scenario(s: Store)
    requires StoreInvariant(s)
    ensures var squats := Payload("Squats", Some(10), Some(150), "lbs", "04-05-23");
      Handle(s, Create(squats)).response ==
        Response(201, Document(s.nextId, Exercise("Squats", 10, 150, "lbs", "04-05-23")))
    ensures var stones := Payload("Squats", Some(10), Some(150), "stones", "04-05-23");
      Handle(s, Create(stones)) ==
        Outcome(s, Response(400, Errors([ValidationError("unit", UnitRuleMessage)])))
    ensures Handle(s, Read(s.nextId)).response == NotFound
  {
    SquatsAccepted();
    StonesRejected();
  }
}

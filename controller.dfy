/** person.controller.ts: the HTTP routes in front of the service, with the
    search admission checks, the conversion of `newCount` and the mapping of
    errors to responses. */
module Controller {
  import opened Js
  import opened Entity
  import opened Query
  import opened Elastic
  import opened HubSpot
  import opened Service

  const EmptySearchMessage := "At least one search criterion (fName, lName, age, or minCars) must be provided"
  const InvalidAgeMessage := "Invalid age"
  const CreateFailedMessage := "Failed to create person"
  const SearchFailedMessage := "Error occurred during search"
  const UpdateFailedMessage := "Failed to update car count"

  const CreatedMessage := "Person created successfully"
  const SearchResultsMessage := "Search results"
  const UpdatedMessage := "Car count updated successfully"
  const SyncedMessage := "HubSpot contacts synced successfully"

  /** The body of a successful response: a message and the route's result. */
  datatype Reply<T> = Reply(message: string, result: T)

  /** The messages the validation pipe reports for a `Person`, one per violated
      constraint, in field order; none exactly when the person is valid. */
  function ValidationMessages(p: Person): (ms: seq<string>)
    ensures |ms| <= 4
    ensures "fName should not be empty" in ms <==> p.fName == ""
    ensures "lName should not be empty" in ms <==> p.lName == ""
    ensures "dateOfBirth must be a valid ISO 8601 date string" in ms <==> !IsDateString(p.dateOfBirth)
    ensures "countOfOwnedCars must not be less than 0" in ms <==> p.countOfOwnedCars < 0
    ensures forall i, j :: 0 <= i < j < |ms| ==> ms[i] != ms[j]
  {
    (if p.fName == "" then ["fName should not be empty"] else [])
    + (if p.lName == "" then ["lName should not be empty"] else [])
    + (if !IsDateString(p.dateOfBirth) then ["dateOfBirth must be a valid ISO 8601 date string"] else [])
    + (if p.countOfOwnedCars < 0 then ["countOfOwnedCars must not be less than 0"] else [])
  }

  /** The pipe lets a person through exactly when it satisfies the entity's constraints. */
  lemma ValidationMessagesEmpty(p: Person)
    ensures ValidationMessages(p) == [] <==> ValidPerson(p)
    ensures |ValidationMessages(p)| == (if p.fName == "" then 1 else 0) + (if p.lName == "" then 1 else 0)
              + (if IsDateString(p.dateOfBirth) then 0 else 1) + (if p.countOfOwnedCars < 0 then 1 else 0)
  {
  }

  /** The admission checks of the search route: some criterion must be truthy,
      and a truthy age must not be negative (a NaN age is falsy and so never
      reaches the age check). */
  function AdmitSearch(f: Filter): (r: Result<Filter, Error>)
    ensures r.Ok? ==> r.value == f
    ensures r == Err(BadRequest(EmptySearchMessage)) <==> CriteriaCount(f) == 0
    ensures r == Err(BadRequest(InvalidAgeMessage)) <==>
              CriteriaCount(f) > 0 && TruthyNumber(f.age) && f.age.value.value < 0
    ensures r.Ok? || r == Err(BadRequest(EmptySearchMessage)) || r == Err(BadRequest(InvalidAgeMessage))
  {
    if !TruthyString(f.fName) && !TruthyString(f.lName) && !TruthyNumber(f.age) && !TruthyNumber(f.minCars) then
      Err(BadRequest(EmptySearchMessage))
    else if TruthyNumber(f.age) && (f.age.value.NaN? || f.age.value.value < 0) then
      Err(BadRequest(InvalidAgeMessage))
    else
      Ok(f)
  }

  /** An admitted search never sends the empty conjunction, which would match
      every record, and its age, when it has one, is positive: the birth year
      searched lies before the current year. */
  lemma AdmittedFilterNarrowsSearch(f: Filter, currentYear: int)
    requires AdmitSearch(f).Ok?
    ensures BuildQuery(f, currentYear) != []
    ensures TruthyNumber(f.age) ==> f.age.value.value > 0 && currentYear - f.age.value.value < currentYear
  {
    EmptyFilterMatchesAll(f, currentYear);
  }

  /** A NaN age is as good as no age: it neither admits a search nor adds a clause. */
  lemma NaNAgeIgnored(f: Filter, currentYear: int)
    requires f.age == Some(NaN)
    ensures AdmitSearch(f).Ok? <==> AdmitSearch(f.(age := None)).Ok?
    ensures AdmitSearch(f).Err? ==> AdmitSearch(f) == AdmitSearch(f.(age := None))
    ensures BuildQuery(f, currentYear) == BuildQuery(f.(age := None), currentYear)
  {
  }

  /** The `catch` of the create, search and update routes: a BadRequest is
      passed on with its message, anything else becomes an internal error. */
  function MapError(e: Error, fallback: string): (r: Error)
    ensures r.BadRequest? <==> e.BadRequest?
    ensures r.BadRequest? ==> r.message == e.message
    ensures !r.BadRequest? ==> r == InternalServerError(fallback)
  {
    match e
    case BadRequest(message) => BadRequest(message)
    case _ => InternalServerError(fallback)
  }

  /** A client only ever sees a 400 or a 500 from these routes, and mapping
      again changes nothing. */
  lemma MapErrorSettles(e: Error, fallback: string)
    ensures MapError(e, fallback).BadRequest? || MapError(e, fallback).InternalServerError?
    ensures MapError(MapError(e, fallback), fallback) == MapError(e, fallback)
  {
  }

  /** `Number(newCount)`: a missing parameter is NaN. */
  function CountArgument(newCount: Option<string>): (n: Number)
    ensures newCount.None? ==> n == NaN
  {
    ToNumber(newCount)
  }

  /** The text of every integer, negative ones included, converts to that integer. */
  lemma CountArgumentOfInteger(n: int)
    ensures CountArgument(Some(DecimalString(n))) == Finite(n)
  {
    ToNumberOfDecimalString(n);
  }

  /** A parameter with a letter or other sign in it converts to NaN. */
  lemma CountArgumentRejectsText(s: string, i: nat)
    requires i < |s| && !IsDigit(s[i]) && !IsSpace(s[i]) && s[i] != '-' && s[i] != '+'
    ensures CountArgument(Some(s)) == NaN
  {
    ToNumberRejectsNonNumeric(Some(s), i);
  }

  class PersonController {
    const service: PersonService

    constructor (service: PersonService)
      ensures this.service == service
    {
      this.service := service;
    }

    /** `POST /person`: the validation pipe, then the service. */
    method CreatePerson(p: Person, parseDate: string -> Option<int>, now: int) returns (r: Result<Reply<Id>, Error>)
      requires service.es.Valid()
      modifies service.es
      ensures service.es.Valid()
      ensures !ValidPerson(p) ==> r == Err(ValidationFailed(ValidationMessages(p))) && service.es.docs == old(service.es.docs)
      ensures ValidPerson(p) && parseDate(p.dateOfBirth).None? ==>
                r == Err(BadRequest(InvalidDateMessage)) && service.es.docs == old(service.es.docs)
      ensures ValidPerson(p) && parseDate(p.dateOfBirth).Some? && parseDate(p.dateOfBirth).value > now ==>
                r == Err(BadRequest(FutureDateMessage)) && service.es.docs == old(service.es.docs)
      ensures ValidPerson(p) && parseDate(p.dateOfBirth).Some? && parseDate(p.dateOfBirth).value <= now ==>
                && r.Ok? && r.value.message == CreatedMessage
                && r.value.result !in old(service.es.docs)
                && service.es.docs == old(service.es.docs)[r.value.result := PersonDoc(p)]
    {
      ValidationMessagesEmpty(p);
      if !ValidPerson(p) {
        return Err(ValidationFailed(ValidationMessages(p)));
      }
      var created := service.CreatePerson(p, parseDate, now);
      match created
      case Err(e) => r := Err(MapError(e, CreateFailedMessage));
      case Ok(id) => r := Ok(Reply(CreatedMessage, id));
    }

    /** `GET /person/search`: admission, then the service with the filter unchanged. */
    method SearchPerson(f: Filter, currentYear: int) returns (r: Result<Reply<seq<Hit>>, Error>)
      ensures AdmitSearch(f).Err? ==> r == Err(AdmitSearch(f).error)
      ensures AdmitSearch(f).Ok? && !BoundsParse(service.es.sem, BuildQuery(f, currentYear)) ==>
                r == Err(InternalServerError(SearchFailedMessage))
      ensures AdmitSearch(f).Ok? && BoundsParse(service.es.sem, BuildQuery(f, currentYear)) ==>
                && r.Ok? && r.value.message == SearchResultsMessage
                && SearchResult(service.es.sem, service.es.docs, BuildQuery(f, currentYear), r.value.result)
    {
      var admitted := AdmitSearch(f);
      if admitted.Err? {
        return Err(MapError(admitted.error, SearchFailedMessage));
      }
      var found := service.SearchPerson(admitted.value, currentYear);
      match found
      case Err(e) => r := Err(MapError(e, SearchFailedMessage));
      case Ok(hits) => r := Ok(Reply(SearchResultsMessage, hits));
    }

    /** `PUT /person`: converts `newCount` with `Number` and updates the car
        count. No pipe guards this route, so a negative count is stored. */
    method UpdateCarCount(personId: Id, newCount: Option<string>) returns (r: Result<Reply<Id>, Error>)
      requires service.es.Valid()
      modifies service.es
      ensures service.es.Valid()
      ensures CountArgument(newCount).NaN? ==>
                r == Err(BadRequest(InvalidCountMessage)) && service.es.docs == old(service.es.docs)
      ensures CountArgument(newCount).Finite? && personId in old(service.es.docs) ==>
                && r == Ok(Reply(UpdatedMessage, personId))
                && service.es.docs == old(service.es.docs)[personId :=
                     old(service.es.docs)[personId].(countOfOwnedCars := Some(CountArgument(newCount).value))]
      ensures CountArgument(newCount).Finite? && personId !in old(service.es.docs) ==>
                r == Err(InternalServerError(UpdateFailedMessage)) && service.es.docs == old(service.es.docs)
    {
      var updated := service.UpdateCarCount(personId, CountArgument(newCount));
      match updated
      case Err(e) => r := Err(MapError(e, UpdateFailedMessage));
      case Ok(id) => r := Ok(Reply(UpdatedMessage, id));
    }

    /** `POST /person/sync-contacts`: every failure of the sync is reported as
        one internal error. */
    method SyncHubSpotContacts(crm: seq<Response>, currentYear: int)
      returns (r: Result<Reply<()>, Error>, requests: seq<Request>,
               ghost trace: seq<map<Id, Doc>>, ghost merged: seq<ContactInfo>, ghost targets: seq<Id>)
      requires service.es.Valid()
      modifies service.es
      ensures service.es.Valid()
      ensures requests == SyncRun(crm).requests && merged == SyncRun(crm).merged
      ensures r.Err? <==> SyncRun(crm).failed
      ensures r.Err? ==> r.error == InternalServerError(SyncFailureMessage)
      ensures r.Ok? ==> r.value.message == SyncedMessage
      ensures Reconciled(service.es.sem, trace, merged, targets)
      ensures trace[0] == old(service.es.docs) && trace[|merged|] == service.es.docs
    {
      var synced;
      synced, requests, trace, merged, targets := service.SyncHubSpotContacts(crm, currentYear);
      if synced.Err? {
        r := Err(InternalServerError(SyncFailureMessage));
      } else {
        r := Ok(Reply(SyncedMessage, ()));
      }
    }
  }
}

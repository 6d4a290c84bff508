/** The `people` index of the document store, held in memory: documents under
    store-assigned ids, with index, partial update and conjunctive search. */
module Elastic {
  import opened Js
  import opened Query

  type Id = nat

  /** A search returns at most this many hits unless a size is asked for. */
  const MaxHits: nat := 10

  /** A stored document. A field is `None` when the document does not have it:
      fields whose value is `undefined` are dropped when a document is serialised. */
  datatype Doc = Doc(
    fName: Option<string>,
    lName: Option<string>,
    email: Option<string>,
    dateOfBirth: Option<string>,
    countOfOwnedCars: Option<int>)

  datatype Hit = Hit(id: Id, source: Doc)

  datatype StoreFault =
    | DocumentMissing(id: Id)   // update of an id the index does not hold
    | QueryParseError           // a range bound the engine cannot read as a date

  /** The engine's own judgements, left abstract: whether a field's text matches
      the query text (full-text analysis), and the instant a date string denotes. */
  datatype Semantics = Semantics(matches: (string, string) -> bool, dateValue: string -> Option<int>)

  function FieldText(d: Doc, f: Field): Option<string> {
    match f
    case FName => d.fName
    case LName => d.lName
  }

  /** Whether a document satisfies one clause. */
  predicate Satisfies(sem: Semantics, d: Doc, c: Clause) {
    match c
    case Match(f, text) =>
      FieldText(d, f).Some? && sem.matches(FieldText(d, f).value, text)
    case DateRange(gte, lte) =>
      && d.dateOfBirth.Some?
      && var v, lo, hi := sem.dateValue(d.dateOfBirth.value), sem.dateValue(gte), sem.dateValue(lte);
         v.Some? && lo.Some? && hi.Some? && lo.value <= v.value <= hi.value
    case CarsAtLeast(min) =>
      d.countOfOwnedCars.Some? && d.countOfOwnedCars.value >= min
  }

  /** Whether a document satisfies every clause of a `bool.must` list. */
  predicate SatisfiesAll(sem: Semantics, d: Doc, q: seq<Clause>) {
    forall i :: 0 <= i < |q| ==> Satisfies(sem, d, q[i])
  }

  /** Whether the engine can read every date bound of the query. */
  predicate BoundsParse(sem: Semantics, q: seq<Clause>) {
    forall i :: 0 <= i < |q| && q[i].DateRange? ==>
      sem.dateValue(q[i].gte).Some? && sem.dateValue(q[i].lte).Some?
  }

  /** The ids of the documents that satisfy the query. */
  function Matching(sem: Semantics, docs: map<Id, Doc>, q: seq<Clause>): set<Id> {
    set id | id in docs && SatisfiesAll(sem, docs[id], q)
  }

  function HitIds(hits: seq<Hit>): set<Id> {
    set h | h in hits :: h.id
  }

  /** What a successful search returns: distinct matching documents with their
      current sources, at most `MaxHits` of them, and all of them when fewer
      than `MaxHits` are returned. The order is the engine's. */
  predicate SearchResult(sem: Semantics, docs: map<Id, Doc>, q: seq<Clause>, hits: seq<Hit>) {
    && |hits| <= MaxHits
    && (forall i :: 0 <= i < |hits| ==> hits[i].id in docs && hits[i].source == docs[hits[i].id])
    && (forall i, j :: 0 <= i < j < |hits| ==> hits[i].id != hits[j].id)
    && HitIds(hits) <= Matching(sem, docs, q)
    && (|hits| < MaxHits ==> HitIds(hits) == Matching(sem, docs, q))
  }

  /** Appending a hit adds its id. */
  lemma HitIdsSnoc(hits: seq<Hit>, h: Hit)
    ensures HitIds(hits + [h]) == HitIds(hits) + {h.id}
  {
    var more := hits + [h];
    forall x | x in HitIds(more) ensures x in HitIds(hits) + {h.id} {
      var g :| g in more && g.id == x;
      if g != h { assert g in hits; }
    }
    assert h in more;
    forall x | x in HitIds(hits) ensures x in HitIds(more) {
      var g :| g in hits && g.id == x;
      assert g in more;
    }
  }

  /** A partial update: the fields the patch has replace those of the document;
      the others are left as they are. */
  function Merge(d: Doc, patch: Doc): (r: Doc)
    ensures patch.fName.Some? ==> r.fName == patch.fName
    ensures patch.fName.None? ==> r.fName == d.fName
    ensures patch.lName.Some? ==> r.lName == patch.lName
    ensures patch.lName.None? ==> r.lName == d.lName
    ensures patch.email.Some? ==> r.email == patch.email
    ensures patch.email.None? ==> r.email == d.email
    ensures patch.dateOfBirth.Some? ==> r.dateOfBirth == patch.dateOfBirth
    ensures patch.dateOfBirth.None? ==> r.dateOfBirth == d.dateOfBirth
    ensures patch.countOfOwnedCars.Some? ==> r.countOfOwnedCars == patch.countOfOwnedCars
    ensures patch.countOfOwnedCars.None? ==> r.countOfOwnedCars == d.countOfOwnedCars
  {
    Doc(
      if patch.fName.Some? then patch.fName else d.fName,
      if patch.lName.Some? then patch.lName else d.lName,
      if patch.email.Some? then patch.email else d.email,
      if patch.dateOfBirth.Some? then patch.dateOfBirth else d.dateOfBirth,
      if patch.countOfOwnedCars.Some? then patch.countOfOwnedCars else d.countOfOwnedCars)
  }

  /** Two partial updates in a row are one update with the second patch laid
      over the first. */
  lemma MergeComposes(d: Doc, first: Doc, second: Doc)
    ensures Merge(Merge(d, first), second) == Merge(d, Merge(first, second))
  {
  }

  /** Applying the same partial update twice is applying it once. */
  lemma MergeIdempotent(d: Doc, patch: Doc)
    ensures Merge(Merge(d, patch), patch) == Merge(d, patch)
  {
  }

  /** The conjunction a filter builds means each truthy criterion on its own:
      the names match, the date of birth lies in the birth year, the car count
      reaches the minimum. With no truthy criterion every document matches. */
  lemma {:induction false} QueryMeaning(sem: Semantics, d: Doc, f: Filter, currentYear: int)
    ensures SatisfiesAll(sem, d, BuildQuery(f, currentYear)) <==>
      && (TruthyString(f.fName) ==> Satisfies(sem, d, Match(FName, f.fName.value)))
      && (TruthyString(f.lName) ==> Satisfies(sem, d, Match(LName, f.lName.value)))
      && (TruthyNumber(f.age) ==> Satisfies(sem, d, AgeClause(f.age.value.value, currentYear)))
      && (TruthyNumber(f.minCars) ==> d.countOfOwnedCars.Some? && d.countOfOwnedCars.value >= f.minCars.value.value)
  {
    var q := BuildQuery(f, currentYear);
    if SatisfiesAll(sem, d, q) {
      if TruthyString(f.fName) { InQuery(sem, d, q, Match(FName, f.fName.value)); }
      if TruthyString(f.lName) { InQuery(sem, d, q, Match(LName, f.lName.value)); }
      if TruthyNumber(f.age) { InQuery(sem, d, q, AgeClause(f.age.value.value, currentYear)); }
      if TruthyNumber(f.minCars) { InQuery(sem, d, q, CarsAtLeast(f.minCars.value.value)); }
    }
  }

  lemma InQuery(sem: Semantics, d: Doc, q: seq<Clause>, c: Clause)
    requires SatisfiesAll(sem, d, q) && c in q
    ensures Satisfies(sem, d, c)
  {
    var i :| 0 <= i < |q| && q[i] == c;
  }

  /** The index: a map from ids to documents, and the next id to hand out. */
  class Store {
    const sem: Semantics
    var docs: map<Id, Doc>
    var nextId: Id

    /** Every stored id was handed out before `nextId`. */
    ghost predicate Valid()
      reads this
    {
      forall id :: id in docs ==> id < nextId
    }

    constructor (sem: Semantics)
      ensures Valid() && this.sem == sem && docs == map[]
    {
      this.sem := sem;
      docs := map[];
      nextId := 0;
    }

    /** Stores a document under a fresh id. */
    method Index(d: Doc) returns (id: Id)
      requires Valid()
      modifies this
      ensures Valid()
      ensures id !in old(docs) && docs == old(docs)[id := d]
    {
      id := nextId;
      docs := docs[id := d];
      nextId := nextId + 1;
    }

    /** Merges a partial document into the document stored under `id`. */
    method Update(id: Id, patch: Doc) returns (r: Result<Id, StoreFault>)
      requires Valid()
      modifies this
      ensures Valid()
      ensures id in old(docs) ==> r == Ok(id) && docs == old(docs)[id := Merge(old(docs)[id], patch)]
      ensures id !in old(docs) ==> r == Err(DocumentMissing(id)) && docs == old(docs)
    {
      if id in docs {
        docs := docs[id := Merge(docs[id], patch)];
        r := Ok(id);
      } else {
        r := Err(DocumentMissing(id));
      }
    }

    /** Runs a `bool.must` query; fails when a date bound cannot be read. */
    method Search(q: seq<Clause>) returns (r: Result<seq<Hit>, StoreFault>)
      ensures r.Err? <==> !BoundsParse(sem, q)
      ensures r.Err? ==> r.error == QueryParseError
      ensures r.Ok? ==> SearchResult(sem, docs, q, r.value)
    {
      if !BoundsParse(sem, q) {
        return Err(QueryParseError);
      }
      var rest := docs.Keys;
      var hits: seq<Hit> := [];
      while rest != {} && |hits| < MaxHits
        invariant rest <= docs.Keys
        invariant |hits| <= MaxHits
        invariant forall i :: 0 <= i < |hits| ==>
                    hits[i].id in docs && hits[i].id !in rest && hits[i].source == docs[hits[i].id]
        invariant forall i, j :: 0 <= i < j < |hits| ==> hits[i].id != hits[j].id
        invariant HitIds(hits) == Matching(sem, docs, q) - rest
        decreases rest
      {
        var id :| id in rest;
        if SatisfiesAll(sem, docs[id], q) {
          HitIdsSnoc(hits, Hit(id, docs[id]));
          hits := hits + [Hit(id, docs[id])];
        }
        rest := rest - {id};
      }
      r := Ok(hits);
    }
  }
}

/** person.service.ts: creating people, searching, updating the car count and
    reconciling the directory with the CRM's contact list. */
module Service {
  import opened Js
  import opened Entity
  import opened Query
  import opened Elastic
  import opened HubSpot

  /** The exceptions raised in the service and the controller. */
  datatype Error =
    | BadRequest(message: string)              // BadRequestException
    | InternalServerError(message: string)     // InternalServerErrorException
    | HttpError(status: nat, message: string)  // a plain HttpException
    | StoreError(fault: StoreFault)            // raised by the document store client
    | TypeError(message: string)               // a JavaScript runtime error
    | ValidationFailed(messages: seq<string>)  // the BadRequestException of the validation pipe

  const InvalidDateMessage := "Invalid date format"
  const FutureDateMessage := "dateOfBirth cannot be in the future"
  const InvalidCountMessage := "countOfOwnedCars must be a valid number"
  const SyncFailureMessage := "Failed to sync contacts with HubSpot"
  const InternalServerErrorStatus: nat := 500
  const UndefinedTypeMessage := "Cannot read properties of undefined (reading 'type')"
  const UndefinedPropertiesMessage := "Cannot read properties of undefined (reading 'firstname')"

  /** The document `createPerson` indexes: the four fields of the person. */
  function PersonDoc(p: Person): Doc {
    Doc(Some(p.fName), Some(p.lName), None, Some(p.dateOfBirth), Some(p.countOfOwnedCars))
  }

  /** The partial document `updateCarCount` sends. */
  function CarCountPatch(n: int): Doc {
    Doc(None, None, None, None, Some(n))
  }

  // ---------------------------------------------------------------------------
  // getContactEmail

  /** What `flatMap` contributes for one profile: its identities, or the single
      value `undefined` when the profile has none (a non-array is kept as is). */
  function ProfileEntries(identities: Option<seq<Identity>>): (r: seq<Option<Identity>>)
    ensures identities.None? ==> r == [None]
    ensures identities.Some? ==> |r| == |identities.value|
    ensures identities.Some? ==> forall i :: 0 <= i < |r| ==> r[i] == Some(identities.value[i])
  {
    match identities
    case None => [None]
    case Some(s) => seq(|s|, i requires 0 <= i < |s| => Some(s[i]))
  }

  /** `profiles.flatMap(profile => profile.identities)`. */
  function FlatIdentities(profiles: seq<Profile>): (r: seq<Option<Identity>>)
    ensures None in r <==> exists p :: 0 <= p < |profiles| && profiles[p].identities.None?
    ensures forall id :: Some(id) in r <==>
              exists p :: 0 <= p < |profiles| && profiles[p].identities.Some? && id in profiles[p].identities.value
    decreases |profiles|
  {
    if profiles == [] then [] else ProfileEntries(profiles[0].identities) + FlatIdentities(profiles[1..])
  }

  /** The entries `getContactEmail` searches; none without `identity-profiles`. */
  function EmailEntries(c: Contact): seq<Option<Identity>> {
    match c.identityProfiles
    case None => []
    case Some(profiles) => FlatIdentities(profiles)
  }

  predicate IsEmailIdentity(e: Identity) {
    e.kind == Some("EMAIL")
  }

  /** An entry where `find` stops: an email identity, or `undefined`, whose
      `type` cannot be read. */
  predicate StopsFind(e: Option<Identity>) {
    e.None? || IsEmailIdentity(e.value)
  }

  /** `.find(identity => identity.type === 'EMAIL')`. */
  function FindEmail(entries: seq<Option<Identity>>): (r: Result<Option<Identity>, Error>)
    ensures r.Err? ==> r.error == TypeError(UndefinedTypeMessage) && None in entries
    ensures r.Ok? && r.value.Some? ==> r.value in entries && IsEmailIdentity(r.value.value)
    ensures r == Ok(None) <==> forall i :: 0 <= i < |entries| ==> !StopsFind(entries[i])
    decreases |entries|
  {
    if entries == [] then Ok(None)
    else if entries[0].None? then Err(TypeError(UndefinedTypeMessage))
    else if IsEmailIdentity(entries[0].value) then Ok(entries[0])
    else FindEmail(entries[1..])
  }

  /** The e-mail address of a contact, `undefined` when it has none. */
  function GetContactEmail(c: Contact): (r: Result<Option<string>, Error>)
    ensures c.identityProfiles.None? ==> r == Ok(None)
    ensures r.Err? ==> r.error == TypeError(UndefinedTypeMessage) && None in EmailEntries(c)
    ensures r.Ok? && r.value.Some? ==> Some(Identity(Some("EMAIL"), r.value)) in EmailEntries(c)
  {
    match FindEmail(EmailEntries(c))
    case Err(e) => Err(e)
    case Ok(None) => Ok(None)
    case Ok(Some(identity)) => Ok(identity.value)
  }

  /** `find` answers from the first entry where it stops: the value of the first
      email identity, `undefined` when no entry stops it, a TypeError when it
      reaches an `undefined` entry first. */
  lemma {:induction false} FindEmailFirst(entries: seq<Option<Identity>>, k: nat)
    requires k <= |entries|
    requires forall j :: 0 <= j < k ==> !StopsFind(entries[j])
    requires k < |entries| ==> StopsFind(entries[k])
    ensures FindEmail(entries) ==
              if k == |entries| then Ok(None)
              else if entries[k].None? then Err(TypeError(UndefinedTypeMessage))
              else Ok(entries[k])
    decreases k
  {
    if k > 0 {
      FindEmailFirst(entries[1..], k - 1);
    }
  }

  /** The address `getContactEmail` returns is that of the first identity typed
      "EMAIL" across the profiles in order. */
  lemma ContactEmailIsFirst(c: Contact, k: nat)
    requires k <= |EmailEntries(c)|
    requires forall j :: 0 <= j < k ==> !StopsFind(EmailEntries(c)[j])
    requires k < |EmailEntries(c)| ==> StopsFind(EmailEntries(c)[k])
    ensures k == |EmailEntries(c)| ==> GetContactEmail(c) == Ok(None)
    ensures k < |EmailEntries(c)| && EmailEntries(c)[k].Some? ==>
              GetContactEmail(c) == Ok(EmailEntries(c)[k].value.value)
    ensures k < |EmailEntries(c)| && EmailEntries(c)[k].None? ==>
              GetContactEmail(c) == Err(TypeError(UndefinedTypeMessage))
  {
    FindEmailFirst(EmailEntries(c), k);
  }

  // ---------------------------------------------------------------------------
  // syncHubSpotContacts: what each contact contributes

  /** The fields the sync reads from a contact. */
  datatype ContactInfo = ContactInfo(fName: Option<string>, lName: Option<string>, email: Option<string>, dateOfBirth: Option<string>)

  /** Reads a contact's fields; fails as JavaScript does when `properties` is
      missing or the e-mail scan reaches an `undefined` entry. */
  function ContactFields(c: Contact): (r: Result<ContactInfo, Error>)
    ensures c.properties.None? ==> r == Err(TypeError(UndefinedPropertiesMessage))
    ensures r.Err? <==> c.properties.None? || GetContactEmail(c).Err?
    ensures r.Err? ==> r.error.TypeError?
    ensures r.Ok? ==> r.value.email == GetContactEmail(c).value
                      && r.value.fName == c.properties.value.firstname
                      && r.value.lName == c.properties.value.lastname
                      && r.value.dateOfBirth == c.properties.value.dateOfBirth
  {
    match c.properties
    case None => Err(TypeError(UndefinedPropertiesMessage))
    case Some(p) =>
      match GetContactEmail(c)
      case Err(e) => Err(e)
      case Ok(email) => Ok(ContactInfo(p.firstname, p.lastname, email, p.dateOfBirth))
  }

  /** The contacts of a page read in order, up to the first that cannot be read. */
  datatype Batch = Batch(infos: seq<ContactInfo>, complete: bool)

  /** The fields of each contact, read on its own. */
  function ReadEach(cs: seq<Contact>): (rs: seq<Result<ContactInfo, Error>>)
    ensures |rs| == |cs| && forall i :: 0 <= i < |cs| ==> rs[i] == ContactFields(cs[i])
  {
    seq(|cs|, i requires 0 <= i < |cs| => ContactFields(cs[i]))
  }

  /** The successful readings up to the first failure. */
  function Collect(rs: seq<Result<ContactInfo, Error>>): (b: Batch)
    ensures |b.infos| <= |rs|
    ensures b.complete <==> |b.infos| == |rs|
    decreases |rs|
  {
    if rs == [] then Batch([], true)
    else if rs[0].Err? then Batch([], false)
    else
      var rest := Collect(rs[1..]);
      Batch([rs[0].value] + rest.infos, rest.complete)
  }

  function ReadContacts(cs: seq<Contact>): Batch {
    Collect(ReadEach(cs))
  }

  /** A batch holds the fields of a prefix of the contacts, in order; it is
      complete exactly when that prefix is all of them, and otherwise the
      contact after it is the first that cannot be read. */
  lemma ReadContactsMeaning(cs: seq<Contact>)
    ensures var b := ReadContacts(cs);
      && |b.infos| <= |cs|
      && (forall i :: 0 <= i < |b.infos| ==> ContactFields(cs[i]) == Ok(b.infos[i]))
      && (b.complete <==> |b.infos| == |cs|)
      && (!b.complete ==> ContactFields(cs[|b.infos|]).Err?)
  {
    CollectMeaning(ReadEach(cs));
  }

  lemma {:induction false} CollectMeaning(rs: seq<Result<ContactInfo, Error>>)
    ensures var b := Collect(rs);
      && |b.infos| <= |rs|
      && (forall i :: 0 <= i < |b.infos| ==> rs[i] == Ok(b.infos[i]))
      && (b.complete <==> |b.infos| == |rs|)
      && (!b.complete ==> rs[|b.infos|].Err?)
    decreases |rs|
  {
    if rs != [] && rs[0].Ok? {
      CollectMeaning(rs[1..]);
      var b, rest := Collect(rs), Collect(rs[1..]);
      forall i | 1 <= i < |b.infos| ensures rs[i] == Ok(b.infos[i]) {
        assert rs[1..][i - 1] == rs[i];
      }
      if !b.complete {
        assert rs[1..][|rest.infos|] == rs[|b.infos|];
      }
    }
  }

  /** Collecting one more reading after a complete prefix: an error ends the
      batch there, a success extends it. */
  lemma {:induction false} CollectSnoc(rs: seq<Result<ContactInfo, Error>>, i: nat, infos: seq<ContactInfo>)
    requires i < |rs| && Collect(rs[..i]) == Batch(infos, true)
    ensures rs[i].Err? ==> Collect(rs) == Batch(infos, false)
    ensures rs[i].Ok? ==> Collect(rs[..i + 1]) == Batch(infos + [rs[i].value], true)
    decreases i
  {
    if i == 0 {
      assert rs[..1] == [rs[0]];
    } else {
      assert rs[..i][0] == rs[0] && rs[..i][1..] == rs[1..][..i - 1];
      assert rs[..i + 1][1..] == rs[1..][..i];
      var rest := Collect(rs[1..][..i - 1]);
      CollectSnoc(rs[1..], i - 1, rest.infos);
      assert infos == [rs[0].value] + rest.infos;
    }
  }

  /** The filter the sync searches with: the contact's two names. */
  function NameFilter(info: ContactInfo): Filter {
    Filter(info.fName, info.lName, None, None)
  }

  /** The query for a contact's names (the year plays no part without an age). */
  function NameQuery(info: ContactInfo): seq<Clause> {
    BuildQuery(NameFilter(info), 0)
  }

  /** The partial document the sync merges into an existing record. */
  function ContactPatch(info: ContactInfo): Doc {
    Doc(info.fName, info.lName, info.email, info.dateOfBirth, None)
  }

  /** The document the sync indexes for a contact with no record. */
  function ContactDoc(info: ContactInfo): Doc {
    Doc(info.fName, info.lName, info.email, info.dateOfBirth, Some(0))
  }

  /** One merge: with no record matching the contact's names, a new record under
      a fresh id; otherwise one matching record (the engine's first hit) takes
      the contact's fields. */
  ghost predicate MergeStep(sem: Semantics, before: map<Id, Doc>, info: ContactInfo, target: Id, after: map<Id, Doc>) {
    var found := Matching(sem, before, NameQuery(info));
    if found == {} then
      target !in before && after == before[target := ContactDoc(info)]
    else
      target in found && after == before[target := Merge(before[target], ContactPatch(info))]
  }

  /** One merge keeps every record and adds at most the target; the target
      keeps its car count, or starts at 0 when it is new, and takes the
      contact's fields; no other record changes. */
  lemma MergeStepEffects(sem: Semantics, before: map<Id, Doc>, info: ContactInfo, target: Id, after: map<Id, Doc>)
    requires MergeStep(sem, before, info, target, after)
    ensures after.Keys == before.Keys + {target}
    ensures after[target].countOfOwnedCars == if target in before then before[target].countOfOwnedCars else Some(0)
    ensures after[target].fName == (if info.fName.Some? || target !in before then info.fName else before[target].fName)
    ensures after[target].lName == (if info.lName.Some? || target !in before then info.lName else before[target].lName)
    ensures after[target].email == (if info.email.Some? || target !in before then info.email else before[target].email)
    ensures after[target].dateOfBirth ==
              (if info.dateOfBirth.Some? || target !in before then info.dateOfBirth else before[target].dateOfBirth)
    ensures forall id :: id in before && id != target ==> after[id] == before[id]
  {
  }

  /** A sequence of merges, one per contact, from `trace[0]` to the last state. */
  ghost predicate Reconciled(sem: Semantics, trace: seq<map<Id, Doc>>, merged: seq<ContactInfo>, targets: seq<Id>) {
    && |trace| == |merged| + 1
    && |targets| == |merged|
    && forall i :: 0 <= i < |merged| ==> MergeStep(sem, trace[i], merged[i], targets[i], trace[i + 1])
  }

  /** One more merge, from the state the merges so far ended in, extends them. */
  lemma ReconciledSnoc(sem: Semantics, trace: seq<map<Id, Doc>>, merged: seq<ContactInfo>, targets: seq<Id>,
                       info: ContactInfo, target: Id, after: map<Id, Doc>)
    requires Reconciled(sem, trace, merged, targets)
    requires MergeStep(sem, trace[|merged|], info, target, after)
    ensures Reconciled(sem, trace + [after], merged + [info], targets + [target])
    ensures (trace + [after])[0] == trace[0] && (trace + [after])[|merged| + 1] == after
  {
    var t, m, g := trace + [after], merged + [info], targets + [target];
    forall i | 0 <= i < |m| ensures MergeStep(sem, t[i], m[i], g[i], t[i + 1]) {
      if i < |merged| {
        assert t[i] == trace[i] && t[i + 1] == trace[i + 1] && m[i] == merged[i] && g[i] == targets[i];
      }
    }
  }

  /** Two runs of merges, the second starting where the first ended, make one. */
  lemma ReconciledConcat(sem: Semantics, t1: seq<map<Id, Doc>>, m1: seq<ContactInfo>, g1: seq<Id>,
                         t2: seq<map<Id, Doc>>, m2: seq<ContactInfo>, g2: seq<Id>)
    requires Reconciled(sem, t1, m1, g1) && Reconciled(sem, t2, m2, g2)
    requires t1[|m1|] == t2[0]
    ensures Reconciled(sem, t1 + t2[1..], m1 + m2, g1 + g2)
    ensures (t1 + t2[1..])[0] == t1[0] && (t1 + t2[1..])[|m1 + m2|] == t2[|m2|]
  {
    var t, m, g := t1 + t2[1..], m1 + m2, g1 + g2;
    forall i | 0 <= i < |m| ensures MergeStep(sem, t[i], m[i], g[i], t[i + 1]) {
      if i < |m1| {
        assert t[i] == t1[i] && t[i + 1] == t1[i + 1];
      } else {
        var j := i - |m1|;
        assert t[i] == t2[j] && t[i + 1] == t2[j + 1] && m[i] == m2[j] && g[i] == g2[j];
      }
    }
  }

  /** Reconciliation never removes a record and never changes the car count of
      one that existed; each record it adds has car count 0; it adds at most one
      record per merged contact. */
  lemma {:induction false} ReconciledEffects(sem: Semantics, trace: seq<map<Id, Doc>>, merged: seq<ContactInfo>, targets: seq<Id>)
    requires Reconciled(sem, trace, merged, targets)
    ensures trace[0].Keys <= trace[|merged|].Keys
    ensures forall id :: id in trace[0] ==> trace[|merged|][id].countOfOwnedCars == trace[0][id].countOfOwnedCars
    ensures forall id :: id in trace[|merged|] && id !in trace[0] ==> trace[|merged|][id].countOfOwnedCars == Some(0)
    ensures |trace[|merged|]| <= |trace[0]| + |merged|
    decreases |merged|
  {
    var n := |merged|;
    if n > 0 {
      ReconciledEffects(sem, trace[..n], merged[..n - 1], targets[..n - 1]);
      var before, after := trace[n - 1], trace[n];
      assert MergeStep(sem, before, merged[n - 1], targets[n - 1], after);
      if Matching(sem, before, NameQuery(merged[n - 1])) == {} {
        assert |after| == |before| + 1;
      } else {
        assert after.Keys == before.Keys;
      }
    }
  }

  /** Merging the same contact twice adds no second record, when the engine's
      text match holds of every text against itself. Like every merge step, it
      takes a document to be searchable as soon as it is indexed; with the
      engine's refresh interval, a second search within one run can miss a
      record just indexed and add a duplicate. */
  lemma RemergeAddsNoRecord(sem: Semantics, a: map<Id, Doc>, info: ContactInfo, t1: Id, b: map<Id, Doc>, t2: Id, c: map<Id, Doc>)
    requires forall x :: sem.matches(x, x)
    requires MergeStep(sem, a, info, t1, b) && MergeStep(sem, b, info, t2, c)
    ensures t2 in b && c.Keys == b.Keys
  {
    var q := NameQuery(info);
    assert t1 in b;
    assert b[t1].fName == (if info.fName.Some? then info.fName else b[t1].fName);
    assert b[t1].lName == (if info.lName.Some? then info.lName else b[t1].lName);
    forall i | 0 <= i < |q| ensures Satisfies(sem, b[t1], q[i]) {
      assert sem.matches(q[i].text, q[i].text);
    }
    assert t1 in Matching(sem, b, q);
  }

  /** A contact with neither name searches with the empty query, which matches
      every record: it then overwrites an existing record instead of adding one. */
  lemma NamelessContactOverwrites(sem: Semantics, before: map<Id, Doc>, info: ContactInfo, target: Id, after: map<Id, Doc>)
    requires !TruthyString(info.fName) && !TruthyString(info.lName)
    requires |before| > 0
    requires MergeStep(sem, before, info, target, after)
    ensures target in before && after.Keys == before.Keys
  {
    assert NameQuery(info) == [];
    var id :| id in before;
    assert id in Matching(sem, before, NameQuery(info));
  }

  // ---------------------------------------------------------------------------
  // syncHubSpotContacts: the pages

  /** The requests sent, the contacts merged and whether the run failed. */
  datatype Run = Run(requests: seq<Request>, merged: seq<ContactInfo>, failed: bool)

  /** A finished part of a run followed by the rest of it. */
  function Then(requests: seq<Request>, merged: seq<ContactInfo>, rest: Run): Run {
    Run(requests + rest.requests, merged + rest.merged, rest.failed)
  }

  /** What the sync makes of one answer of the CRM: nothing when the fetch
      failed or the page has no `contacts`; otherwise the contacts read up to
      the first unreadable one, whether all were read, and the page's
      `has-more` and `vid-offset`. */
  datatype Page =
    | Unread
    | Read(infos: seq<ContactInfo>, complete: bool, hasMore: bool, vidOffset: Option<int>)

  function ReadPage(r: Response): (p: Page)
    ensures p.Unread? <==> r.FetchFailed? || r.data.contacts.None?
    ensures p.Read? ==> p.hasMore == r.data.hasMore && p.vidOffset == r.data.vidOffset
    ensures p.Read? ==> p.infos == ReadContacts(r.data.contacts.value).infos
                        && p.complete == ReadContacts(r.data.contacts.value).complete
  {
    if r.FetchFailed? || r.data.contacts.None? then Unread
    else
      var batch := ReadContacts(r.data.contacts.value);
      Read(batch.infos, batch.complete, r.data.hasMore, r.data.vidOffset)
  }

  function ReadPages(crm: seq<Response>): (pages: seq<Page>)
    ensures |pages| == |crm| && forall i :: 0 <= i < |crm| ==> pages[i] == ReadPage(crm[i])
  {
    seq(|crm|, i requires 0 <= i < |crm| => ReadPage(crm[i]))
  }

  /** The run over the pages `pages` starting from offset `vidOffset`: one
      fetch per page; a failed fetch (or one past the last answer), a page
      without `contacts` or a contact that cannot be read ends it with a
      failure; a page whose `has-more` is false ends it. */
  function RunPages(pages: seq<Page>, vidOffset: Option<int>): Run
    decreases |pages|
  {
    var request := FetchRequest(vidOffset);
    if pages == [] || pages[0].Unread? then Run([request], [], true)
    else if !pages[0].complete then Run([request], pages[0].infos, true)
    else if !pages[0].hasMore then Run([request], pages[0].infos, false)
    else Then([request], pages[0].infos, RunPages(pages[1..], pages[0].vidOffset))
  }

  /** The whole sync over the CRM's answers, starting without an offset. */
  function SyncRun(crm: seq<Response>): Run {
    RunPages(ReadPages(crm), None)
  }

  /** The whole sync: at least one fetch and at most one past the last
      answer, the first without an offset; it fails exactly when it asked past
      the last answer or did not read the last page it fetched to the end; when
      it succeeds, that page said there were no more. */
  lemma SyncOutcome(crm: seq<Response>)
    ensures var run := SyncRun(crm);
      && 1 <= |run.requests| <= |crm| + 1
      && run.requests[0] == FetchRequest(None)
      && (run.failed <==> |run.requests| > |crm| || !Complete(ReadPage(crm[|run.requests| - 1])))
      && (!run.failed ==> ReadPage(crm[|run.requests| - 1]).Read? && !ReadPage(crm[|run.requests| - 1]).hasMore)
  {
    RunRequests(ReadPages(crm), None);
    RunOutcome(ReadPages(crm), None);
  }

  /** A page the sync read to the end. */
  predicate Complete(p: Page) {
    p.Read? && p.complete
  }

  /** The contacts the sync reads from one page. */
  function PageInfos(p: Page): seq<ContactInfo> {
    if p.Read? then p.infos else []
  }

  /** The contacts of the first `n` pages. */
  function PrefixInfos(pages: seq<Page>, n: nat): seq<ContactInfo>
    requires n <= |pages|
    decreases n
  {
    if n == 0 then [] else PageInfos(pages[0]) + PrefixInfos(pages[1..], n - 1)
  }

  /** The run from page `k` on, by what page `k` holds. */
  lemma RunPagesAt(pages: seq<Page>, k: nat, vidOffset: Option<int>)
    requires k <= |pages|
    ensures k == |pages| || pages[k].Unread? ==>
              RunPages(pages[k..], vidOffset) == Run([FetchRequest(vidOffset)], [], true)
    ensures k < |pages| && pages[k].Read? && !pages[k].complete ==>
              RunPages(pages[k..], vidOffset) == Run([FetchRequest(vidOffset)], pages[k].infos, true)
    ensures k < |pages| && pages[k].Read? && pages[k].complete && !pages[k].hasMore ==>
              RunPages(pages[k..], vidOffset) == Run([FetchRequest(vidOffset)], pages[k].infos, false)
    ensures k < |pages| && pages[k].Read? && pages[k].complete && pages[k].hasMore ==>
              RunPages(pages[k..], vidOffset)
                == Then([FetchRequest(vidOffset)], pages[k].infos, RunPages(pages[k + 1..], pages[k].vidOffset))
  {
    if k < |pages| {
      assert pages[k..][0] == pages[k] && pages[k..][1..] == pages[k + 1..];
    }
  }

  lemma ThenThen(requests: seq<Request>, merged: seq<ContactInfo>, moreRequests: seq<Request>, moreMerged: seq<ContactInfo>, rest: Run)
    ensures Then(requests, merged, Then(moreRequests, moreMerged, rest))
              == Then(requests + moreRequests, merged + moreMerged, rest)
  {
    assert requests + (moreRequests + rest.requests) == (requests + moreRequests) + rest.requests;
    assert merged + (moreMerged + rest.merged) == (merged + moreMerged) + rest.merged;
  }

  /** Pagination: the first request carries the starting offset (none when it
      is falsy); each later one carries the `vid-offset` of the page before,
      which was read to the end and said `has-more`. */
  lemma {:induction false} RunRequests(pages: seq<Page>, vidOffset: Option<int>)
    ensures var run := RunPages(pages, vidOffset);
      && 1 <= |run.requests| <= |pages| + 1
      && run.requests[0] == FetchRequest(vidOffset)
      && (forall k :: 0 <= k < |run.requests| - 1 ==>
            && Complete(pages[k])
            && pages[k].hasMore
            && run.requests[k + 1] == FetchRequest(pages[k].vidOffset))
    decreases |pages|
  {
    if pages != [] && Complete(pages[0]) && pages[0].hasMore {
      var requests := RunPages(pages, vidOffset).requests;
      var rest := RunPages(pages[1..], pages[0].vidOffset).requests;
      assert requests == [FetchRequest(vidOffset)] + rest;
      RunRequests(pages[1..], pages[0].vidOffset);
      forall k | 1 <= k < |requests| - 1
        ensures Complete(pages[k]) && pages[k].hasMore
        ensures requests[k + 1] == FetchRequest(pages[k].vidOffset)
      {
        assert pages[1..][k - 1] == pages[k];
        assert requests[k + 1] == rest[k];
      }
    }
  }

  /** Termination of a run: it fails exactly when it asked past the last
      answer or the last page was not read to the end; when it succeeds, that
      page said there were no more. */
  lemma {:induction false} RunOutcome(pages: seq<Page>, vidOffset: Option<int>)
    ensures var run := RunPages(pages, vidOffset);
      && 1 <= |run.requests| <= |pages| + 1
      && (run.failed <==> |run.requests| > |pages| || !Complete(pages[|run.requests| - 1]))
      && (!run.failed ==> !pages[|run.requests| - 1].hasMore)
    decreases |pages|
  {
    if pages != [] && Complete(pages[0]) && pages[0].hasMore {
      var rest := RunPages(pages[1..], pages[0].vidOffset);
      RunOutcome(pages[1..], pages[0].vidOffset);
      var m := |rest.requests|;
      if m <= |pages[1..]| {
        assert pages[1..][m - 1] == pages[m];
      }
    }
  }

  /** The contacts a run merges are those of the pages it fetched, in order. */
  lemma {:induction false} RunMerged(pages: seq<Page>, vidOffset: Option<int>)
    ensures var run := RunPages(pages, vidOffset);
      && 1 <= |run.requests| <= |pages| + 1
      && run.merged == PrefixInfos(pages, |run.requests| - 1)
                       + (if |run.requests| <= |pages| then PageInfos(pages[|run.requests| - 1]) else [])
    decreases |pages|
  {
    if pages != [] && Complete(pages[0]) && pages[0].hasMore {
      var run := RunPages(pages, vidOffset);
      var rest := RunPages(pages[1..], pages[0].vidOffset);
      RunMerged(pages[1..], pages[0].vidOffset);
      var m := |rest.requests|;
      var tail := if m <= |pages[1..]| then PageInfos(pages[1..][m - 1]) else [];
      var last := if m + 1 <= |pages| then PageInfos(pages[m]) else [];
      assert tail == last by {
        if m <= |pages[1..]| {
          assert pages[1..][m - 1] == pages[m];
        }
      }
      calc {
        run.merged;
        pages[0].infos + rest.merged;
        pages[0].infos + (PrefixInfos(pages[1..], m - 1) + last);
        (pages[0].infos + PrefixInfos(pages[1..], m - 1)) + last;
        PrefixInfos(pages, m) + last;
      }
      assert |run.requests| == m + 1;
    }
  }

  // ---------------------------------------------------------------------------
  // The service

  class PersonService {
    const es: Store

    constructor (es: Store)
      ensures this.es == es
    {
      this.es := es;
    }

    /** Indexes a person whose date of birth parses and is not after `now`.
        `parseDate` stands for `new Date(s).getTime()` (None for NaN) and `now`
        for the clock. */
    method CreatePerson(p: Person, parseDate: string -> Option<int>, now: int) returns (r: Result<Id, Error>)
      requires es.Valid()
      modifies es
      ensures es.Valid()
      ensures parseDate(p.dateOfBirth).None? ==>
                r == Err(BadRequest(InvalidDateMessage)) && es.docs == old(es.docs)
      ensures parseDate(p.dateOfBirth).Some? && parseDate(p.dateOfBirth).value > now ==>
                r == Err(BadRequest(FutureDateMessage)) && es.docs == old(es.docs)
      ensures parseDate(p.dateOfBirth).Some? && parseDate(p.dateOfBirth).value <= now ==>
                r.Ok? && r.value !in old(es.docs) && es.docs == old(es.docs)[r.value := PersonDoc(p)]
    {
      var born := parseDate(p.dateOfBirth);
      if born.None? {
        return Err(BadRequest(InvalidDateMessage));
      }
      if born.value > now {
        return Err(BadRequest(FutureDateMessage));
      }
      var id := es.Index(PersonDoc(p));
      r := Ok(id);
    }

    /** Builds the query for the filter and runs it; a store failure propagates. */
    method SearchPerson(f: Filter, currentYear: int) returns (r: Result<seq<Hit>, Error>)
      ensures r.Err? <==> !BoundsParse(es.sem, BuildQuery(f, currentYear))
      ensures r.Err? ==> r.error == StoreError(QueryParseError)
      ensures r.Ok? ==> SearchResult(es.sem, es.docs, BuildQuery(f, currentYear), r.value)
    {
      var query := BuildQuery(f, currentYear);
      var found := es.Search(query);
      match found
      case Err(fault) => r := Err(StoreError(fault));
      case Ok(hits) => r := Ok(hits);
    }

    /** Sets the car count of one record, leaving its other fields and every
        other record as they were; NaN is refused, a negative count is not. */
    method UpdateCarCount(personId: Id, newCount: Number) returns (r: Result<Id, Error>)
      requires es.Valid()
      modifies es
      ensures es.Valid()
      ensures newCount.NaN? ==> r == Err(BadRequest(InvalidCountMessage)) && es.docs == old(es.docs)
      ensures newCount.Finite? && personId in old(es.docs) ==>
                && r == Ok(personId)
                && es.docs == old(es.docs)[personId := old(es.docs)[personId].(countOfOwnedCars := Some(newCount.value))]
      ensures newCount.Finite? && personId !in old(es.docs) ==>
                r == Err(StoreError(DocumentMissing(personId))) && es.docs == old(es.docs)
    {
      if newCount.NaN? {
        return Err(BadRequest(InvalidCountMessage));
      }
      var updated := es.Update(personId, CarCountPatch(newCount.value));
      match updated
      case Err(fault) => r := Err(StoreError(fault));
      case Ok(id) => r := Ok(id);
    }

    /** Merges all four fields of a person into the record under `id`. */
    method UpdateElasticsearchPerson(id: Id, p: Person) returns (r: Result<(), Error>)
      requires es.Valid()
      modifies es
      ensures es.Valid()
      ensures id in old(es.docs) ==> r.Ok? && es.docs == old(es.docs)[id := PersonDoc(p).(email := old(es.docs)[id].email)]
      ensures id !in old(es.docs) ==> r == Err(StoreError(DocumentMissing(id))) && es.docs == old(es.docs)
    {
      var updated := es.Update(id, PersonDoc(p));
      match updated
      case Err(fault) => r := Err(StoreError(fault));
      case Ok(_) => r := Ok(());
    }

    /** The body of the sync's inner loop for one readable contact: search by
        name, then update the first hit or index a new record. */
    method MergeContact(info: ContactInfo, currentYear: int) returns (ghost target: Id)
      requires es.Valid()
      modifies es
      ensures es.Valid()
      ensures MergeStep(es.sem, old(es.docs), info, target, es.docs)
    {
      assert BuildQuery(NameFilter(info), currentYear) == NameQuery(info);
      var found := SearchPerson(NameFilter(info), currentYear);
      var hits := found.value;
      if |hits| > 0 {
        assert hits[0].id in HitIds(hits) by { assert hits[0] in hits; }
        var _ := es.Update(hits[0].id, ContactPatch(info));
        target := hits[0].id;
      } else {
        var id := es.Index(ContactDoc(info));
        target := id;
      }
    }

    /** The inner loop of the sync over one page's contacts: merges them in
        order and stops at the first that cannot be read. */
    method MergePage(contacts: seq<Contact>, currentYear: int)
      returns (complete: bool, ghost trace: seq<map<Id, Doc>>, ghost merged: seq<ContactInfo>, ghost targets: seq<Id>)
      requires es.Valid()
      modifies es
      ensures es.Valid()
      ensures ReadContacts(contacts) == Batch(merged, complete)
      ensures Reconciled(es.sem, trace, merged, targets)
      ensures trace[0] == old(es.docs) && trace[|merged|] == es.docs
    {
      ghost var readings := ReadEach(contacts);
      trace, merged, targets := [es.docs], [], [];
      for i := 0 to |contacts|
        invariant es.Valid()
        invariant Reconciled(es.sem, trace, merged, targets)
        invariant trace[0] == old(es.docs) && trace[|merged|] == es.docs
        invariant Collect(readings[..i]) == Batch(merged, true)
      {
        CollectSnoc(readings, i, merged);
        var fields := ContactFields(contacts[i]);
        if fields.Err? {
          return false, trace, merged, targets;
        }
        var target := MergeContact(fields.value, currentYear);
        ReconciledSnoc(es.sem, trace, merged, targets, fields.value, target, es.docs);
        trace, merged, targets := trace + [es.docs], merged + [fields.value], targets + [target];
      }
      assert readings[..|contacts|] == readings;
      complete := true;
    }

    /** Pages through the CRM's answers, merging each contact; any failure ends
        the run with one error and keeps the merges already made. */
    method SyncHubSpotContacts(crm: seq<Response>, currentYear: int)
      returns (r: Result<(), Error>, requests: seq<Request>,
               ghost trace: seq<map<Id, Doc>>, ghost merged: seq<ContactInfo>, ghost targets: seq<Id>)
      requires es.Valid()
      modifies es
      ensures es.Valid()
      ensures requests == SyncRun(crm).requests && merged == SyncRun(crm).merged
      ensures r.Err? <==> SyncRun(crm).failed
      ensures r.Err? ==> r.error == HttpError(InternalServerErrorStatus, SyncFailureMessage)
      ensures Reconciled(es.sem, trace, merged, targets)
      ensures trace[0] == old(es.docs) && trace[|merged|] == es.docs
    {
      ghost var pages := ReadPages(crm);
      assert SyncRun(crm) == RunPages(pages, None);
      var hasMore := true;
      var vidOffset: Option<int> := None;
      var k := 0;
      requests, trace, merged, targets := [], [es.docs], [], [];
      while hasMore
        invariant es.Valid()
        invariant k <= |crm|
        invariant Reconciled(es.sem, trace, merged, targets)
        invariant trace[0] == old(es.docs) && trace[|merged|] == es.docs
        invariant hasMore ==> RunPages(pages, None) == Then(requests, merged, RunPages(pages[k..], vidOffset))
        invariant !hasMore ==> RunPages(pages, None) == Run(requests, merged, false)
        decreases |crm| - k
      {
        RunPagesAt(pages, k, vidOffset);
        ThenThen(requests, merged, [FetchRequest(vidOffset)], [], Run([], [], true));
        requests := requests + [FetchRequest(vidOffset)];
        if k == |crm| || crm[k].FetchFailed? || crm[k].data.contacts.None? {
          return Err(HttpError(InternalServerErrorStatus, SyncFailureMessage)), requests, trace, merged, targets;
        }
        var data := crm[k].data;
        var complete, pageTrace, pageMerged, pageTargets := MergePage(data.contacts.value, currentYear);
        assert pages[k] == Read(pageMerged, complete, data.hasMore, data.vidOffset);
        ReconciledConcat(es.sem, trace, merged, targets, pageTrace, pageMerged, pageTargets);
        ThenThen(requests[..|requests| - 1], merged, [FetchRequest(vidOffset)], pageMerged, RunPages(pages[k + 1..], data.vidOffset));
        trace, merged, targets := trace + pageTrace[1..], merged + pageMerged, targets + pageTargets;
        if !complete {
          return Err(HttpError(InternalServerErrorStatus, SyncFailureMessage)), requests, trace, merged, targets;
        }
        hasMore := data.hasMore;
        vidOffset := data.vidOffset;
        k := k + 1;
      }
      r := Ok(());
    }
  }
}

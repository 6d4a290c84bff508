# Person directory with CRM reconciliation — a verified model

The NestJS service keeps a directory of people in an Elasticsearch index named
`people`. It can create a person, search by name, age and a minimum car count,
and change a person's car count. It also pulls the contact list of a HubSpot
CRM page by page and merges each contact into the directory.

This project models that core in Dafny:

- `Js` (`js.dfy`): the JavaScript values the code relies on.
  - `undefined` as `Option`.
  - Numbers as integers or NaN.
  - Truthiness of strings and numbers.
  - The `${n}` rendering of an integer (`DecimalString`).
  - `Number(s)` on a query parameter (`ToNumber`).
- `Entity` (`entity.dfy`):
  - `Person` and `CreateHubSpotContactDto`, with the constraints their class-validator decorators declare.
  - `@IsDateString` as the ISO 8601 calendar-date form.
  - `@IsEmail` as a local part, one `@` and a dotted domain name.
- `Query` (`query.dfy`): the query builder of `searchPerson`. It turns the optional filter into a `bool.must` list of clauses.
- `Elastic` (`elastic.dfy`): the index as a class `Store`.
  - It holds a map from ids to documents.
  - `Index` stores under a fresh id.
  - `Update` is a partial update that merges only the fields the patch has.
  - `Search` returns at most 10 matching documents, in an order the engine chooses.
  - Full-text matching and date parsing are an abstract `Semantics` value.
- `HubSpot` (`hubspot.dfy`): the shape of the CRM's contact pages, and the request `fetchHubSpotContacts` sends for an offset.
- `Service` (`service.dfy`): `PersonService` as a class over the store.
  - `createPerson`, `searchPerson`, `updateCarCount`, `updateElasticsearchPerson`.
  - `getContactEmail` as a pure sequence function.
  - `syncHubSpotContacts` as a `while` loop over pages with an inner `for` loop over contacts.
  - The CRM is a finite sequence of answers.
  - The pure function `SyncRun` states what a run fetches and merges, and whether it fails.
  - The ghost relation `Reconciled` states how the store evolves, one `MergeStep` per contact.
- `Controller` (`controller.dfy`): `PersonController`.
  - The validation pipe of the create route.
  - The admission checks of the search route.
  - `Number(newCount)` on the update route.
  - The mapping of errors to a 400 or a 500.

Where the behaviour of the code differs from its documented intent, the model follows the code:

- A sync merge overwrites only the fields the contact has. `undefined` fields are dropped when the partial document is serialised, so they do not clear the stored values.
- Several falsy values are silently ignored rather than rejected. Each of these holds for a number-typed value; see the query-string coercion line under "Left out" for what happens to the strings the route actually receives:
  - For a number-typed value, a NaN age is falsy, so the `isNaN(age)` branch of the search admission can never fire. A NaN age is simply ignored.
  - For a number-typed value, an age of 0 is ignored.
  - For a number-typed value, a `minCars` of 0 is ignored.
- `getContactEmail` does not answer "no e-mail" for every contact without one. A profile without `identities` contributes `undefined` to the flattened list. When `find` reaches that entry it throws a `TypeError`, which aborts the sync.
- The update route has no validation pipe, so a negative car count is stored.

## Model

| member | source | states |
|---|---|---|
| Js.DecimalString | src/person/person.service.ts:71-72 | the text of an integer is non-empty and starts with `-` exactly when the integer is negative |
| Js.NatStringLength | src/person/person.service.ts:70-72 | a natural number's text has at most k digits exactly when the number is below 10^k |
| Js.DigitsValueOfNatString | src/person/person.service.ts:70-72 | reading the digits of a number's text gives the number back |
| Js.ToNumberOfDecimalString | src/person/person.controller.ts:78 | `Number` of the decimal text of any integer, negative ones included, is that integer |
| Js.ToNumber | src/person/person.controller.ts:78 | in the model's integer-only `Number`, `undefined` converts to NaN, and a string of white space only, the empty string included, converts to 0 |
| Js.ToNumberRejectsNonNumeric | src/person/person.controller.ts:78 | in the model's integer-only `Number`, `undefined`, or a text with a character that is not a digit, sign or white space, is NaN |
| Js.TrimStart | src/person/person.controller.ts:78 | the result is a suffix of the input that starts with a non-space; every character removed is ECMAScript white space; the input is kept whole when it starts with a non-space |
| Js.TrimEnd | src/person/person.controller.ts:78 | the result is a prefix of the input that ends with a non-space; every character removed is ECMAScript white space; the input is kept whole when it ends with a non-space |
| Entity.ParseCalendarDate | src/person/person.entity.ts:19-20 | a date string has 10 characters with `-` at positions 4 and 7; its year is below 10000, its month 1..12 and its day 1..31 |
| Entity.IsDateString | src/person/person.entity.ts:19-20 | in the model's `YYYY-MM-DD` reading of ISO 8601, a date string has 10 characters with `-` at positions 4 and 7 |
| Entity.IsEmail | src/person/person.entity.ts:34-35 | a valid e-mail address has exactly one `@`, with a non-empty local part before it and a non-empty domain after it |
| Entity.ValidPerson | src/person/person.entity.ts:10-25 | in the model's `YYYY-MM-DD` reading of ISO 8601, a valid person has a ten-character date of birth and a car count of at least 0 |
| Entity.ValidContactDto | src/person/person.entity.ts:27-39 | in the model's `YYYY-MM-DD` reading of ISO 8601, a valid contact has an `@` in its e-mail address and a ten-character date of birth |
| Entity.SplitInTwo | src/person/person.entity.ts:34-35 | a string that splits into two pieces is the first piece, the separator and the second piece |
| Entity.Split | src/person/person.entity.ts:34-35 | splitting gives at least one piece, and no piece contains the separator |
| Entity.SplitJoin | src/person/person.entity.ts:34-35 | joining the pieces with the separator gives back the string that was split |
| Query.AgeClause | src/person/person.service.ts:68-81 | the age clause is a date range whose bounds are date strings exactly when the birth year `currentYear - age` has four digits, and they then read as 1 January and 31 December of that year |
| Query.BuildQuery | src/person/person.service.ts:52-90 | one clause per truthy criterion and no other, in the order fName, lName, age, minCars; the name clauses carry the names, the age clause is the range of birth year `currentYear - age`, and the minCars clause carries the minimum |
| Query.EmptyFilterMatchesAll | src/person/person.service.ts:54-90 | the `must` list is empty exactly when every criterion is falsy |
| Query.AgeBoundsAreDates | src/person/person.service.ts:68-81 | the age bounds are date strings exactly when the birth year has four digits, and they are then 1 January and 31 December of that year |
| Elastic.Merge | src/person/person.service.ts:109-113 | every field the patch has replaces the document's, and every field it lacks is kept |
| Elastic.MergeComposes | src/person/person.service.ts:109-113 | two partial updates in a row are one update with the second patch laid over the first |
| Elastic.MergeIdempotent | src/person/person.service.ts:109-113 | applying the same partial update twice is the same as applying it once |
| Elastic.QueryMeaning | src/person/person.service.ts:54-90 | a document satisfies the built conjunction exactly when it satisfies each truthy criterion: the names match, the birth date lies in the birth year, the car count reaches the minimum |
| Elastic.Store.Index | src/person/person.service.ts:34-42 | the document is stored under an id that was not in use, and nothing else changes |
| Elastic.Store.Update | src/person/person.service.ts:109-113 | an existing document is merged with the patch's fields and nothing else changes; a missing id fails and leaves the index unchanged |
| Elastic.Store.Search | src/person/person.service.ts:92-99 | fails exactly when a date bound cannot be read; otherwise returns distinct matching documents with their current contents, at most 10 of them, and every match when fewer than 10 are returned |
| HubSpot.FetchRequest | src/hubspot/hubspot.service.ts:11-21 | 100 contacts and the four properties are asked for; the offset is sent exactly when it is truthy, and it is then the one given |
| Service.FlatIdentities | src/person/person.service.ts:127-128 | the flattened list holds `undefined` exactly when some profile has no `identities`, and holds an identity exactly when some profile lists it |
| Service.FindEmail | src/person/person.service.ts:129 | a TypeError is raised only when an `undefined` entry is present; a found identity is an entry typed "EMAIL"; the result is `undefined` exactly when no entry is `undefined` or typed "EMAIL" |
| Service.GetContactEmail | src/person/person.service.ts:126-132 | a contact without `identity-profiles` has no e-mail; an address returned is the value of an identity typed "EMAIL" in its profiles; a TypeError arises only when a profile without `identities` is present |
| Service.FindEmailFirst | src/person/person.service.ts:129 | `find` answers from the first entry where it stops: an e-mail identity is returned, an `undefined` entry raises a TypeError, and with no such entry the result is `undefined` |
| Service.ContactEmailIsFirst | src/person/person.service.ts:126-132 | the address returned is the value of the first identity typed "EMAIL" across the profiles in order; it is `undefined` with none, and a TypeError when a profile without identities comes first |
| Service.ContactFields | src/person/person.service.ts:150-154 | a contact without `properties` raises a TypeError before its e-mail is looked at; reading fails exactly when `properties` is missing or the e-mail lookup fails, always with a TypeError; otherwise the fields are the two names and the date of birth of `properties` and the address of the e-mail lookup |
| Service.Collect | src/person/person.service.ts:149-155 | the batch has at most as many contacts as were read, and is complete exactly when it has them all |
| Service.ReadContactsMeaning | src/person/person.service.ts:149-155 | a page yields the fields of its contacts in order, up to the first contact that cannot be read; it is complete exactly when every contact was read |
| Service.CollectMeaning | src/person/person.service.ts:149-176 | the batch is the successful readings before the first failure, and the reading after them, if any, failed |
| Service.CollectSnoc | src/person/person.service.ts:149-176 | after a complete prefix, a failed contact ends the page's batch, and a readable one extends it |
| Service.MergeStepEffects | src/person/person.service.ts:156-175 | one merge keeps every record and adds at most the target; the target keeps its car count, or starts at 0 when new; it takes the contact's first name, last name, e-mail and date of birth wherever the contact has them (all four when the record is new); every other record is unchanged |
| Service.ReconciledSnoc | src/person/person.service.ts:156-175 | a merge from the state the earlier merges ended in extends the reconciliation |
| Service.ReconciledConcat | src/person/person.service.ts:145-180 | the merges of consecutive pages make one reconciliation |
| Service.ReconciledEffects | src/person/person.service.ts:156-175 | reconciliation never removes a record and never changes an existing record's car count; each added record has car count 0; at most one record is added per contact |
| Service.RemergeAddsNoRecord | src/person/person.service.ts:156-175 | when every text matches itself, merging the same contact again adds no second record |
| Service.NamelessContactOverwrites | src/person/person.service.ts:156-163 | a contact with neither name searches with the empty query, so when the directory is not empty it overwrites an existing record instead of adding one |
| Service.SyncOutcome | src/person/person.service.ts:140-188 | the whole sync sends at least one request and at most one more than there are answers, the first without an offset; it fails exactly when it asked past the last answer or did not read its last page to the end; when it succeeds, that page said there were no more |
| Service.RunRequests | src/person/person.service.ts:141-147 | there is one fetch per page, and at most one more than there are answers; the first request carries the starting offset; every later one carries the `vid-offset` of the page before, which was read completely and said `has-more` |
| Service.RunOutcome | src/person/person.service.ts:144-187 | a run fails exactly when it asked past the last answer or its last page was not read completely; when it succeeds, its last page said there were no more |
| Service.RunMerged | src/person/person.service.ts:149-176 | the contacts merged are those of the pages fetched, in order, ending with the readable prefix of the last page |
| Service.PersonService.constructor | src/person/person.service.ts:16-19 | the service works on the store it is given |
| Service.PersonService.CreatePerson | src/person/person.service.ts:21-44 | an unparseable date, or one after `now`, is a BadRequest and the store is unchanged; a date up to and including `now` indexes the person's four fields under a fresh id and changes nothing else |
| Service.PersonService.SearchPerson | src/person/person.service.ts:92-102 | the built query is run on the store; a bound the engine cannot read is a store error; otherwise the hits are a search result for the built query |
| Service.PersonService.UpdateCarCount | src/person/person.service.ts:105-116 | NaN is a BadRequest and leaves the store unchanged; any other number, negative ones included, replaces only that record's car count; a missing id is a store error and leaves the store unchanged |
| Service.PersonService.UpdateElasticsearchPerson | src/person/person.service.ts:118-124 | the person's four fields replace the record's and its e-mail is kept; a missing id is a store error |
| Service.PersonService.MergeContact | src/person/person.service.ts:156-175 | a contact matching no record by name is indexed with car count 0 under a fresh id; otherwise one matching record takes the contact's fields and keeps its car count |
| Service.PersonService.MergePage | src/person/person.service.ts:149-176 | the contacts are merged in order until the first one that cannot be read; the contacts merged are the page's batch, and the store has gone through one merge step per contact |
| Service.PersonService.SyncHubSpotContacts | src/person/person.service.ts:140-188 | the requests sent and the contacts merged are those of `SyncRun`; the sync fails exactly when the run does, with one 500 error "Failed to sync contacts with HubSpot"; the store has gone through one merge per merged contact, with no rollback on failure |
| Controller.ValidationMessages | src/person/person.controller.ts:23-25 | the pipe reports each field's message exactly when that field violates its constraint (an empty first or last name, a date of birth that is not a date string, a negative car count), no message twice, so at most four |
| Controller.ValidationMessagesEmpty | src/person/person.entity.ts:10-25 | the pipe reports nothing exactly when the names are non-empty, the date of birth is a date string and the car count is at least 0; it reports one message per violated constraint |
| Controller.AdmitSearch | src/person/person.controller.ts:46-54 | a search with every criterion falsy is rejected as empty; a search with a truthy negative age is rejected as "Invalid age"; any other filter is admitted unchanged |
| Controller.AdmittedFilterNarrowsSearch | src/person/person.controller.ts:46-61 | an admitted filter never builds the empty conjunction, and its age, when there is one, is positive, so the birth year searched lies before the current year |
| Controller.NaNAgeIgnored | src/person/person.controller.ts:46-54 | a NaN age is treated exactly as a missing age, both by the admission checks and by the query builder |
| Controller.MapError | src/person/person.controller.ts:63-69 | a BadRequest is re-raised with the same message, and anything else becomes an internal error with the route's message |
| Controller.MapErrorSettles | src/person/person.controller.ts:29-35 | a route only ever raises a 400 or a 500, and mapping an already mapped error changes nothing |
| Controller.CountArgument | src/person/person.controller.ts:78 | a missing `newCount` converts to NaN |
| Controller.CountArgumentOfInteger | src/person/person.controller.ts:78 | the text of any integer, negative ones included, converts to that integer |
| Controller.CountArgumentRejectsText | src/person/person.controller.ts:78 | in the model's integer-only `Number`, a `newCount` with a letter or another sign in it converts to NaN |
| Controller.PersonController.constructor | src/person/person.controller.ts:21 | the controller works on the service it is given |
| Controller.PersonController.CreatePerson | src/person/person.controller.ts:23-36 | an invalid person is refused by the pipe with its messages and the store is unchanged; a bad or future date is a BadRequest; otherwise "Person created successfully" with the fresh id, and the person's fields are stored under it |
| Controller.PersonController.SearchPerson | src/person/person.controller.ts:38-70 | a refused filter gives its BadRequest; an admitted filter is searched unchanged; a store failure becomes "Error occurred during search"; otherwise "Search results" with a search result for the built query |
| Controller.PersonController.UpdateCarCount | src/person/person.controller.ts:72-87 | a `newCount` that converts to NaN is a BadRequest and leaves the store unchanged; any number, negative ones included, sets that record's car count and nothing else; a missing record becomes "Failed to update car count" |
| Controller.PersonController.SyncHubSpotContacts | src/person/person.controller.ts:89-98 | the route reports "HubSpot contacts synced successfully" exactly when the run does not fail, and otherwise one internal error "Failed to sync contacts with HubSpot" |

## Left out

- Network, HTTP transport and the API key of the CRM client. The CRM is a finite sequence of answers. A fetch past the last answer is treated as a failed fetch.
- Failures of the document store other than a missing document and an unreadable date bound. Examples are a lost connection, a mapping rejection and a timeout.
- Elasticsearch full-text analysis, relevance order and indexing latency.
  - Text matching and date parsing are the abstract `Semantics`.
  - The order of hits is unspecified.
  - A document is searchable as soon as it is indexed.
- The clock and `new Date(...)`. The current year, `now` and the date parser are parameters.
- The `@Cron` trigger of `handleScheduledSync` and all `console` logging.
- Overlapping sync runs. The code takes no lock, and the model has none.
- `createHubSpotContact`, which is a single HTTP POST wrapper, together with its route.
- The module wiring in `person.module.ts` and the configuration in `elasticsearch.config.ts`.
- Js.ToNumber: reads only optionally signed decimal integers and blank strings. Fractions, exponents, hexadecimal and `Infinity` are not modelled. Numbers are unbounded integers throughout, whereas JavaScript rounds integers above 2^53 to the nearest double.
- Js.ToNumberOfDecimalString: holds in JavaScript only for integers of magnitude up to 2^53; `Number("9007199254740993")` is 9007199254740992.
- Js.DecimalString: writes every digit of the integer, whereas JavaScript's `${n}` switches to exponent notation from 10^21 on (`"1e+21"`). The birth year of the age clause reaches that bound only for an age of about 10^21 or more; neither text is then a date string.
- Js.ToNumberRejectsNonNumeric: holds of the model's integer-only `Number`. JavaScript reads `"1.5"`, `"5."`, `"1e3"`, `"0x10"`, `"0b101"` (5), `"0o17"` (15), `".5"` and `"Infinity"` as numbers.
- Controller.CountArgumentRejectsText: holds of the model's integer-only `Number`. JavaScript reads `"1.5"`, `"5."`, `"1e3"`, `"0x10"`, `"0b101"` (5), `"0o17"` (15), `".5"`, `"Infinity"` and `"-Infinity"` as numbers, so those `newCount` values are not refused.
- Controller.CountArgumentOfInteger: holds in JavaScript only for integers of magnitude up to 2^53; `?newCount=9007199254740993` stores 9007199254740992.
- Entity.ParseCalendarDate: accepts only the `YYYY-MM-DD` calendar form of ISO 8601. The validator's non-strict ISO 8601 rule also accepts the reduced-precision forms (`"1990"`, `"1990-01"`), the basic form (`"19900101"`), the expanded-year form (`"+1990-01-01"`), date-times (`"1990-01-01T10:00:00Z"`) and the week and ordinal forms; none of them is accepted here. The day is not checked against the month.
- Entity.IsDateString: inherits the narrowing of `ParseCalendarDate`. The model's pipe refuses `"1990"`, `"1990-01"`, `"19900101"`, `"+1990-01-01"` and `"1990-01-01T10:00:00Z"`, which the program's pipe accepts. `Controller.ValidationMessages`, `Controller.ValidationMessagesEmpty` and `Controller.PersonController.CreatePerson` rest on this predicate, so the model's create route refuses a person with such a date of birth that the program indexes.
- Entity.ValidPerson: refuses a person whose date of birth is one of the forms above (for example `"1990"` or `"1990-01-01T10:00:00Z"`), which the program's pipe accepts.
- Entity.ValidContactDto: refuses a contact whose date of birth is one of the forms above, which the program's validation accepts.
- Entity.IsEmail: is a simplified shape of the validator's e-mail rule. The character classes of the local part and of the labels are not checked.
- Controller.ValidationMessages: its message texts follow class-validator's defaults. The `@IsString` and `@IsInt` checks hold by typing and produce no message.
- Query-string coercion. At runtime `age` and `minCars` arrive as strings, and the model follows the declared `number` types instead. With strings, `?age=abc` is truthy and `isNaN("abc")` holds, so it is refused as "Invalid age"; `?age=0` is truthy and builds a date range; `?minCars=0` is truthy and builds a `gte` bound of `"0"`.
- The person id of the update route is a string in the code and a natural number here.
- The bodies of the responses carry only the message and the result. The raw Elasticsearch response objects are not modelled.

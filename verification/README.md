# LAG Alma Utils: the cached-record lifecycle, in Dafny

LAG Alma Utils is the cache layer a library system's services share. Records
of loans, requests, fees and users are copied out of the library management
system into a key-value store. This project models how those records are
built, stamped, saved and read back:

- **Item objects.** `Item`, `LoanItem`, `Request` and the older `Loan` start
  from an identity key and pick whitelisted fields out of incoming data
  (`populate`). They stamp an `expiry_date` in unix seconds from a date
  attribute (`addExpiryDate`), and then save or delete themselves through a
  store handle.
- **The older `User` object.** It loads its id lists from the store. It can
  be saved only after a successful load.
- **Schemas.** The user, loan, fee, queued-user and request schemas declare
  which attributes are stored. They also say which attributes are lower-cased
  and how a missing `expiry_date` is filled in: from the due date for loans,
  two weeks ahead for fees, two hours for users and five minutes for queued
  users.
- **The user schema's document methods.** These keep three id lists with set
  semantics. They also turn the loan and request id lists into records through
  `batchGet` calls of at most 25 keys.
- **`getValid`.** This is the read-time gate every schema installs. It returns
  a record only while its stamp has not passed.

Modules, one concept each:

- **Values**: attribute values, truthiness, results, lower-casing.
- **DateTime**: the `YYYY-MM-DDTHH:mm:ssZ` shape of RFC 3339 (section 5.6) and
  its unix seconds. The day count uses a closed form that is proved equal to a
  year-by-year reference.
- **Projection**: `populate` as pick-then-merge, and the stamp.
- **Store**: a handle that logs calls and passes the store's answer back.
- **Items, LoanItems, Requests, Loans**: the item objects as classes.
- **IdLists**: the add and delete operations on id lists.
- **Users**: the older user object.
- **Expiry**: fixed-offset stamps.
- **ValidityGate**: `getValid`.
- **Documents**: what a schema does to a document on the way into the store.
- **UserSchema, LoanSchema, FeeSchema, QueuedUserSchema, RequestSchema**: the
  schemas.

The model follows the code where the code and the intent stated in the repository's own tests differ:

- **The whitelist.** `populate` reads `this.fields` on the instance (src/item.js:19). The class-level lists are static (src/item.js:41, src/loan-item.js:16, src/request.js:14), so at run time the instance whitelist is undefined. lodash's `_pick` turns an undefined path into the key `"undefined"`, so `populate` keeps only an input attribute literally named `undefined`. `Items.Item` takes the whitelist as a parameter, and every property is proved for any whitelist. `Items.PopulateAtRunTime` states the run-time behaviour. The loan scenarios use the class list, which test/item-test.js:99-105 says is the one meant for subclasses.
- **Request `getValid`.** It asks for `record_expiry_date`, but the shared gate ignores that argument (see Findings).

## Model

| member | source | states |
|---|---|---|
| Values.Lower | src/request-schema.js:18-21 | the `lowercase` option keeps the length and maps each upper-case ASCII letter to its lower-case letter, leaving every other character alone |
| Values.LowerIsCanonical | src/user-schema.js:23-27 | a lower-cased id holds no upper-case letter, and lower-casing it again changes nothing |
| DateTime.DaysBeforeYearCorrect | src/loan-schema.js:15 | the closed-form day count to January 1 equals the year-by-year count for every year, before and after 1970 |
| DateTime.DaysBeforeMonthCorrect | src/loan-schema.js:15 | the month offset table equals the sum of the month lengths, leap years included |
| DateTime.NextDayIsNextNumber | src/loan-schema.js:15 | the next calendar day has the next day number, across month and year ends: no gaps and no repeats |
| DateTime.UnixSecondsSplit | src/loan-schema.js:15 | a unix time divides back into its day number and its second of the day |
| DateTime.ParseFormat | src/loan-schema.js:15 | every valid date-time is read back from its own `YYYY-MM-DDTHH:mm:ssZ` text |
| DateTime.FormatParse | src/loan-schema.js:15 | every accepted string is the canonical text of the date-time it was read as |
| DateTime.ParseShaped | src/loan-schema.js:15 | a string of the fixed shape is read field by field from its digit positions |
| DateTime.UnixValue | src/item.js:25 | the model computes a number only for the exact shape `YYYY-MM-DDTHH:mm:ssZ`, and then it is that instant's unix seconds; any other value stays an uninterpreted `UnixOf(v)` |
| DateTime.EpochInstant | test/loan-schema-test.js:20-21 | `1970-01-01T00:00:00Z` is 0 |
| DateTime.EpochPlusOneInstant | test/loan-schema-test.js:29-30 | `1970-01-01T00:00:01Z` is 1 |
| DateTime.DueDateInstant | test/item-test.js:229-231 | `2018-02-23T14:10:06Z` is 1519395006 |
| Projection.Pick | src/item.js:19 | `_pick` keeps exactly the input's whitelisted keys, with their values |
| Projection.Merge | src/item.js:19 | `_merge` keeps every key of either side, and the source's value wins |
| Projection.Populate | src/item.js:18-21 | the keys are the old keys plus the whitelisted input keys; whitelisted input values replace old ones; every other old value is kept |
| Projection.PopulateStaysWithin | src/item.js:18-21 | populate adds no key outside the whitelist |
| Projection.PopulateTwice | src/item.js:18-21 | two populates in a row equal one populate with the second input merged over the first |
| Projection.PopulateNoFields | src/item.js:19 | with an empty whitelist, populate leaves the data unchanged |
| Projection.PopulateIdempotent | src/item.js:18-21 | repeating a populate with the same input changes nothing |
| Projection.AddExpiryDate | src/item.js:23-28 | a truthy source field sets `expiry_date` to its unix time; a falsy or missing one changes nothing; no other key is touched |
| Projection.AddExpiryStaysWithin | src/item.js:23-28 | stamping adds at most `expiry_date` |
| Projection.StampFromPopulatedDueDate | test/loan-item-test.js:165-167 | populating the test due date, then stamping from it, gives 1519395006 whenever `due_date` is whitelisted |
| Projection.NoStampWithoutSource | src/item.js:24 | without the source field no stamp appears |
| Items.Item.constructor | src/item.js:7-16 | the data starts as `{ <type>_id: id }`, with no store call made |
| Items.Item.Populate | src/item.js:18-21 | the data becomes the populate of the old data; only whitelisted keys, the identity key and the stamp stay held; returns itself |
| Items.Item.AddExpiryDate | src/item.js:23-28 | the data becomes the stamp of the old data; the key bound is kept; returns itself |
| Items.Item.Save | src/item.js:30-32 | one save call carrying the current data; the store's answer is passed back unchanged |
| Items.Item.Delete | src/item.js:34-38 | one delete call keyed by the constructor's id, whatever the data now holds |
| Items.PopulateAtRunTime | src/item.js:18-21 | with the whitelist an instance reads at run time (`_pick` with an undefined path picks the key `"undefined"`), populate leaves the identity key and, at most, an input attribute named `undefined` |
| Items.DeleteAfterOverwrite | src/item.js:34-38 | after populate overwrites `<type>_id`, delete still sends the original id |
| LoanItems.FieldListFacts | src/loan-item.js:16-30 | the loan whitelist has 13 distinct names, including `loan_id` and `due_date` but not `expiry_date` |
| LoanItems.NewLoanItem | src/loan-item.js:4-13 | a loan item has type `loan`, key `loan_id` and data `{ loan_id: id }` |
| LoanItems.StampScenario | test/loan-item-test.js:165-167 | a chained populate and stamp gives 1519395006; a loan without a due date is not stamped |
| Requests.FieldListFacts | src/request.js:14-34 | the request whitelist has 19 distinct names and neither `expiry_date` nor `record_expiry_date` |
| Requests.NewRequest | src/request.js:5-11 | the constructor writes `key` and `type` into the caller's own object; the data is `{ request_id: id }` |
| Requests.UnnamedStampScenario | src/item.js:23-28 | `addExpiryDate()` with no field name adds no stamp |
| Loans.FieldListFacts | src/loan.js:7-21 | the module whitelist has 13 distinct names, including `loan_id` and `due_date` but not `expiry_date` |
| Loans.SameFieldsAsLoanItem | src/loan.js:7-21 | `Loan` and `LoanItem` whitelist the same fields |
| Loans.Loan.constructor | src/loan.js:24-33 | the loan data starts as `{ loan_id }`, with no store call made |
| Loans.Loan.Populate | src/loan.js:35-38 | the loan data becomes the populate of the old data over the module whitelist; returns itself |
| Loans.Loan.AddExpiryDate | src/loan.js:40-45 | the stamp is taken from `due_date` unless another field is named; returns itself |
| Loans.Loan.Save | src/loan.js:47-49 | one save call carrying the loan data; the answer is passed back unchanged |
| Loans.StampScenario | test/loan-test.js:165-167 | a chained populate and default stamp gives 1519395006; an unpopulated loan stays `{ loan_id }` |
| IdLists.Add | src/user-schema.js:102-107 | the id ends up present; a present id leaves the list unchanged; a new one is appended after the existing ids |
| IdLists.Remove | src/user-schema.js:109-112 | no copy of the id is left, and every other id keeps its number of occurrences |
| IdLists.AddIdempotent | src/user-schema.js:102-107 | adding twice is adding once |
| IdLists.AddKeepsNoDuplicates | src/user-schema.js:102-107 | add keeps a duplicate-free list duplicate-free |
| IdLists.RemoveAppend | src/user-schema.js:109-112 | the filter distributes over concatenation, so the surviving ids keep their order |
| IdLists.RemoveAbsent | src/user-schema.js:109-112 | removing an absent id changes nothing |
| IdLists.RemoveIdempotent | src/user-schema.js:109-112 | removing twice is removing once |
| IdLists.RemoveKeepsNoDuplicates | src/user-schema.js:109-112 | remove never creates a duplicate |
| IdLists.RemoveAfterAdd | src/user-schema.js:102-112 | adding then removing an id is just removing it |
| Users.User.constructor | src/user.js:9-17 | a new user has empty lists and is not saveable |
| Users.User.GetData | src/user.js:19-30 | one fetch call; on success the lists are the loaded ones and the user becomes saveable; on failure the store's error is passed on and nothing changes; saveable implies the user was fetched |
| Users.User.Save | src/user.js:32-44 | when saveable, one save of `{ user_id, loan_ids, request_ids }` with the store's answer; otherwise a rejection with `CacheError('Record is not saveable')` and no call |
| Users.User.AddLoan | src/user.js:46-51 | the loan list becomes the add of the id, and nothing else changes |
| Users.User.AddRequest | src/user.js:53-55 | nothing changes |
| Users.SaveBeforeLoad | test/user-test.js:89 | a fresh user's save is rejected and the store sees nothing |
| Users.SaveAfterLoad | src/user.js:32-44 | after a load, the store sees the fetch and then a save of the loaded lists |
| Expiry.OffsetExpiry | src/user-schema.js:15-18 | the stamp is exactly the offset past `now`, and, for a non-negative offset, never earlier than `now` |
| Expiry.OffsetExamples | src/queued-user-schema.js:13-16 | two hours, five minutes and two weeks from 0 are 7200, 300 and 1209600 |
| ValidityGate.GetValidBy | src/get-valid.js:3-9 | a store error is passed on; a missing record gives null; a record is returned exactly when its stamp is a number no smaller than `now` |
| ValidityGate.GetValid | src/get-valid.js:3-9 | a record is returned only if it is the stored one and its `expiry_date` is live, and is returned whenever it is; a store error is passed on |
| ValidityGate.BoundaryIsValid | src/get-valid.js:6 | a record stamped exactly `now` is still returned |
| ValidityGate.ValidEarlier | src/get-valid.js:6 | a record returned at time t is returned at every earlier time |
| Documents.Stored | src/request-schema.js:13-55 | only declared attributes are stored, each normalised; the only attribute added is the schema's expiry stamp, taken from the given default, which fills a missing stamp |
| Documents.StoredIsStable | src/request-schema.js:13-55 | storing a stored record again gives the same record |
| Documents.StoredDeclared | src/loan-schema.js:21-47 | a document of declared, unflagged attributes is stored as it is, plus the default stamp |
| UserSchema.Chunks | src/user-schema.js:55 | `_chunk(ids, 25)` gives pieces of 1 to 25 ids, all but the last exactly 25, `ceil(n/25)` of them, which concatenate back to the ids |
| UserSchema.KeyBatches | src/user-schema.js:55-65 | the batch key lists, flattened, are exactly one `{ <tableKey>: id }` per id in id order; there are `ceil(n/25)` of them, each of 1 to 25 keys |
| UserSchema.Gather | src/user-schema.js:67-73 | on success every call succeeded; on failure the error is that of a failing call with every earlier call successful |
| UserSchema.CallCountExamples | test/user-schema-test.js:183-194 | no ids give no call; thirty ids give two calls, of 25 and 5 keys |
| UserSchema.SingleBatchExample | test/user-schema-test.js:160-179 | three loan ids give a single call with `{ loan_id }` keys in id order |
| UserSchema.GatherSucceeds | src/user-schema.js:67-73 | hydration succeeds exactly when every call succeeds, and then yields all responses concatenated |
| UserSchema.PopulateArrayFromModel | src/user-schema.js:54-74 | the calls issued are the batch key lists, in chunk order; the result is the gathered responses or the first error |
| UserSchema.UserDocument.constructor | src/user-schema.js:22-49 | a document holds the given lists, with no stamp and no hydrated records; it is duplicate-free exactly when the given lists are, since a document loaded from the store may hold duplicates |
| UserSchema.UserDocument.Stored | src/user-schema.js:22-49 | the stored user has exactly the five declared attributes: the primary id lower-cased, the three lists as held, and the document's own stamp or else `now + 7200` |
| UserSchema.UserDocument.Add | src/user-schema.js:102-107 | only the named list changes, to the add of the value; duplicate-freedom is kept; returns itself |
| UserSchema.UserDocument.DeleteItem | src/user-schema.js:109-112 | only the named list changes, to the remove of the value; duplicate-freedom is kept; returns itself |
| UserSchema.UserDocument.AddLoan | src/user-schema.js:90-92 | the loan ids become the add of the id; the other lists, the primary id, the stamp and the hydrated records are kept; `Valid` is preserved; returns itself |
| UserSchema.UserDocument.AddRequest | src/user-schema.js:94-96 | the request ids become the add of the id; the other lists, the primary id, the stamp and the hydrated records are kept; `Valid` is preserved; returns itself |
| UserSchema.UserDocument.AddFee | src/user-schema.js:98-100 | the fee ids become the add of the id; the other lists, the primary id, the stamp and the hydrated records are kept; `Valid` is preserved; returns itself |
| UserSchema.UserDocument.DeleteLoan | src/user-schema.js:114-116 | the loan ids become the remove of the id; the other lists, the primary id, the stamp and the hydrated records are kept; `Valid` is preserved; returns itself |
| UserSchema.UserDocument.DeleteRequest | src/user-schema.js:118-120 | the request ids become the remove of the id; the other lists, the primary id, the stamp and the hydrated records are kept; `Valid` is preserved; returns itself |
| UserSchema.UserDocument.DeleteFee | src/user-schema.js:122-124 | the fee ids become the remove of the id; the other lists, the primary id, the stamp and the hydrated records are kept; `Valid` is preserved; returns itself |
| UserSchema.UserDocument.PopulateLoans | src/user-schema.js:76-81 | batches by `loan_id`; on success `loans` holds the gathered records; on failure the error is passed on and `loans` is kept; the id lists, the primary id, the stamp and `requests` are never changed |
| UserSchema.UserDocument.PopulateRequests | src/user-schema.js:83-88 | batches by `request_id`; on success `requests` holds the gathered records; on failure the error is passed on and `requests` is kept; the id lists, the primary id, the stamp and `loans` are never changed |
| UserSchema.GetValid | src/user-schema.js:51 | the user schema installs the shared gate on `expiry_date`: a user is returned exactly while its stamp is live; a missing or expired one gives null; a store error is passed on |
| LoanSchema.CalculateExpiry | src/loan-schema.js:13-19 | a missing or falsy due date gives 0; a parseable one gives its unix seconds |
| LoanSchema.CalculateExpiryOfFormat | src/loan-schema.js:13-19 | a due date written in the fixed shape expires at exactly that instant |
| LoanSchema.CalculateExpiryNextDay | src/loan-schema.js:13-19 | a loan due one calendar day later expires 86400 seconds later |
| LoanSchema.CalculateExpiryExamples | test/loan-schema-test.js:17-31 | the epoch gives 0, one second later gives 1, and no due date gives 0 |
| LoanSchema.StoredLoanStamp | src/loan-schema.js:31-36 | an unstamped loan is stored with the expiry of its own due date, its declared attributes kept and nothing else added |
| LoanSchema.StoredLoanWithDueDate | src/loan-schema.js:31-36 | a loan of id and due date is stored as those plus the due date's expiry |
| LoanSchema.StoredLoanExample | src/loan-schema.js:31-36 | a loan due at the epoch is stored with stamp 0 |
| LoanSchema.DeclaredAttributes | src/loan-schema.js:21-47 | the schema declares `loan_id`, `due_date` and `expiry_date`, and lower-cases nothing |
| LoanSchema.GetValid | src/loan-schema.js:49 | the loan schema installs the shared gate on `expiry_date`: a loan is returned exactly while its stamp is live; a missing or expired one gives null; a store error is passed on |
| LoanSchema.LoanValidUntilDue | src/loan-schema.js:31-49 | a loan stored without a stamp and due at t is found by `getValid` exactly while `now` is at most t |
| FeeSchema.DefaultExpiryIsFloor | src/fee-schema.js:35-38 | the default is two weeks past the floor of the clock in seconds, even for times before the epoch |
| FeeSchema.DefaultExpiryMonotone | src/fee-schema.js:35-38 | a later clock never gives an earlier default |
| FeeSchema.DefaultExpiryExamples | test/fee-schema-test.js:56-177 | 1000000 ms gives 1000 + 1209600, and 0 ms gives 1209600 |
| FeeSchema.UndeclaredDropped | test/fee-schema-test.js:193-216 | an undeclared attribute is dropped and the stamp filled in |
| FeeSchema.GetValid | src/fee-schema.js:43 | the fee schema installs the shared gate on `expiry_date`: a fee is returned exactly while its stamp is live; a missing or expired one gives null; a store error is passed on |
| QueuedUserSchema.QueuedUserLifetime | src/queued-user-schema.js:13-27 | a queued user stored at `now` without its own `expiry_date` is live until `now + 300` and not after, whatever else the document holds |
| QueuedUserSchema.QueuedUserOwnStamp | src/queued-user-schema.js:13-27 | a queued user whose document already holds an `expiry_date` is stored with that stamp, not `now + 300` |
| QueuedUserSchema.StoredQueuedUserExample | test/queued-user-schema-test.js:63-78 | a user queued at time 0 is stored with stamp 300 |
| QueuedUserSchema.GetValid | src/queued-user-schema.js:29 | the queued-user schema installs the shared gate on `expiry_date`: a queued user is returned exactly while its stamp is live; a missing or expired one gives null; a store error is passed on |
| RequestSchema.StoredRequest | src/request-schema.js:13-55 | for any `record_expiry_date` default: the stored keys are the declared keys of the document plus the stamp when a default exists; the user id is lower-cased; other declared attributes are kept; the default fills a missing stamp |
| RequestSchema.UndeclaredDropped | test/request-schema-test.js:114-131 | with no default stamp, the instance this test expects, an undeclared attribute is dropped and nothing is added |
| RequestSchema.StampedRequestFoundUntilStamp | src/request-schema.js:52-59 | a request stored with a default stamp is found by the intended gate while `now` is at most the stamp, and not after |
| RequestSchema.GetValidAsWritten | src/request-schema.js:57-59 | as written the gate judges a request by `expiry_date`: returned exactly while that attribute is a live number; a missing request, or one whose `expiry_date` is not live, gives null; a store error is passed on |
| RequestSchema.GetValid | src/request-schema.js:57-59 | the intended gate: a request is returned exactly while its `record_expiry_date` is live; a missing or expired request gives null; a store error is passed on |
| RequestSchema.StringExpiryHidesLiveRequest | src/request-schema.js:57-59 | the gate as written refuses any request whose `expiry_date` is a date string, even one the intended gate returns |
| RequestSchema.StringExpiryExample | src/request-schema.js:57-59 | a concrete request stamped 100 with `expiry_date: 'a date'` is refused at time 0 as written and returned by the intended gate |
| RequestSchema.ValidEarlier | src/request-schema.js:57-59 | under the intended gate, a request returned at t is returned at every earlier time |

## Left out

- JavaScript coercion in comparisons: a non-numeric `expiry_date`, including a numeric string, counts as not live, and NaN is not modelled.
- DateTime.UnixValue: `moment`'s lenient parsing and local offsets are not modelled. Only strings of the exact shape `YYYY-MM-DDTHH:mm:ssZ` with years 0000 to 9999 are read. Any other input becomes an uninterpreted `UnixOf(v)`.
- DateTime.UnixValue: a `UnixOf` stamp is not a number, so it never passes the validity gate, even where `moment` would give a number.
- DateTime.UnixValue: a `UnixOf` stamp counts as truthy, even where `moment` would give 0 or NaN.
- DateTime.UnixValue: `moment(v)` at src/item.js:25 and `moment(v, fmt)` at src/loan-schema.js:15 are modelled as the same parse.
- Projection.Merge: `_merge` is deep; the model treats every value as an atom, so nested objects are replaced, not merged. The `undefined` value is modelled as an absent key.
- Tables, regions, the AWS configuration and the `tableName`/`itemTable` mismatch between `LoanItem` and `Item`: none of them affects the record contents.
- The store itself: `save`, `delete`, `get` and `batchGet` are a log of calls. Each call's answer is a parameter.
- The clock: `now` is a parameter in seconds. The fee default takes it in milliseconds.
- `src/calculate-expiry.js` is not part of this model. Its result is taken as `now + offset` in whole seconds, as the schema tests expect.
- `src/default-expiry.js` is not part of this model. The `record_expiry_date` default it computes is a parameter of RequestSchema.StoredRequest. `None` is the instance test/request-schema-test.js:114-131 expects.
- Documents.Stored: the user lists' `[]` defaults (src/user-schema.js:31,36,41) are not modelled. A UserDocument always holds all three lists.
- Values.Num: numbers are integers. A fractional value, such as a fee amount, is not representable.
- UserSchema.PopulateArrayFromModel: the calls run concurrently in the source. There, the records are concatenated in completion order and the first rejection in time wins. The model issues them in chunk order and concatenates the same way, so the first error in chunk order wins.
- Users.User.GetData: a store answer that lacks a user record is not modelled. The source would fail reading its lists.
- Dynamoose type checking and type conversion (`useDocumentTypes`, native booleans, map and list attribute types) are not modelled. A value is stored as given.
- Values.Lower: only ASCII letters are lower-cased, whereas JavaScript's `toLowerCase` also maps other Unicode letters.
- The test helpers and test-only code (the local store set-up, key checks, stubs) are not modelled.

## Findings

| source | as written | input that shows it | evidently intended | confidence | as-written member | corrected member |
|---|---|---|---|---|---|---|
| src/request-schema.js:57-59 | `getValid` passes `'record_expiry_date'` to the shared gate, which takes one argument and compares `expiry_date`, a date string in this schema | a request `{ expiry_date: 'a date', record_expiry_date: 100 }` looked up at time 0 is refused | judge a request by its `record_expiry_date` stamp | not executed | RequestSchema.StringExpiryHidesLiveRequest | RequestSchema.GetValid |

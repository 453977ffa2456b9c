# Verification of the Shopify to NetSuite order integration

These Dafny files model the parts of the integration where a mistake duplicates an order, loses
one, or books a wrong amount, and prove what those parts promise.

`dafny verify dfyconfig.toml` checks everything.

| file | what it models |
|---|---|
| `Common.dfy` | `Option`, `Result`, internal ids |
| `DedupKey.dfy`, `ExternalId.dfy` | the key of an `entity_xref` row; the NetSuite external id of a Shopify GID |
| `XrefStore.dfy` | the atomic specification of the xref store, and the in-memory store that refines it |
| `PostgresXrefStore.dfy` | the two-statement Postgres claim, and its linearisation against that specification |
| `NetSuiteGateway.dfy` | NetSuite as a keyed upsert that numbers its records |
| `OrderImportFlow.dfy` | the order import as a graph of awaits: what may happen at each, where it goes next, what it does to the row |
| `OrderImportHandler.dfy` | the handler itself, with its try, catch and finally, tied to that graph |
| `OrderProtocol.dfy` | any number of deliveries and replays at once, with faults and crashes, over one table and one NetSuite |
| `Replay.dfy` | `requestReplay` |
| `OrderListing.dfy`, `CatchupPoller.dfy`, `PollProgress.dfy` | the paged, sorted listing; the poller and its watermark, alone and interleaved with everything else; which orders it ever sees |
| `AddressBook.dfy`, `AddressBookSessions.dfy` | the read, merge, write of a customer's address book; orders of one customer whose reads and writes interleave |
| `MappingRules.dfy`, `MappingObjects.dfy`, `MappingCourse.dfy`, `MappingEvaluator.dfy` | what a mapping list means on trees; paths into objects that are read and written in place; the course of an evaluation, move by move, and when it writes into the source; the evaluator |
| `OrderPayload.dfy` | eligibility, payload, balancing, item ids and the item cache |
| `Governor.dfy`, `GovernorProtocol.dfy` | one client of the NetSuite concurrency budget; any number of them |
| `TokenService.dfy` | the single-flight token cache |

Every await is a point where anything else may run. The step graph of `OrderImportFlow` is the
one description of the handler's control flow: `OrderImportHandler.Handler` carries its place in
the graph as ghost state, so the imperative code cannot skip or reorder a step, and
`OrderProtocol` runs many copies of the same graph over shared state. What the graph must come to
is said apart from it: `OrderImportFlow.Earns` reads off the answers of the awaits, position by
position, which result they allow, and every delivery of every run is proved to end so.

## How the values are modelled

Money is whole cents or `NaN`; instants are integers; internal ids are pairs of account and
number in the protocol and plain numbers in the address book. A dotted path is the list of its
parts. A derivation is a pure function of its arguments and the source at hand. The class of a
thrown error is arbitrary; only the retry or park split is kept. Whether an await throws, and
whether a write that threw took effect, is left open everywhere.

## Where the code does not do what is said of it

The lemmas named with each say exactly when, and show an input.

- A failure that is retried, anywhere before the upsert has returned, leaves the row `pending`,
  and its redeliveries are told `already_claimed` until the row is deleted
  (`OrderProtocol.TransientLeavesPending`, and `OrderProtocol.TransientInstance` for any order of a
  known connection whose fetch fails so). Later failures leave the status of their place: a
  failing log after the import leaves `synced`, one after `markIgnored` leaves `ignored`
  (`OrderProtocol.ThrowLeavesDormant`). Pending is left if and only if no settling write was
  applied (`OrderImportFlow.ThrowLeavesPendingIff`).
- An imported order does not always stay `synced`: a log that fails for good parks it
  (`OrderImportFlow.ImportStaysSyncedUnlessALogFails`, `OrderImportFlow.ImportedRowFlips`).
- The poller starves orders exactly when one instant is shared by a whole page of them with more
  than a page left (`PollProgress.EveryOrderSeenIff`, `PollProgress.StarvedInstance`).
- No poll config is rejected. The watermark never moves back under any, but it leaves no gap only
  with an overlap that is not negative and a page size above zero: `CatchupPoller.GapWithout` has
  a run with a gap for every other config.
- An address without a Shopify id is appended afresh by every import
  (`AddressBook.ReimportIsFixedIff`, `AddressBook.NoIdInstance`).
- Orders of one customer are serialised one by one, not together, so an import may merge with a
  read that is out of date. It leaves exactly one default of each kind if and only if its read
  listed every row that has one, and a second row of one Shopify address exactly when the read
  missed a row of it (`AddressBookSessions.WriteInAnyRun`, `AddressBookSessions.TwoOrdersIff`,
  `AddressBookSessions.SameAddressTwice`).
- A mapping that writes below a place where the output holds an object of the source writes into
  the source, and nothing else does (`MappingCourse.SourceWrittenIff`). What is written is the
  value the mapping computes, into that object (`MappingCourse.FirstWriteIs`,
  `MappingEvaluator.CopyThenNote`).
- A line amount that is not a number passes the balancing check, because no comparison with `NaN`
  is true (`OrderPayload.BalancedIff`, `OrderPayload.NaNInstance`). A negative order discount is
  balanced but not sent (`OrderPayload.RenderedAtTotalIff`,
  `OrderPayload.NegativeDiscountInstance`).
- The item cache can answer one account with another's item, when one account id followed by the
  separator begins the other followed by it (`OrderPayload.ClashIff`, `OrderPayload.WrongItem`).
- Processes that share a store can make the same holder id, and their requests then share a slot,
  any number of them (`GovernorProtocol.AcquireMatchesIff`, `GovernorProtocol.SameHolderOverruns`).
- The comment of `external-id.ts` promises lower-case letters, digits and `-`; that holds for GIDs,
  and for other ids exactly when they have no upper-case letter and no `_`
  (`ExternalId.LowerCaseIff`).

## Model

| member | source | states |
|---|---|---|
| `OrderProtocol.OneOrderOneRecord` | apps/functions/src/triggers/order-import-handler.ts:141-541 | In every reachable state: claims plus ignored inserts equal deletes plus the row that is there; upserts are at most claims and claims at most one more than deletes; no record is created twice; a synced row is of a known connection and names the record under that connection's account, its record type and the order's own id |
| `OrderProtocol.RecordsApart` | apps/functions/src/triggers/order-import-handler.ts:396-401 | Two synced rows with one target id are of the same Shopify id, account and record type |
| `OrderProtocol.OnlyEligibleAreWritten` | apps/functions/src/triggers/order-import-handler.ts:255-401 | In every run an order is upserted only after Shopify was asked and it was eligible, and NetSuite holds no record but those orders', each under its own key, and their customers' |
| `OrderProtocol.ImportedCustomerIsThere` | apps/functions/src/triggers/order-import-handler.ts:300-325 | In every run an imported order's customer, if it has one, is in NetSuite under the connection's account and the customer's own id |
| `OrderProtocol.ResultsAreEarned` | apps/functions/src/triggers/order-import-handler.ts:141-541 | In every run, whatever runs beside it, a delivery ends as its own awaits' answers make it end; only an `orders/updated` webhook is ever at the gate, and it reaches the claim only past a row found there |
| `OrderProtocol.RunKeepsFiled` | apps/functions/src/triggers/order-import-handler.ts:141-541 | Every run keeps each row what its claim or its markIgnored said of it, and each delivery at a place its answers account for |
| `OrderProtocol.RunKeepsInv` | apps/functions/src/triggers/order-import-handler.ts:209-234 | Every run of deliveries, replays, faults and crashes keeps the protocol invariant |
| `OrderProtocol.RecordsAreForever` | packages/netsuite-client/src/fake-gateway.ts:66-100 | No run renumbers or drops a NetSuite record, or forgets an event |
| `OrderProtocol.DormantUntilDelete` | apps/functions/src/triggers/order-import-handler.ts:209-233 | Once nobody holds a row, no later delivery or replay changes it or calls NetSuite for it, and each is refused with the row's own status, until an effective delete |
| `OrderProtocol.SettledForGood` | apps/functions/src/triggers/order-import-handler.ts:255-525 | With serialised sessions, `imported` leaves the row synced, `parked` error, `ignored_by_eligibility` ignored, whatever logs or tags failed, and the row then stays so until deleted |
| `OrderProtocol.CrashLeavesDormantRow` | apps/functions/src/triggers/order-import-handler.ts:219-255 | A worker that dies after its claim leaves a row with the status of the place it died at, which only a delete revives |
| `OrderProtocol.TransientLeavesPending` | apps/functions/src/triggers/order-import-handler.ts:561-616 | In a serialised run a retried failure before the upsert has returned leaves the row pending, and every later delivery is rejected, told already_claimed or throws until a delete |
| `OrderProtocol.TransientInstance` | apps/functions/src/triggers/order-import-handler.ts:561-616 | One such run for every order of a known connection: claimed by a catch-up message, its fetch fails, and the row stays pending through whatever follows, NetSuite never called, until a delete |
| `OrderProtocol.ThrowLeavesDormant` | apps/functions/src/triggers/order-import-handler.ts:497-525 | Any await whose error ends a serialised delivery leaves the row with the status of its place, for good until a delete |
| `OrderProtocol.OneAttemptRowEach` | apps/functions/src/triggers/order-import-handler.ts:219-541 | In every run, whatever runs or deletes beside it: an ended delivery whose claim was answered wrote exactly one attempt row, with its own result; no delivery ever writes two |
| `OrderProtocol.RunKeepsAudit` | apps/functions/src/triggers/order-import-handler.ts:768-814 | Every run keeps the count of attempt rows and answered claims of every delivery, ended, stopped or under way |
| `OrderProtocol.SerialRunKeepsInv` | apps/functions/src/triggers/order-import-handler.ts:912-941 | One delivery of an order at a time keeps each delivery's row what its place in the flow says |
| `OrderProtocol.ReplayTakes` | packages/core/src/replay/replay.ts:119-149 | Undisturbed, a replay does nothing exactly for a synced row that is not forced, and otherwise the row is gone and the message published |
| `OrderProtocol.ReplayKeepsInv` | packages/core/src/replay/replay.ts:119-146 | Each unlocked step of a replay, forced or not, keeps the protocol invariant |
| `OrderImportFlow.NextBecause` | apps/functions/src/triggers/order-import-handler.ts:141-541 | Each await leads to a place that the answers so far account for: eligible orders to the customer, others to markIgnored, parks with the stage and class of their reason, transient errors to the throw, auth errors through the auth log, the rest to a park |
| `OrderImportFlow.EarnsOne` | apps/functions/src/triggers/order-import-handler.ts:141-541 | The same answers never allow two results, so each result comes exactly from the answers said |
| `OrderImportFlow.StepKeepsRowAt` | apps/functions/src/triggers/order-import-handler.ts:255-525 | One await of an undisturbed delivery leaves the row its next place promises: pending up to the write that settles it, then synced, ignored or error |
| `OrderImportFlow.ThrowLeaves` | apps/functions/src/triggers/order-import-handler.ts:497-525 | An error that ends the delivery leads to its throw, and to the status that the place and the applied write determine |
| `OrderImportFlow.ThrowLeavesPendingIff` | apps/functions/src/triggers/order-import-handler.ts:497-525 | That status is pending if and only if no settling write was applied |
| `OrderImportFlow.HarmlessStaysHarmless` | apps/functions/src/triggers/order-import-handler.ts:209-233 | A delivery that cannot touch a present row never comes to be able to |
| `OrderImportFlow.ImportStaysSyncedUnlessALogFails` | apps/functions/src/triggers/order-import-handler.ts:426-454 | After an import the row ends as error if and only if a log failed for good and the park it caused was recorded; the target id stays |
| `OrderImportFlow.TagTried` | apps/functions/src/triggers/order-import-handler.ts:455-486 | What a tag step, failing or not, does to an imported row |
| `OrderImportFlow.ImportedRowFlips` | apps/functions/src/triggers/order-import-handler.ts:426-454 | A run of one delivery in which a refused log entry turns the imported row to error |
| `OrderImportHandler.Handler.HandleOrderMessage` | apps/functions/src/triggers/order-import-handler.ts:141-541 | Alone on its order (for concurrent ones see `OrderProtocol.OneAttemptRowEach`): exactly one attempt row once the claim answered, saying what was returned or thrown; only an `orders/updated` webhook of an order without a row is ignored unclaimed, and any other answered claim of an absent row is won; a short circuit says the row's status; at most one upsert, only after a claim; imported only with the id under account, record type and the order's own id, and no other new record but a customer's |
| `OrderImportHandler.LabelTells` | apps/functions/src/triggers/order-import-handler.ts:816-856 | Each label comes from exactly one result: imported, parked with stage and class, ignored, short-circuited, rejected, or a throw of that class |
| `OrderImportHandler.Handler.ClaimAndRun` | apps/functions/src/triggers/order-import-handler.ts:209-541 | From the claim on, the same, and a claim always leaves its row |
| `OrderImportHandler.Handler.RunClaimed` | apps/functions/src/triggers/order-import-handler.ts:246-541 | try, catch, finally: every way out of the claimed body writes one attempt row with its own label |
| `OrderImportHandler.Handler.ImportClaimed` | apps/functions/src/triggers/order-import-handler.ts:255-496 | The try block: imported exactly after its own upsert, parked or ignored without one more |
| `OrderImportHandler.Handler.ImportEligible` | apps/functions/src/triggers/order-import-handler.ts:308-496 | From the customer on: parked, or imported after exactly one upsert, with the row as the result says |
| `OrderImportHandler.Handler.WriteOrder` | apps/functions/src/triggers/order-import-handler.ts:396-496 | One upsert under account, record type and the order's own id, then recordSuccess with the upserted id, then the logs |
| `OrderImportHandler.Handler.Gate` | apps/functions/src/triggers/order-import-handler.ts:182-206 | Only an `orders/updated` webhook of an order without a row stops here, ignored with an attempt row or by a throw; anything else goes on and nothing changes |
| `OrderImportHandler.Handler.Claim` | apps/functions/src/triggers/order-import-handler.ts:209-218 | The claim inserts a pending row exactly when there is none, and otherwise answers synced, ignored, or claimed for pending and error, and changes nothing |
| `OrderImportHandler.Handler.ParkOutcome` | apps/functions/src/triggers/order-import-handler.ts:635-680 | Row first, then error store, then sync log, each of which may throw |
| `OrderImportHandler.Handler.ClassifyAndRoute` | apps/functions/src/triggers/order-import-handler.ts:561-616 | Retryable errors are rethrown, auth errors logged and rethrown, others parked |
| `OrderImportHandler.Handler.RecordAttempt` | apps/functions/src/triggers/order-import-handler.ts:768-856 | One attempt row when the store is wired, none otherwise; a thrown error wins over an outcome |
| `XrefStore.InMemoryXrefStore.Claim` | packages/core/src/xref/xref-store.ts:96-127 | The in-memory claim is the atomic claim on the table the string-keyed rows stand for: an absent row is taken, pending, and each status of a present one has its answer |
| `XrefStore.InMemoryXrefStore.RecordSuccess` | packages/core/src/xref/xref-store.ts:129-144 | Overwrites any status with synced, only when the row exists |
| `XrefStore.InMemoryXrefStore.RecordFailure` | packages/core/src/xref/xref-store.ts:146-159 | Overwrites any status with error, and throws on a missing row |
| `XrefStore.InMemoryXrefStore.MarkIgnored` | packages/core/src/xref/xref-store.ts:161-183 | Overwrites or inserts an ignored row |
| `XrefStore.InMemoryXrefStore.Lookup` | packages/core/src/xref/xref-store.ts:185-187 | Reads without changing |
| `XrefStore.InMemoryXrefStore.Delete` | packages/core/src/xref/xref-store.ts:189-197 | Removes and returns exactly this row |
| `XrefStore.ClaimSays` | packages/core/src/xref/xref-store.ts:96-127 | The atomic claim, status by status |
| `XrefStore.TablePut` | packages/core/src/xref/xref-store.ts:77-80 | Setting the row at an order's key string changes that order's row and no other |
| `XrefStore.TableDrop` | packages/core/src/xref/xref-store.ts:189-197 | Deleting a key string drops that order's row and no other |
| `PostgresXrefStore.ClaimIsLinearisable` | apps/functions/src/adapters/postgres-xref-store.ts:27-75 | For any interleaving of claims and updates, running the atomic operations at their points gives the same table and the same answers; throwing claims change nothing |
| `PostgresXrefStore.AnswerHasItsMoment` | apps/functions/src/adapters/postgres-xref-store.ts:27-75 | Each answer is the atomic claim's at one statement inside the call: claimed at the INSERT, the rest at the SELECT |
| `PostgresXrefStore.OnePointPerCall` | apps/functions/src/adapters/postgres-xref-store.ts:27-75 | No call takes effect twice |
| `PostgresXrefStore.AnswersAreFinal` | apps/functions/src/adapters/postgres-xref-store.ts:27-75 | An answer never changes |
| `PostgresXrefStore.PostgresStore.Claim` | apps/functions/src/adapters/postgres-xref-store.ts:27-75 | INSERT, then SELECT with other sessions in between: claimed exactly when the insert took, otherwise the row found at the SELECT, or an error |
| `NetSuiteGateway.FakeNetSuiteGateway.UpsertByExternalId` | packages/netsuite-client/src/fake-gateway.ts:66-100 | A queued failure writes nothing; otherwise an existing record keeps its id and a new one gets the next number |
| `NetSuiteGateway.RetryAfterFailure` | packages/netsuite-client/src/fake-gateway.ts:57-100 | A queued failure is thrown, and the retry after it leaves and answers what it would have alone |
| `NetSuiteGateway.UpsertKeepsRecords` | packages/netsuite-client/src/fake-gateway.ts:66-100 | An upsert keeps every record and id, adds at most its own key, and is idempotent |
| `ReplayRequests.ReplayDesk.RequestReplay` | packages/core/src/replay/replay.ts:99-149 | Refused exactly for a synced row without force; otherwise the row is gone and the published message passes the gate and wins a new claim |
| `DedupKey.KeySays` | packages/core/src/id/dedup-key.ts:18-35 | The key is the five components in order with bars between them, and throws exactly for an empty one or one with a bar |
| `DedupKey.KeyInjective` | packages/core/src/id/dedup-key.ts:18-35 | Two accepted sets of components with the same key are the same |
| `DedupKey.JoinInjective` | packages/core/src/id/dedup-key.ts:18-35 | Joining separator-free components with the separator is injective for lists of equal length |
| `ExternalId.GidTranslates` | packages/netsuite-client/src/external-id.ts:32-41 | A GID becomes the prefix, its kind in lower case and its number |
| `ExternalId.OthersEscape` | packages/netsuite-client/src/external-id.ts:32-41 | Any other id keeps letters, digits, `_` and `-`, and gets `-` for every other character |
| `ExternalId.OrderInstance` | packages/netsuite-client/src/external-id.ts:20-41 | The documented example |
| `ExternalId.GidIsAccepted` | packages/core/src/id/dedup-key.ts:18-35 | Every GID is accepted as a source id |
| `ExternalId.GidsCollideIff` | packages/netsuite-client/src/external-id.ts:32-41 | Two GIDs share an external id exactly when number and kind agree up to letter case |
| `ExternalId.OnlySafe` | packages/netsuite-client/src/external-id.ts:32-41 | Only letters, digits, `_` and `-` are ever produced |
| `ExternalId.LowerCaseIff` | packages/netsuite-client/src/external-id.ts:20-41 | The documented lower-case letters, digits and `-` are all that comes out if and only if the id is a GID or has no upper-case letter and no `_` |
| `ExternalId.Idempotent` | packages/netsuite-client/src/external-id.ts:32-41 | Translating twice is translating once |
| `ExternalId.MatchGid` | packages/netsuite-client/src/external-id.ts:33-36 | Every Shopify GID is recognised by its own parts |
| `OrderListing.PageIsARun` | packages/shopify-client/src/fake-gateway.ts:74-89 | A page is a run of consecutive orders of the whole sorted list, from the first recent enough one |
| `OrderListing.PageCovers` | packages/shopify-client/src/fake-gateway.ts:74-89 | A page holds every order older than its own last instant and not older than the start |
| `OrderListing.SortSince` | packages/shopify-client/src/fake-gateway.ts:74-89 | Filter then sort is sort then drop |
| `OrderListing.SortFacts` | packages/shopify-client/src/fake-gateway.ts:74-89 | The sort sorts and permutes |
| `CatchupPoller.WatermarkLeavesNoGap` | apps/functions/src/triggers/order-catchup-poller.ts:121-187 | Over any run of polls, updates, imports and faults, with any overlap that is not negative and any page size above zero: the watermark never moves back, and every present version between the first cursor and it was listed and either published or found with a row synced or ignored |
| `CatchupPoller.EnqueuedIff` | apps/functions/src/triggers/order-catchup-poller.ts:130-170 | Published are exactly the orders of the page without a row, or with a pending or failed one |
| `CatchupPoller.EnqueuedInOrder` | apps/functions/src/triggers/order-catchup-poller.ts:130-170 | What comes first on the page is published first |
| `CatchupPoller.RunKeepsInv` | apps/functions/src/triggers/order-catchup-poller.ts:121-187 | Each step keeps the poller's invariant; a fault mid-page leaves the cursor |
| `CatchupPoller.Poller.PollOneConnection` | apps/functions/src/triggers/order-catchup-poller.ts:100-204 | An order of the page is published exactly when it has no row, or one that is pending or error, in the order of the page; then the cursor is the last order's instant, or the present less the overlap when there is none |
| `CatchupPoller.WatermarkNeverMovesBack` | apps/functions/src/triggers/order-catchup-poller.ts:121-187 | Under any config, whatever runs beside the polls, the watermark never moves back |
| `CatchupPoller.GapWithout` | apps/functions/src/triggers/order-catchup-poller.ts:56-72 | For every config with a negative overlap or no page there is a run that leaves a gap, so the theorem's condition is exact |
| `CatchupPoller.FirstCursorBeforeBootstrapIff` | apps/functions/src/triggers/order-catchup-poller.ts:121-187 | The first cursor of an empty shop lies before its bootstrap instant exactly when the overlap exceeds the lookback |
| `PollProgress.EveryOrderSeenIff` | apps/functions/src/triggers/order-catchup-poller.ts:130-187 | With the poller's own cursor rule: every order from the start on is seen, in at most as many polls as there are orders, if and only if no instant is shared by a whole page with more than a page left |
| `PollProgress.PollOnTimer` | apps/functions/src/triggers/order-catchup-poller.ts:100-204 | Running the poller again and again on a shop that stands still moves its watermark by that rule, and after as many polls as there are orders every open order from the start on is published, unless an instant fills a page |
| `PollProgress.StarvedInstance` | apps/functions/src/triggers/order-catchup-poller.ts:130-187 | Two orders of one instant and pages of one: one of them is never seen |
| `PollProgress.PollAdvances` | apps/functions/src/triggers/order-catchup-poller.ts:130-187 | While more than a page of orders is left and no instant fills a page, a poll moves the cursor on and fewer are left |
| `PollProgress.CursorStuck` | apps/functions/src/triggers/order-catchup-poller.ts:130-187 | A full instant is never passed |
| `AddressBook.BuildAddressbookMerged` | apps/functions/src/activities/customer-resolver.ts:221-314 | The loops build the merge, incoming entries first and then the unclaimed ones; the default for billing carries the billing address, all of it, and the default for shipping the shipping address, where they have content; one alone, or the billing address of two with one id, is both |
| `AddressBook.IndexByShopifyId` | apps/functions/src/activities/customer-resolver.ts:235-238 | The map holds the last entry of each Shopify id |
| `AddressBook.EmitIncoming` | apps/functions/src/activities/customer-resolver.ts:240-290 | One entry for a shared id, else one for each address with content; billing and shipping address under their own default and name, with every field and the id they came with; exactly the matched entries claimed |
| `AddressBook.MergeSays` | apps/functions/src/activities/customer-resolver.ts:221-314 | What is sent, said of the addresses themselves: the defaults as above; each address in the last entry with its id or a new one; every other entry an old one, without address, under its name |
| `AddressBook.ImportAbsorbs` | apps/functions/src/activities/customer-resolver.ts:221-314 | In whatever order the book is read, an import takes every default flag off and puts each address into the row that carries its id or a new one |
| `AddressBook.ImportKeepsValid` | apps/functions/src/activities/customer-resolver.ts:221-314 | Distinctness of Shopify ids is kept by every merge and write |
| `AddressBook.ReimportIsFixedIff` | apps/functions/src/activities/customer-resolver.ts:221-314 | A second import changes nothing if and only if every address that goes into the book carries an id |
| `AddressBook.NoIdInstance` | apps/functions/src/activities/customer-resolver.ts:221-314 | An order with a street and no id changes any book again on its second import |
| `AddressBook.RetriesSettleAtOnce` | apps/functions/src/activities/customer-resolver.ts:221-314 | Then any number of imports is one import |
| `AddressBook.MergedBookShape` | apps/functions/src/activities/customer-resolver.ts:221-314 | With distinct internal ids: nothing is sent exactly when no address has content; otherwise exactly one default of each kind, every existing id once, and existing plus incoming minus matched entries |
| `AddressBookSessions.RunKeepsInv` | apps/functions/src/activities/customer-resolver.ts:79-114 | However reads and writes of one customer's orders interleave, every row an order has read is still there, under the stamp it was read with, when that order writes |
| `AddressBookSessions.ImportDefaults` | apps/functions/src/activities/customer-resolver.ts:221-314 | However old its read, an import leaves one default of each kind beside those on rows the read did not list, and puts it on a new row exactly when the address that takes it matched none |
| `AddressBookSessions.StampsDistinctIff` | apps/functions/src/activities/customer-resolver.ts:221-314 | An import leaves two rows of one Shopify address if and only if a row of one of its addresses was not in the read |
| `AddressBookSessions.WriteInAnyRun` | apps/functions/src/activities/customer-resolver.ts:79-114 | Both, for every write of every run of any number of orders, crashes included, from an empty book on |
| `AddressBookSessions.TwoOrdersIff` | apps/functions/src/activities/customer-resolver.ts:79-114 | Two orders that read the same book leave one default of a kind if the first one's went to a row that was there, and two if not |
| `AddressBookSessions.SameAddressTwice` | apps/functions/src/activities/customer-resolver.ts:79-114 | A customer's first two orders to one address, read before either is written: the address is in the book twice, each time as both defaults |
| `MappingRules.GetAfterSet` | packages/mapping-engine/src/evaluator.ts:154-184 | Reading at or below a path that was set gives the value that was put there |
| `MappingRules.SetElsewhere` | packages/mapping-engine/src/evaluator.ts:166-184 | Paths that are not prefixes of each other do not interfere |
| `MappingRules.SetAbove` | packages/mapping-engine/src/evaluator.ts:166-184 | Above a set path there are objects with their other members unchanged |
| `MappingRules.ConditionalChooses` | packages/mapping-engine/src/evaluator.ts:138-150 | Wherever it stands, a conditional is its first branch when the source holds the value at the path, and otherwise its second, or nothing |
| `MappingRules.LookupLeaves` | packages/mapping-engine/src/evaluator.ts:88-121 | A lookup leaves the row it finds; without key or row it stops, saying which is missing, if and only if it is required, and leaves null otherwise |
| `MappingRules.DirectLeaves` | packages/mapping-engine/src/evaluator.ts:77-81 | Leaves what the source holds at its path |
| `MappingRules.ConstantLeaves` | packages/mapping-engine/src/evaluator.ts:83-86 | Leaves its own value |
| `MappingRules.DeriveLeaves` | packages/mapping-engine/src/evaluator.ts:123-136 | Leaves what the function gives, or stops when there is none of that name |
| `MappingRules.StepsAppend` | packages/mapping-engine/src/evaluator.ts:49-60 | A concatenated list continues from its first part's output or stops where that stops |
| `MappingRules.ExtrasOverride` | packages/netsuite-client/src/default-order-map.ts:70-76 | An appended mapping of any kind that writes decides its target, whatever came before it, unless a later one may write at, above or below it |
| `MappingRules.StepsElsewhere` | packages/mapping-engine/src/evaluator.ts:49-60 | A list changes nothing at a path apart from all its targets |
| `MappingRules.EffectInBounds` | packages/mapping-engine/src/evaluator.ts:62-150 | A mapping writes only one of its targets, and an existing object only at a direct or derived one |
| `MappingObjects.ReadFurther` | packages/mapping-engine/src/evaluator.ts:154-164 | One part more on the path is one field further in, or undefined |
| `MappingObjects.GetPath` | packages/mapping-engine/src/evaluator.ts:154-164 | Follows objects only; undefined for anything missing |
| `MappingObjects.SetPath` | packages/mapping-engine/src/evaluator.ts:166-184 | Writes exactly one existing object, the deepest on the path, and hangs fresh objects on it; throws on the empty path |
| `MappingObjects.StoredStandsFor` | packages/mapping-engine/src/evaluator.ts:166-184 | On an output that shares nothing on the way, only its own objects are written and it stands for the tree with the path set |
| `MappingEvaluator.ApplyMapping` | packages/mapping-engine/src/evaluator.ts:62-150 | A conditional does what its first branch does when the source holds the value, else what its second does, or nothing; a direct, constant or derived value is stored at the one object the walk to its target ends at; an empty target or a missing function stops |
| `MappingEvaluator.ApplyLookup` | packages/mapping-engine/src/evaluator.ts:88-121 | Missing key and missing row park unless not required, and then write null |
| `MappingEvaluator.Evaluate` | packages/mapping-engine/src/evaluator.ts:49-60 | The heap it leaves is the one the moves of the mappings make, one after the other up to the stop it reports; an object that existed is written if and only if some mapping, reached without a stop, writes below a place where the tree so far holds one; so nothing is written when no target strictly extends an earlier direct or derived one |
| `MappingCourse.SourceWrittenIff` | packages/mapping-engine/src/evaluator.ts:49-60 | In the course of an evaluation some move writes an object of the source exactly when, on trees, some mapping reached writes below a shared place |
| `MappingCourse.FirstWriteIs` | packages/mapping-engine/src/evaluator.ts:166-184 | The first such move leaves every other object of the source alone and gives one of them the field the target names, with the value or what leads to it |
| `MappingCourse.FirstWriteStays` | packages/mapping-engine/src/evaluator.ts:49-60 | When the evaluation ends that object still has that field |
| `MappingCourse.UntouchedEnds` | packages/mapping-engine/src/evaluator.ts:49-60 | If no move writes the source, the source holds what it held and the output stands for the tree the list means, or the same stop is reported |
| `MappingCourse.NothingSharedIsWritten` | packages/mapping-engine/src/evaluator.ts:49-60 | When no target strictly extends an earlier direct or derived one, nested conditionals included, no mapping writes below a shared place |
| `MappingCourse.CopyThenNoteIff` | packages/mapping-engine/src/evaluator.ts:166-184 | Copying the customer and then setting a note below the copy writes below a shared place exactly when the customer is an object |
| `MappingEvaluator.ChooseSubsidiary` | packages/mapping-engine/src/evaluator.ts:138-150 | On a concrete order: two for one currency and one for any other |
| `MappingEvaluator.CopyThenNote` | packages/mapping-engine/src/evaluator.ts:166-184 | On an order with a customer object the same list leaves the order's fields and puts the note into its customer |
| `MappingObjects.OutputReads` | packages/mapping-engine/src/evaluator.ts:154-164 | Reading the finished output gives what its tree holds |
| `MappingObjects.WritesSourceIff` | packages/mapping-engine/src/evaluator.ts:166-184 | A write hits an object of the source if and only if the output holds one on the way |
| `MappingObjects.ReachLinked` | packages/mapping-engine/src/evaluator.ts:166-184 | On an output that shares nothing on the way, the walk ends at the output's own object for the longest prefix that has one |
| `OrderPayload.PreparePayload` | apps/functions/src/triggers/order-import-handler.ts:277-401 | Every payload that reaches the upsert is of an eligible order; line by line it is the order's, each on the catalogue's item of its own SKU or else the connection's, plus at most one rounding line of at most the tolerance; shipping on the connection's item or the standard one; the discount only when above zero; it comes to the total to the cent exactly when the order's amounts are numbers; a refusal gives a reason true of the order, and the first step that refuses says how it ends |
| `OrderPayload.EligibilityIff` | packages/mapping-engine/src/eligibility.ts:64-98 | Exactly which orders are eligible, under any options; test, held and voided orders never are |
| `OrderPayload.DraftIff` | packages/netsuite-client/src/payload-builder.ts:47-146 | Exactly when a draft is refused, and that a discount is sent with its item, negative, or not at all |
| `OrderPayload.ParksIff` | packages/netsuite-client/src/balancing.ts:53-105 | Balancing parks exactly the payloads that add up and miss the total by more than five cents |
| `OrderPayload.ThrowsIff` | packages/netsuite-client/src/balancing.ts:53-122 | Balancing throws exactly when a total, or the text of an amount, is no number |
| `OrderPayload.ApplyBalancing` | packages/netsuite-client/src/balancing.ts:53-105 | Throws, parks beyond the tolerance, leaves a balanced payload alone, or appends one line with the difference |
| `OrderPayload.SumAmounts` | packages/netsuite-client/src/balancing.ts:115-122 | Throws on text that is no number; otherwise the sum in cents, or no number as soon as one line is none |
| `OrderPayload.BalancedIff` | packages/netsuite-client/src/balancing.ts:53-105 | The balanced payload comes to the order's total if and only if no line was `NaN` |
| `OrderPayload.NaNPasses` | packages/netsuite-client/src/balancing.ts:53-105 | Any payload with such a line, and totals that parse, gets through, whatever its total |
| `OrderPayload.NaNInstance` | packages/netsuite-client/src/balancing.ts:53-105 | An order for a thousand with a line that is no number is booked with a second such line |
| `OrderPayload.RenderedAtTotalIff` | packages/netsuite-client/src/payload-builder.ts:115-146 | With the discount field NetSuite reads, the total is the order's if and only if the discount is not negative |
| `OrderPayload.NegativeDiscountInstance` | packages/netsuite-client/src/payload-builder.ts:115-146 | A prepared payload that NetSuite renders a cent short |
| `OrderPayload.ResolveSublist` | packages/netsuite-client/src/item-resolver.ts:76-118 | Count, order and all fields but the item stay; the marker is stripped; it parks exactly at the first line neither marked, nor known, nor with a fallback |
| `OrderPayload.ResolveItemReferences` | packages/netsuite-client/src/item-resolver.ts:46-74 | Succeeds if and only if every item line resolves with the fallback and every shipping line without |
| `OrderPayload.ResolvingKeepsAmounts` | packages/netsuite-client/src/item-resolver.ts:76-118 | Amounts survive the resolver |
| `OrderPayload.SdkItemIds.ResolveItemId` | packages/netsuite-client/src/sdk-gateway.ts:162-178 | The answer is the cached one under the key, else the uncached one, and is the uncached one while no two accounts that were asked for may clash |
| `OrderPayload.CacheKeyInjective` | packages/netsuite-client/src/sdk-gateway.ts:163 | Cache keys of colon-free accounts determine account and SKU |
| `OrderPayload.ClashIff` | packages/netsuite-client/src/sdk-gateway.ts:163 | Two accounts share a cache key for some SKUs if and only if one followed by the separator begins the other followed by it |
| `OrderPayload.NoColonNeverClashes` | packages/netsuite-client/src/sdk-gateway.ts:163 | Account ids without a colon never do |
| `OrderPayload.AskTwice` | packages/netsuite-client/src/sdk-gateway.ts:162-178 | Under a shared key the second account gets the first one's answer |
| `OrderPayload.WrongItem` | packages/netsuite-client/src/sdk-gateway.ts:162-178 | Whatever the catalogue, when it has different items for account `a` with SKU `b::c` and account `a::b` with SKU `c`, the account asked second gets the other's |
| `Governor.SharedInMemoryGovernorStore.TryAcquire` | packages/core/src/governor/governor-store.ts:67-72 | Takes a slot exactly below the ceiling, on this account only |
| `Governor.SharedInMemoryGovernorStore.Release` | packages/core/src/governor/governor-store.ts:74-76 | Frees this holder's slot and nothing else |
| `Governor.Slot.Release` | packages/core/src/governor/acquire.ts:26-33 | However often it is called, the slot is freed once |
| `Governor.AcquireSlot` | packages/core/src/governor/acquire.ts:14-41 | With the configured interval and timeout, or 25 and 60000 milliseconds: one interval between two tries, no more tries than fit into the timeout and one; gives up only after the timeout and then holds nothing |
| `Governor.PollsIsCeiling` | packages/core/src/governor/acquire.ts:20-41 | The number of polls is the timeout divided by the interval, rounded up |
| `Governor.GovernedRequest` | packages/netsuite-client/src/governor-middleware.ts:27-38 | Answered or throwing, the request's slot is freed exactly once and its holder id is nowhere afterwards; the request is marked only when it got a slot |
| `GovernorProtocol.CeilingHolds` | packages/core/src/governor/governor-store.ts:51-81 | For any interleaving with fresh holder ids, requests in flight equal slots and never exceed the ceiling, and each acquired slot is freed exactly once |
| `GovernorProtocol.SlotGivenIff` | packages/core/src/governor/governor-store.ts:51-81 | With a shared store, at any moment of any run, a new request for an account gets a slot if and only if fewer of that account's than the ceiling are in flight, and other accounts see nothing of it |
| `GovernorProtocol.CeilingHoldsForOneProcess` | packages/core/src/governor/governor-store.ts:51-112 | The same with nothing assumed of holder ids, for stores that serve one process each |
| `GovernorProtocol.AcquireMatchesIff` | packages/core/src/governor/governor-store.ts:67-72 | Acquiring keeps one slot for each request if and only if no request in flight has the same holder id |
| `GovernorProtocol.FreshRuns` | packages/core/src/governor/acquire.ts:43-47 | With one process for each store, holder ids never repeat |
| `GovernorProtocol.SameHolderOverruns` | packages/core/src/governor/acquire.ts:43-47 | For any n, a run of n processes of one store with n requests in flight on one slot: without fresh ids there is no bound |
| `GovernorProtocol.PerProcessBoundHolds` | packages/core/src/governor/governor-store.ts:92-112 | N per-process stores allow at most N times the ceiling |
| `GovernorProtocol.PerProcessBoundIsReached` | packages/core/src/governor/governor-store.ts:92-112 | And a run reaches it |
| `TokenService.ShopifyTokenService.Begin` | packages/shopify-client/src/token-service.ts:65-76 | A good cached token, else the outstanding exchange, else a new one |
| `TokenService.ShopifyTokenService.Resume` | packages/shopify-client/src/token-service.ts:77-83 | The token is cached when there is one, and the entry removed either way |
| `TokenService.OneExchangePerShop` | packages/shopify-client/src/token-service.ts:65-84 | A shop never has two exchanges outstanding |
| `TokenService.JoinersShareTheAnswer` | packages/shopify-client/src/token-service.ts:70-79 | Joiners get the creator's token or failure, for their own shop |
| `TokenService.OnlyTheCreatorRemoves` | packages/shopify-client/src/token-service.ts:81-83 | Only the creator, and only after the answer, removes the entry |
| `TokenService.NextCallerAfter` | packages/shopify-client/src/token-service.ts:65-90 | After the creator resumes with a token the next caller has it from the cache while it is good; after an eviction nobody has |
| `TokenService.RunKeepsReplies` | packages/shopify-client/src/token-service.ts:91-125 | Every settled exchange came to the token issued, with its lifetime in seconds, or to none |
| `TokenService.CacheHitsAreFresh` | packages/shopify-client/src/token-service.ts:66-69 | A cache hit was issued for the shop, and at that moment more than the buffer was left of the seconds it was issued for, or of an hour, counted from the answer |

## Left out

- Clocks in rows (`lastSyncedAt`), the payload stored with a record, archives, telemetry and the payload digest.
- Parsing of queue messages, environment checks and the timer and queue registrations; a webhook is a message somebody publishes.
- The per-key promise chain of the in-memory xref store; its methods run one at a time here.
- The nested account and record-type maps of the fake gateway are one map over triples.
- NetSuite deletions and connection configurations that change during a run.
- The connection check of a replay in `OrderProtocol`, which lets more replays through than the code does.
- The fake gateway's lookups and latency, and `tagOrder` and `getOrder` beyond throwing or not.
- What NetSuite itself does with default flags; an entry keeps the flags it was last sent.
- The legacy address book, which replaces the whole book and matches nothing; customer matching by e-mail.
- Keys such as `__proto__` in paths, and derivations that change the source; an object a derivation returns is taken to exist before the evaluation.
- `wrapNsReferences`: references are modelled as already wrapped; it maps each field by itself.
- Header mappings that write `shipping` or the discount fields of the payload.
- Tax strategies, which set header fields only; address and date derivations.
- Amounts finer than a cent, infinite amounts, and the difference between the two number parsers on empty text.
- An item lookup that throws; in `OrderImportFlow` such a throw ends the delivery like any other.
- Crash sweeps of stuck governor slots, and the transport's own retries, each of which is a request of its own.
- The HTTP side of the token exchange beyond its outcome.

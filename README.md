# MonSparks off-chain ledger and route rules, in Dafny

MonSparks is a Web3 rewards app. Users complete quests, receive temporary gas
credits from a pool, and start cross-chain bridge requests. The backend keeps
an off-chain ledger beside the chain. The ledger is a dictionary from
lower-cased wallet address to a user record (quest flags, transactions, gas
allocations) plus a global activity feed. The feed is newest first and holds
at most 100 entries. This project models that ledger, the Express route
handlers that drive it, and two display helpers of the web client.

- `option.dfy`: module `Wrappers`, the `Option` type.
- `ledger.dfy`: module `Ledger`, the store as values. `State` is one
  snapshot. It holds the user map, the order in which its keys were first
  added (a JavaScript object keeps that order, and the bridge lookup scans
  users in it) and the feed. Every read and write of the store is a function
  on `State`. The lemmas about the store live here.
- `storage.dfy`: module `Store`, the class `Storage`. Its methods update the
  fields in place, step by step as the source does. Each method is proved to
  leave exactly the state that the matching `Ledger` function describes, and
  to keep the store's invariant (`Valid`).
- `api.dfy`: module `Api`, what handlers exchange with the chain gateway and
  the HTTP client. A gateway call is an oracle. The handler receives its
  outcome as a parameter: `Success(value)`, or `Failure` when the call threw.
  A handler returns a `Response` (`Ok`, `BadRequest`, `ServerError`,
  `NotFound`). A handler that may call the gateway also returns the ordered
  list of calls it made. That list is how "no chain call" and "refused before
  the chain write" are stated. A handler that never calls the gateway returns
  only its `Response`.
- `gas.dfy`, `quests.dfy`, `bridge.dfy`, `activity.dfy`: one module per route
  file. A handler that writes the store is a method on a `Store.Storage`. A
  handler that only reads is a function, or a method when the source reads
  in a loop (`BridgeRoutes.LookupRequest`).
- `format.dfy`: module `Format`, `shortenAddress` and `timeAgo`.

A request field counts as given when it is present and not the empty
string, which is JavaScript's truthiness for a string. Ids from
`generateId` and the request's timestamp are parameters. Eligible amounts
carry their integer wei value beside their decimal text. The zero test uses
the wei value; the store and the replies use the text.

## Model

| member | source | states |
|---|---|---|
| Ledger.Lower | backend/src/utils/storage.ts:68 | lower-casing keeps the length and maps each character through ASCII `toLowerCase` |
| Ledger.LowerIsLower | backend/src/utils/storage.ts:66-73 | a lower-cased address is a valid key, and lower-casing it again changes nothing |
| Ledger.MergeUser | backend/src/utils/storage.ts:101-105 | the merged record is always stamped with the new `lastActive` |
| Ledger.MergeTx | backend/src/utils/storage.ts:154-157 | every field the patch supplies replaces the transaction's own |
| Ledger.MergeAllocation | backend/src/utils/storage.ts:177-180 | every field the patch supplies replaces the allocation's own |
| Ledger.MergeWhole | backend/src/utils/storage.ts:101-105 | merging a patch that supplies a whole record yields that record with a fresh `lastActive` |
| Ledger.MergeAllocationKeeps | backend/src/utils/storage.ts:177-180 | an allocation merge keeps every field the patch omits, and applying the same patch twice equals applying it once |
| Ledger.MergeTxKeeps | backend/src/utils/storage.ts:154-157 | a transaction merge keeps every field the patch omits, and is idempotent |
| Ledger.FindIndex | backend/src/utils/storage.ts:152 | `findIndex` finds the first matching position, and a miss means no element matches |
| Ledger.SliceTo | backend/src/utils/storage.ts:209 | `slice(0, end)` is a prefix: of length min(end, n) for end >= 0, of length max(n + end, 0) for a negative end |
| Ledger.EmptyIsValid | backend/src/utils/storage.ts:56-63 | the empty dictionary and empty feed satisfy the store invariant |
| Ledger.Put | backend/src/utils/storage.ts:120-122 | storing under a key sets only that key, appends a new key to the key order, and keeps the invariant |
| Ledger.PutTwice | backend/src/utils/storage.ts:88-108 | a second write of the same key keeps only the second record, with the key in its first position |
| Ledger.GetUser | backend/src/utils/storage.ts:66-69 | a record is returned exactly when the lower-cased address is a key; an unknown address gives none |
| Ledger.GetUserIgnoresCase | backend/src/utils/storage.ts:66-69 | two spellings of an address that differ only in case find the same record |
| Ledger.CreateUser | backend/src/utils/storage.ts:71-91 | an existing record is returned and nothing is written; otherwise a fresh record with lower-cased address and empty flags and lists is added as the last key |
| Ledger.CreateUserIdempotent | backend/src/utils/storage.ts:71-91 | creating a user a second time, under any spelling, returns the first record and writes nothing |
| Ledger.UpdateUser | backend/src/utils/storage.ts:93-109 | creates the record if absent, overwrites exactly the supplied fields, refreshes `lastActive`, and leaves every other record alone |
| Ledger.UpdateWithWhole | backend/src/utils/storage.ts:126-128 | `updateUser(address, user)` with a whole record stores that record with a fresh `lastActive` |
| Ledger.MarkQuestCompleted | backend/src/utils/storage.ts:125-129 | the quest's flag becomes true, every other flag is unchanged, and no other record or the feed changes |
| Ledger.HasCompletedQuest | backend/src/utils/storage.ts:131-134 | true exactly when the user exists and the quest's flag is set and true; false for an unknown user or an unset quest |
| Ledger.MarkQuestCompletedIdempotent | backend/src/utils/storage.ts:125-134 | after marking, the quest reads as completed under any spelling, and marking again leaves the flags and key order as they were |
| Ledger.GetTransactions | backend/src/utils/storage.ts:143-146 | the user's transactions, or the empty list for an unknown user |
| Ledger.AddTransaction | backend/src/utils/storage.ts:137-141 | the user's list grows by exactly the new transaction at the end; other records are untouched |
| Ledger.UpdateTransaction | backend/src/utils/storage.ts:148-160 | only the first transaction with the id changes, by the merge; length and other entries are kept; an unknown user or id leaves the whole state as it was |
| Ledger.AddAllocation | backend/src/utils/storage.ts:163-167 | the user's allocations grow by exactly the new one at the end; other records are untouched |
| Ledger.UpdateAllocation | backend/src/utils/storage.ts:169-183 | only the first allocation with the id changes, by the merge; length and other entries are kept; an unknown user or id is a no-op |
| Ledger.AddActivity | backend/src/utils/storage.ts:186-194 | the new entry is first, the previous entries follow in order, the length is min(old + 1, 100), and the users are untouched |
| Ledger.AddActivitiesKeepsNewest | backend/src/utils/storage.ts:186-194 | after any sequence of insertions the feed is the newest entries, newest first, cut to 100 |
| Ledger.FullBatchReplacesFeed | backend/src/utils/storage.ts:189-192 | 100 or more insertions leave exactly the newest 100 of them |
| Ledger.OwnedBy | backend/src/utils/storage.ts:207-208 | the filtered feed holds exactly the entries whose address matches ignoring case |
| Ledger.OwnedByAppend | backend/src/utils/storage.ts:207-208 | filtering distributes over concatenation, so it keeps feed order |
| Ledger.UserActivities | backend/src/utils/storage.ts:205-210 | the first `limit` of the user's entries in feed order, min(limit, count) of them, each belonging to the address; a negative limit `-n` drops the `n` oldest |
| Ledger.NewestActivityFirst | backend/src/utils/storage.ts:186-210 | a user's newest activity heads that user's view for any positive limit |
| Store.Storage.constructor | backend/src/utils/storage.ts:52-63 | the store starts empty and valid |
| Store.Storage.Save | backend/src/utils/storage.ts:120-122 | writing one key keeps the invariant and gives the `Put` state |
| Store.Storage.CreateUser | backend/src/utils/storage.ts:71-91 | the in-place steps leave the state and return the record that `Ledger.CreateUser` describes |
| Store.Storage.UpdateUser | backend/src/utils/storage.ts:93-109 | the in-place steps, including the nested create, give the `Ledger.UpdateUser` state and record |
| Store.Storage.MarkQuestCompleted | backend/src/utils/storage.ts:125-129 | get-or-create, set the flag, update: the `Ledger.MarkQuestCompleted` state |
| Store.Storage.AddTransaction | backend/src/utils/storage.ts:137-141 | get-or-create, push, update: the `Ledger.AddTransaction` state |
| Store.Storage.UpdateTransaction | backend/src/utils/storage.ts:148-160 | early return, `findIndex`, index assignment: the `Ledger.UpdateTransaction` state |
| Store.Storage.AddAllocation | backend/src/utils/storage.ts:163-167 | get-or-create, push, update: the `Ledger.AddAllocation` state |
| Store.Storage.UpdateAllocation | backend/src/utils/storage.ts:169-183 | early return, `findIndex`, index assignment: the `Ledger.UpdateAllocation` state |
| Store.Storage.AddActivity | backend/src/utils/storage.ts:186-194 | `unshift` then `splice(100)`: the `Ledger.AddActivity` state, feed within the cap |
| GasRoutes.Eligibility | backend/src/routes/gas.ts:17-31 | one eligibility read; the flag is true exactly when the amount is above zero; a failed read is a 500 |
| GasRoutes.AllocationRecorded | backend/src/routes/gas.ts:57-73 | a successful allocation appends exactly one active allocation with the chain's id and the eligible amount, and heads the feed with a matching `gas_allocated` activity |
| GasRoutes.Allocate | backend/src/routes/gas.ts:37-85 | missing address: 400, no call, no change; zero eligibility: 400 after only the eligibility read, no change; a failed read or allocation: 500, no change; success: the allocation and activity are recorded and the id and amount echoed |
| GasRoutes.RevertMarksReverted | backend/src/routes/gas.ts:102-104 | the first allocation with the id becomes reverted, the others are kept, and a second revert leaves the allocations as they are |
| GasRoutes.RevertUnknownStillLogged | backend/src/routes/gas.ts:102-114 | reverting an unknown allocation or user changes no record, yet the `gas_reverted` activity still heads the feed |
| GasRoutes.Revert | backend/src/routes/gas.ts:91-124 | never calls the chain; a missing field is a 400 with no change; otherwise it succeeds after the local update and the activity |
| GasRoutes.PoolBalance | backend/src/routes/gas.ts:130-142 | one pool read; the balance in MON, or a 500 |
| GasRoutes.Allocations | backend/src/routes/gas.ts:148-160 | the user's allocations in order, and the empty list for an unknown address |
| QuestRoutes.WithCompletion | backend/src/routes/quests.ts:24-32 | all flag lookups succeed exactly when a result exists; it then holds the quests in order, each with its own flag |
| QuestRoutes.ListQuests | backend/src/routes/quests.ts:17-41 | without an address the quests come back unchanged after one call; with one, one flag lookup per quest in order, and the same quests each with its flag, or a 500 if any lookup fails |
| QuestRoutes.QuestDetail | backend/src/routes/quests.ts:47-63 | the quest, with the caller's flag when an address is given; a failed read is a 500 |
| QuestRoutes.CompletionFlagKept | backend/src/routes/quests.ts:88-101 | once the chain write succeeded the local flag is set whether or not the activity was added, and no other quest's flag changes |
| QuestRoutes.Complete | backend/src/routes/quests.ts:69-116 | missing address, already completed, or a failed check or write: no change and no completion write where refused; after the write the flag is set even if the quest read fails; success adds the activity and returns the hash, quest and progress |
| QuestRoutes.Progress | backend/src/routes/quests.ts:122-142 | the chain's progress with the local flags, or an empty map for an unknown user |
| BridgeRoutes.Calculate | backend/src/routes/bridge.ts:17-36 | a missing field is a 400 with no call; otherwise one quote call, echoed with the request's fields, or a 500 |
| BridgeRoutes.Initiate | backend/src/routes/bridge.ts:42-84 | never calls the chain; a missing field is a 400 with no change; otherwise one pending bridge transaction and one activity are recorded under the request id |
| BridgeRoutes.CompleteBridge | backend/src/routes/bridge.ts:90-110 | a missing id is a 400 with no call; otherwise one registry call returning its hash, or a 500; the store is never involved |
| BridgeRoutes.Scan | backend/src/routes/bridge.ts:126-133 | a found transaction has the id and belongs to a user in the key order; nothing is found exactly when no user's transaction has the id |
| BridgeRoutes.ScanOnlyMatch | backend/src/routes/bridge.ts:126-133 | when one user alone holds the id, the scan returns that user's first transaction with it |
| BridgeRoutes.ScanFirst | backend/src/routes/bridge.ts:127-132 | the scan returns the first user in key order whose list holds the id, and that user's first transaction with it; earlier users are passed over only when they hold none |
| BridgeRoutes.InitiatedRequestIsFound | backend/src/routes/bridge.ts:53-133 | after initiating with an unused id, the local lookup finds the pending bridge transaction |
| BridgeRoutes.LookupRequest | backend/src/routes/bridge.ts:116-140 | the registry's record when that read succeeds; otherwise the loop returns what the key-order scan finds; a 404 only when the registry read failed and no stored user holds a transaction with the id |
| BridgeRoutes.Supported | backend/src/routes/bridge.ts:146-170 | five chains with distinct ids and five tokens with distinct symbols, each of 18 or 6 decimals |
| ActivityRoutes.ParseLimit | backend/src/routes/activity.ts:12 | a missing, unparsable or zero limit becomes 20; any other value is kept |
| ActivityRoutes.GlobalFeed | backend/src/routes/activity.ts:10-20 | a prefix of the stored feed, in stored order |
| ActivityRoutes.UserFeed | backend/src/routes/activity.ts:26-38 | a prefix of the user's entries in feed order, each belonging to the address; a positive limit gives min(limit, count) entries and a negative limit `-n` drops the user's `n` oldest |
| ActivityRoutes.DefaultLimitIsTwenty | backend/src/routes/activity.ts:12-13 | without a usable limit both feeds return their 20 newest entries, or all when fewer |
| ActivityRoutes.LimitCounts | backend/src/routes/activity.ts:12-13 | for the global and the per-user feed, a positive limit returns that many entries when the feed has them; a negative limit `-n` drops the `n` oldest |
| Format.Substring | frontend/src/lib/utils.ts:9 | `substring` clamps both indices to the string and swaps them when out of order |
| Format.SubstringSymmetric | frontend/src/lib/utils.ts:9 | `substring` gives the same text with its arguments in either order |
| Format.ShortenAddress | frontend/src/lib/utils.ts:8-10 | the result is the address's head, "...", and the address's tail from index `42 - chars` |
| Format.ShortenFullAddress | frontend/src/lib/utils.ts:8-10 | for a 42-character address and 0 <= chars <= 40: first `chars + 2` characters, "...", last `chars`, length `2 * chars + 5` |
| Format.ShortenShortAddress | frontend/src/lib/utils.ts:8-10 | an address of at most `42 - chars` characters, too short to reach index `42 - chars`, shortens to its head followed by "..." |
| Format.ElapsedSeconds | frontend/src/lib/utils.ts:33 | whole seconds rounded down, also for a timestamp in the future |
| Format.TimeAgoParts | frontend/src/lib/utils.ts:35-38 | seconds exactly below 60; otherwise the unit with the floored count, at least 1 and below the next unit |
| Format.NatToString | frontend/src/lib/utils.ts:35-38 | the decimal text is all digits, with no leading zero |
| Format.NatTextReadsBack | frontend/src/lib/utils.ts:35-38 | every digit text without a leading zero is the text of the number it reads as, so each number has exactly one such text |
| Format.ParseNatToString | frontend/src/lib/utils.ts:35-38 | the decimal text of a natural number reads back as that number |
| Format.IntToString | frontend/src/lib/utils.ts:35 | the text is a standard integer text (digits with no leading zero, after a "-" exactly for a negative count) |
| Format.ParseIntToString | frontend/src/lib/utils.ts:35 | the text of any integer count reads back as that count |
| Format.IntTextReadsBack | frontend/src/lib/utils.ts:35 | every standard integer text is `${n}` for the `n` it reads as, so no other text reads back to the same count |
| Format.TimeAgo | frontend/src/lib/utils.ts:30-39 | the text is a standard integer text, then one of the unit letters s, m, h, d, then " ago"; it starts with "-" exactly for a timestamp in the future; the unit is seconds exactly when less than a minute has passed |
| Format.TimeAgoReadsBack | frontend/src/lib/utils.ts:30-39 | the text ends in the unit's letter and " ago", and the rest is a standard integer text that reads back as the count, which with `IntTextReadsBack` makes it exactly `${count}` |

## Left out

- backend/src/utils/contracts.ts is not part of this model. Every gateway call is an outcome parameter, and ethers' 18-decimal formatting is assumed to give the `text` of an `Ether` amount.
- The data files are not modelled. Reading, writing, creating the data directory, and the fallback to `{}` or `[]` on a read failure become reads and assignments of the class fields. A route's 500 reply caused by a file-system error is not modelled.
- `generateId` and every `new Date()` are parameters. One request uses one timestamp, though the source reads the clock several times per request.
- Concurrency is not modelled. Each request runs alone, so overlapping read-modify-write cycles on the files, the lost updates they allow, and the interleaving of `Promise.all` are out. The per-quest flag lookups are recorded in list order.
- Key order: JavaScript lists integer-like keys before the others. The model keeps plain insertion order, which is the same for every address-shaped key.
- Ledger.GetUser: addresses that lower-case to the name of an `Object.prototype` member, such as `constructor` or `__proto__`, are out. The model's user map holds only stored records, so for such a key it finds no user and creates one. In the source the parsed JSON object inherits that member, which is truthy. `getUser` and `createUser` return it without writing, and the writers then throw when they reach `transactions`, `allocations` or `questProgress` (backend/src/utils/storage.ts:68, 75, 126-183). So for such an address `BridgeRoutes.Initiate` and `GasRoutes.Revert` answer 500 and record nothing, and `QuestRoutes.Complete` answers 500 after the chain write without setting the flag. The model records the write and answers `Ok` instead. Wallet addresses are hex strings and never take these names.
- `toLowerCase` is ASCII-only here. Case folding beyond A-Z is out.
- Strings are sequences of Unicode scalar values here, while JavaScript's `length` and `substring` count UTF-16 code units. `Format.ShortenAddress` and `Format.Substring` therefore differ from the source on text with characters outside the Basic Multilingual Plane.
- Request fields are strings or absent. Numbers, objects, and other non-string JSON values, with their own truthiness, are out. So are patch fields that are present but `undefined`.
- `parseInt` itself is out: each handler receives the parsed integer, or none for NaN. Quest ids that are NaN are out.
- `timeAgo` takes both times as integer milliseconds. An unparsable timestamp (NaN) is out.
- Quest flags keep integer keys. The JSON round trip that turns them into string keys is out.
- Error replies carry only their `error` text. The `message` field is out: the thrown error's message, and the constant hint on the not-eligible reply.
- `console.error` logging is out.
- `formatNumber`, `formatEther`, `calculateProgress` and `cn` in frontend/src/lib/utils.ts are out. They are floating-point or styling code.
- GasRoutes.Eligibility: the flag is stated on the wei value, not on `parseFloat` of the decimal text. The two agree for the texts ethers produces.
- GasRoutes.Allocate: the refusal tests the wei value for zero, not `parseFloat(text) === 0`.

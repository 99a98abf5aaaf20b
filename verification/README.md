# Medicare donation backend — a Dafny model

This project models the core of the Medicare donation backend (`backend/server.js`):

- **Medicine search.** The search endpoint rejects a missing or blank query. For a query it accepts, it folds the matching donations into one summary per medicine name. Names are compared lower-cased. A summary carries the total quantity, the latest expiry and `available = true`, and the response counts the summaries.
- **Money totals.**
  - The profile page sums a user's money donations with a `reduce` that counts only records whose `paymentStatus` is `"completed"`.
  - The public total and the admin dashboard ask the database for the same number through a `$match`/`$group`/`$sum` pipeline.
- **Account lifecycle.**
  - Registration, with an optional password that is hashed when supplied.
  - Login.
  - Password change.
  - The profile view and the admin statistics.
  - Two deletions: by the user through their email, and by an admin through the user's id. Both cascade over the user's donations, requests and money donations before removing the account.

The files are:

- `text.dfy` (module `Text`):
  - JavaScript's `trim`, with the ECMAScript whitespace set.
  - `toLowerCase` on ASCII letters.
- `records.dfy` (module `Records`): the documents of the four collections, and the `Option`/`Result` types used for the error paths.
- `search.dfy` (module `Search`):
  - The grouping as imperative code. `AddDonation` is the `forEach` callback: it updates an existing map entry in place or inserts a new one. `GroupIntoMap` is the loop over the donations. `MapValues` is `Array.from(map.values())`.
  - `Aggregate`, a fold function that specifies the grouping.
  - What each summary means over the whole input: `FirstOccurrence`, `GroupQuantity` and `LatestIndex`, combined in `Summarises`.
  - The proof that the fold meets that meaning.
- `money.dfy` (module `Money`):
  - The `reduce` total and the aggregation pipeline.
  - The proof that the two agree.
- `accounts.dfy` (module `Accounts`):
  - A `Store` class holding the four collections as sequences, updated in place by the handlers.
  - Login and the lookups as functions.
  - Lemmas that tie the handlers together: what registration stores, login accepts; what a password change stores, login accepts; a deleted account cannot log in.

Inputs the model takes as parameters:

- The search takes the donations that the database query returned, in the order it returned them (newest first).
- bcrypt is a pair of functions (`PasswordScheme`), and its random salt is a parameter.
- An expiry is the text the donor entered together with the calendar day it parses to.

## Model

| member | source | states |
|---|---|---|
| Text.TrimStart | backend/server.js:97 | the result is a suffix of the input; everything removed is whitespace; the result does not start with whitespace |
| Text.TrimEnd | backend/server.js:97 | the result is a prefix of the input; everything removed is whitespace; the result does not end with whitespace |
| Text.Trim | backend/server.js:97 | `trim` is `TrimEnd` after `TrimStart`; its meaning for the query check is stated by `Text.TrimEmptyIffBlank` |
| Text.TrimEmptyIffBlank | backend/server.js:97 | `s.trim() === ''` holds exactly when every character of `s` is whitespace |
| Text.AsciiLower | backend/server.js:112 | upper-case ASCII letters map to their lower-case letter 32 code points above; every other character is unchanged |
| Text.ToLower | backend/server.js:112 | same length, and each character is lower-cased |
| Text.ToLowerEqualIffCaseVariants | backend/server.js:112 | two medicine names get the same key exactly when they have the same length and differ only in the case of ASCII letters |
| Search.Key | backend/server.js:112 | the grouping key is the lower-cased medicine name; which names share a key is stated by `Text.ToLowerEqualIffCaseVariants` |
| Search.Open | backend/server.js:121-126 | a new entry carries the donation's own name, quantity and expiry, and is available; its meaning over the whole input is stated by `Search.AggregateSummarises` (first-seen name) |
| Search.Absorb | backend/server.js:114-119 | an existing entry gains the donation's quantity, and takes its expiry only when strictly later; stated over the whole input by `Search.AggregateSummarises` (group sum, latest expiry) |
| Search.Merge | backend/server.js:113-127 | one `forEach` step on the summaries; `Search.MergeKeepsSummary` states that it keeps a correct result correct, and `Search.AddDonation` that the map update performs it |
| Search.Aggregate | backend/server.js:111-128 | the fold of the `forEach` over the donations in input order; characterised by `Search.AggregateSummarises` and `Search.AggregateCountsDistinctKeys`, and implemented by `Search.GroupByMedicine` |
| Search.QueryRejected | backend/server.js:97 | `!query \|\| query.trim() === ''`; `Search.SearchMedicines` states that it holds exactly for a missing or whitespace-only query |
| Search.IndexOfKey | backend/server.js:113 | finds the first summary under a key, or reports that none exists |
| Search.FirstOccurrence | backend/server.js:120-126 | the index of the first donation with a key; no earlier donation has that key |
| Search.LatestIndex | backend/server.js:116-119 | the donation of a group whose expiry day is greatest, the earliest such on ties; the group is empty exactly when none exists |
| Search.MergeKeepsSummary | backend/server.js:111-127 | one `forEach` step on a correct result for the donations so far gives a correct result for one more donation |
| Search.AggregateSummarises | backend/server.js:109-128 | the fold's result has at most one entry per lower-cased name, and every entry is available; every donation's name has an entry, named after the first donation under that key; entries are in first-occurrence order; each quantity is its group's sum; each expiry is the group's latest, with ties keeping the earlier record |
| Search.AggregateCountsDistinctKeys | backend/server.js:131-136 | the number of summaries is the number of distinct lower-cased medicine names |
| Search.ThreeDonationsOneSummary | backend/server.js:109-128 | quantities 10, 5 and 7 under one name in three cases, with expiries 2025-01-01, 2025-06-01 and 2024-12-01, give a single summary of 22 expiring 2025-06-01, named as the first donation |
| Search.TwoMedicinesTwoSummaries | backend/server.js:109-131 | two medicines give two summaries, in the order of their first donation, with the case variants merged |
| Search.AddDonation | backend/server.js:111-127 | updating an existing entry in place, or inserting a new entry at the end, performs exactly one fold step on the summaries the map holds |
| Search.GroupIntoMap | backend/server.js:109-128 | after the loop, the map (insertion order plus entries) holds exactly the fold of all donations |
| Search.MapValues | backend/server.js:131 | the values are listed in the map's insertion order |
| Search.GroupByMedicine | backend/server.js:108-131 | the grouping returns exactly the fold `Aggregate` of the donations |
| Search.SearchMedicines | backend/server.js:93-137 | the "query required" error exactly when the query is missing or only whitespace; otherwise `success`, the fold's summaries, and `count` equal to both the number of summaries and the number of distinct names |
| Money.IsCompleted | backend/server.js:232 | a record counts toward a total exactly when its `paymentStatus` is `"completed"` |
| Money.TotalMoneyDonated | backend/server.js:231-233 | the `reduce` from 0, left to right; its meaning is stated by `Money.TotalIsSumOfCompleted`, `Money.TotalAfterAppend` and `Money.NoCompletedTotalsZero` |
| Money.SumAmounts | backend/server.js:61 | `$sum: '$amount'`; additive over concatenation by `Money.SumAmountsOfConcat` |
| Money.GroupTotal | backend/server.js:61 | `$group` with `_id: null` yields one document when anything matched and none otherwise; used by `Money.PipelineTotal` |
| Money.PipelineTotal | backend/server.js:59-63 | the pipeline total with its 0 fallback; `Money.ReduceAgreesWithPipeline` states that it equals the profile's `reduce` |
| Money.SumAmountsOfConcat | backend/server.js:61 | the sum of a concatenation is the sum of the sums |
| Money.MatchCompleted | backend/server.js:59-61 | the `$match` keeps only completed records and never grows |
| Money.MatchCompletedCounts | backend/server.js:60 | the `$match` keeps each completed record with its multiplicity, and nothing else |
| Money.MatchCompletedIdempotent | backend/server.js:60 | matching twice is matching once |
| Money.MatchCompletedOfConcat | backend/server.js:60 | the `$match` distributes over concatenation |
| Money.TotalAfterAppend | backend/server.js:231-233 | appending a completed record adds its amount; appending any other record leaves the total unchanged |
| Money.TotalOfConcat | backend/server.js:231-233 | the total of a concatenation is the sum of the totals |
| Money.NoCompletedTotalsZero | backend/server.js:231-233 | with no completed record, including an empty list, the total is 0 |
| Money.TotalIsSumOfCompleted | backend/server.js:231-233 | the `reduce` equals the sum of the amounts of exactly the completed records |
| Money.TotalIgnoresUncompleted | backend/server.js:231-233 | dropping the records that are not completed leaves the total unchanged |
| Money.ReduceAgreesWithPipeline | backend/server.js:59-63 | the profile's `reduce` and the `$match`/`$group`/`$sum` pipeline, with its 0 fallback, give the same total |
| Accounts.FindByEmail | backend/server.js:167 | the first user with the email, and none earlier; "not found" exactly when no user has it |
| Accounts.FindById | backend/server.js:424 | the user with the id; "not found" exactly when no user has it |
| Accounts.Where | backend/server.js:300-306 | only records whose ownership matches what is asked are kept, in order, and the result never grows |
| Accounts.WhereCounts | backend/server.js:300-306 | the records kept are exactly the matching ones, each with its multiplicity: a `deleteMany` of one owner leaves every other owner's records intact |
| Accounts.SuppliedPassword | backend/server.js:173 | `password && password.trim() !== ''`; `Accounts.NewUser` states that the saved user has a hash exactly when it holds |
| Accounts.HasStoredPassword | backend/server.js:200 | the stored password is neither null nor empty; `Accounts.Login` states that "no password" is answered exactly when it fails |
| Accounts.RequiredFieldsPresent | backend/User.js:4-7 | the schema's required `name`, `email`, `mobile` and `address` are all non-empty; `Accounts.Store.Register` states that with a free email it decides success |
| Accounts.NewUser | backend/server.js:172-183 | the saved user has the given email and id, and has a password hash exactly when a non-blank password was supplied |
| Accounts.Login | backend/server.js:193-212 | "user not found" exactly when no user has the email; success returns the found user's name and email, and needs a stored password that matches; with unique emails, success exactly when the stored hash matches, "no password" exactly when none is stored, and "invalid password" exactly when one is stored and does not match |
| Accounts.RegisteredPasswordLogsIn | backend/server.js:172-205 | an account registered with a non-blank password logs in with that password |
| Accounts.PasswordlessAccountNeverLogsIn | backend/server.js:172-202 | an account registered without a password fails every login with "no password" |
| Accounts.ChangedPasswordLogsIn | backend/server.js:336-341 | after a password change, login with the new password succeeds |
| Accounts.DeletedAccountCannotLogIn | backend/server.js:309 | after the account is removed, login reports "user not found" |
| Accounts.RemovedEmailGone | backend/server.js:309 | with unique emails, removing a user leaves no user with its email |
| Accounts.AppendUser | backend/server.js:185 | saving a user with a fresh email and the next id keeps emails and ids unique |
| Accounts.RemoveUser | backend/server.js:309 | removing one user keeps emails and ids unique and removes its email |
| Accounts.Store.Register | backend/server.js:162-190 | a taken email is refused, and only then a missing required field; success exactly when the email is free and the required fields are present; on success exactly one user is appended, built by `NewUser` under the next id; on failure the users are unchanged; the other collections never change; the store's invariant is kept |
| Accounts.Store.Save | backend/server.js:177-185 | the new user is appended under the next id; nothing else changes; emails and ids stay unique |
| Accounts.Store.ChangePassword | backend/server.js:320-349 | "not found", "illegal arguments" (no stored hash) and "invalid password" exactly in their cases, and success exactly when the current password matches the stored hash; on success only that user's password becomes the new hash; on failure nothing changes |
| Accounts.Store.DeleteAccount | backend/server.js:289-317 | an unknown email gives "not found" and changes nothing; otherwise the user is removed and so is every donation, request and money donation carrying that email; every other record stays, in order |
| Accounts.Store.AdminDeleteUser | backend/server.js:419-447 | the same cascade, keyed by the email of the user with the given id; an unknown id changes nothing |
| Accounts.Store.DeleteUserAt | backend/server.js:299-309 | the three `deleteMany` calls on the user's email, then the user's removal; afterwards no user has that email and the invariant holds |
| Accounts.Store.Profile | backend/server.js:215-252 | "not found" exactly when no user has the email; otherwise the found user's name, mobile and address with the requested email, the user's own records of each kind, and a total equal to the sum of exactly their completed money donations |
| Accounts.Store.Stats | backend/server.js:393-412 | the collection sizes, and a completed total from the pipeline that equals the profile's `reduce` over all money donations |

## Left out

- The regular-expression filter `new RegExp(query, 'i')` and the database `find`/`sort`. The donations they return are an input to `SearchMedicines`, in the order they were returned.
- Search.SearchMedicines: does not model the error for a non-blank query that is not a valid regular expression (such as `(`), because the regular-expression engine is not modelled. There `new RegExp` throws and the handler answers with a server error, where the model answers with the fold of the donations it is given.
- The HTTP layer: Express routing, JSON bodies, status codes, static pages and the MongoDB connection. The error cases become `Result` values.
- JavaScript `Date` parsing. An expiry carries its parsed calendar day. An invalid date (NaN, which never compares greater) is not modelled.
- `Number` arithmetic. Quantities and amounts are unbounded integers, so floating-point rounding and non-numeric values are not modelled.
- Text.ToLower: lower-cases only ASCII letters. Unicode case folding (for example of accented capitals) is not modelled.
- bcrypt. Hashing and comparison are the uninterpreted functions of a `PasswordScheme`, and the salt is a parameter. The lemmas that need it (`Sound`) assume two things: that a hash is never empty, so a hashed password counts as stored, and that a password matches its own hash. The 72-byte input limit is not modelled.
- Accounts.Store.Register: Mongoose's own behaviour on `save` is reduced to the required-field check. Type casting and the race between the existence check and the unique index are not modelled.
- Missing request-body fields (`undefined`). Strings are always present: login and password change take strings; only the registration password and the search query are optional.
- `findById` with a malformed id, which throws a cast error. Ids are natural numbers here.
- Partial failure of the cascade, and concurrent requests. Each handler runs to completion on its own.
- The profile update (`findOneAndUpdate`). A foreign database call with no decision of its own.
- The admin request-status update. It writes any string with no validation, so there is no transition rule to state.
- The routes that create records (donations, money donations, requests) and the listing and count routes. Each is a plain `save`, `find` or `countDocuments`.
- The schema files and the browser scripts under `js/`. The schemas only give the record shapes.

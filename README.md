# Amasampo marketplace core in Dafny

This project models the client-side persistence engine and ledger of the
Amasampo offline-first marketplace, and proves properties of the model.
It also models the user registry behind the sign-in flows and the
listing rules of the explore feed.

- **`StorageService`** (`storage.dfy`, over `database.dfy` and
  `records.dfy`) is the record store.
  - The database is a map from the thirteen object stores to maps from
    key to record. `Valid()` holds three invariants: every store exists,
    every record is of its store's kind and sits under its key-path
    value (`userId` for `wallet` and `user_data`, `id` elsewhere), and
    every outbox entry names a store whose writes are synced.
  - The `amasampo_sync_mesh` channel is a log of the `(type, source)`
    messages this context posts.
  - Listeners are a set of callback identities, and each call is
    counted.
  - The save wrappers stamp `PENDING`, put the record, append a `PUT`
    outbox entry carrying it, then broadcast.
  - `ProcessSyncQueue` drains a snapshot of the outbox in a loop under
    the `isSyncing` flag. It is proved equal to the drain specification
    `Drained`.
  - The sorted reads are proved to be permutations of the stored records
    in the documented order.
- **`PaymentService`** (`payment.dfy`, over `ledger.dfy`) covers the
  operations below. Each method's effect on the database is proved equal
  to a ledger function. Lemmas about that function give the balance
  change, the revenue booked and the records written. A refused request
  writes and posts nothing.
  - deposits;
  - withdrawals, charged the 5 ZK flat fee;
  - the 2% deal commission on a finalized handshake;
  - the 25 ZK listing boost.
- **The user registry** (`auth.dfy`) is the stored user list of the
  sign-in flows, the mock one-time-code store and the open session. It
  covers `syncUserToDb`, `loginEmail`, `signupEmail`, `requestOTP` and
  `verifyOTP`.
- **The explore feed** (`explore.dfy`) has three parts:
  - `applyFilters`: the four filters, specified by one predicate
    `Shown`, then the sort that puts boosted listings first and the
    newest first;
  - the merge of stored and mock listings in `loadAllData`;
  - `text.dfy` and `sorting.dfy`, which model `localeCompare`,
    `toLowerCase`, `trim`, `includes` and the library sort.

Clocks, random ids, outbox entry ids, the ISO date text and
`encodeURIComponent` are parameters. Payment operations take them bundled
as `Fresh`. Money is `real`, so `amount * 0.02` is exact.

## Model

| member | source | states |
|---|---|---|
| Text.StrLeRefl | services/storage.ts:181 | the string order behind `localeCompare` is reflexive |
| Text.StrLeTotal | services/storage.ts:181 | any two strings are ordered one way or the other |
| Text.StrLeTrans | services/storage.ts:181 | the string order is transitive |
| Text.StrLeAntisym | services/storage.ts:181 | strings ordered both ways are equal |
| Text.LowerChar | pages/Explore.tsx:43-46 | upper-case ASCII letters map to lower-case letters; every other character is unchanged |
| Text.Lower | pages/Explore.tsx:43-46 | `toLowerCase` keeps the length, lower-cases each character and leaves no upper-case letter |
| Text.LowerIdempotent | pages/Explore.tsx:43 | lower-casing twice equals lower-casing once |
| Text.TrimStart | pages/Explore.tsx:42 | drops exactly the leading white space: the result is a suffix, starts with a non-white character, and everything dropped is white |
| Text.TrimEnd | pages/Explore.tsx:42 | drops exactly the trailing white space, in the same sense |
| Text.TrimEmptyIff | pages/Explore.tsx:42 | `trim()` yields the empty (falsy) string iff every character is white space |
| Text.ContainsIff | pages/Explore.tsx:45 | `includes` holds iff the pattern occurs at some index |
| Text.ContainsEmpty | pages/Explore.tsx:45 | every string includes the empty string |
| Sorting.Insert | pages/Explore.tsx:58-61 | inserting adds exactly the one element (multiset) |
| Sorting.SortBy | pages/Explore.tsx:58-61 | the sort returns a permutation of its input |
| Sorting.InsertSorted | pages/Explore.tsx:58-61 | inserting into a sorted sequence keeps it sorted under a total preorder |
| Sorting.SortBySorted | services/storage.ts:181 | the sort's output is sorted by the comparator whenever the comparator is a total preorder |
| Records.AllStoresComplete | services/storage.ts:6-20 | the thirteen named stores are all the stores there are |
| Records.KeyPathOf | services/storage.ts:65 | the key path is `userId` exactly for `wallet` and `user_data`, else `id` |
| Records.PrimaryKey | services/storage.ts:65-66 | a record of the store's kind is keyed by its value at the store's key path |
| Records.LookupKey | services/storage.ts:121 | `data.id \|\| data.userId`: a non-empty `id` wins; otherwise the `userId`, if any |
| Records.OutboxEntryKey | services/storage.ts:83-92 | a well-placed outbox entry is stored under its own `id` |
| Records.SyncedStoresHaveStatus | services/storage.ts:147-168 | every kind written through the outbox carries a `syncStatus` |
| Records.SetSynced | services/storage.ts:126 | stamping sets `syncStatus` to `SYNCED`, and keeps the keys, the kind, a record already `SYNCED` and a record without a status |
| Records.SetSyncedIdempotent | services/storage.ts:126 | stamping twice equals stamping once |
| Records.SetSyncedFits | services/storage.ts:126-127 | a stamped record still fits the store and key it came from |
| Database.Upgrade | services/storage.ts:61-69 | opening creates exactly the missing stores, empty, and keeps the existing ones unchanged |
| Database.UpgradeIdempotent | services/storage.ts:63-64 | a second upgrade creates nothing |
| Database.UpgradeWellFormed | services/storage.ts:61-69 | the upgrade keeps every record in place and every outbox target synced |
| Database.Get | services/storage.ts:187 | `get` finds a record iff the key is stored, and returns that record |
| Database.Put | services/storage.ts:149 | `put` stores the record under its key-path value and changes no other store or key |
| Database.Delete | services/storage.ts:229 | `delete` removes exactly that key; a missing key is a no-op |
| Database.PutIdempotent | services/storage.ts:149 | putting the same record twice equals putting it once |
| Database.DeleteIdempotent | services/storage.ts:229 | deleting twice equals deleting once |
| Database.PutThenDelete | services/storage.ts:229-233 | putting a new key, then deleting it, restores the database |
| Database.DeleteThenPutKeys | services/storage.ts:229-233 | deleting a key, then putting a record under it, equals a plain put and restores the key set |
| Database.PutUnchanged | services/storage.ts:259 | putting the record already stored under its key changes nothing |
| Database.PutWellFormed | services/storage.ts:65-66 | a put of a right-kind record keeps the database well formed |
| Database.DeleteWellFormed | services/storage.ts:229 | a delete keeps the database well formed |
| Database.DrainStep | services/storage.ts:119-135 | one drain step keeps the set of stores |
| Database.DrainStepIsPutDelete | services/storage.ts:119-135 | the step is a put of the stamped live record, then a delete of the entry |
| Database.DrainStepWellFormed | services/storage.ts:119-135 | a drain step keeps the database well formed |
| Database.DrainedWellFormed | services/storage.ts:114-136 | draining any part of the snapshot keeps the database well formed and creates no stores |
| Database.DrainedNothing | services/storage.ts:114 | before any entry is processed, the database is the snapshot |
| Database.TargetsAdd | services/storage.ts:121 | one more processed entry adds exactly its `(store, lookup key)` target |
| Database.DrainedSlot | services/storage.ts:119-131 | each data store, after the drain, is the snapshot's store with exactly the targeted records stamped |
| Database.DrainedTargetSlot | services/storage.ts:121-127 | the entry's own store gains its stamped record when the record is present, and is unchanged otherwise |
| Database.DrainedOtherSlot | services/storage.ts:119-127 | a store the entry does not name is unchanged |
| Database.DrainStepSlot | services/storage.ts:119-135 | the step, store by store: the outbox loses the entry, the target gains the stamped record, the rest is unchanged |
| Database.DrainedStepTarget | services/storage.ts:119-135 | on the entry's store, one more processed entry is one `DrainStep` |
| Database.DrainedStepOther | services/storage.ts:119-135 | on every other store, one more processed entry is one `DrainStep` |
| Database.DrainedStep | services/storage.ts:114-136 | processing one more snapshot entry is exactly one `DrainStep` on the state reached so far |
| Database.StampedIdempotent | services/storage.ts:126-127 | re-stamping records already stamped leaves them unchanged |
| Database.DrainedAll | services/storage.ts:114-136 | after the whole snapshot, the outbox is empty and every targeted record with a status is `SYNCED` |
| Database.DrainedLeavesOthers | services/storage.ts:121-127 | a record no entry targets is untouched |
| Storage.Select | services/storage.ts:178-180 | projecting the records read back never grows the list |
| Storage.SelectCount | services/storage.ts:178-180 | a projected value occurs as often as the one record that projects to it |
| Storage.FollowIdsOnce | services/storage.ts:242 | each followed id, and nothing else, is read back exactly once |
| Storage.OfUser | services/storage.ts:299 | the filter keeps exactly the user's transactions, each as often as in the input |
| Storage.OfChat | services/storage.ts:337 | the filter keeps exactly the chat's messages, each as often as in the input |
| Storage.FindByChat | services/storage.ts:158 | `find` returns the first handshake of that chat in the list (no earlier entry has the chat), or none when the list has none |
| Storage.NewerListingFirstIsPreorder | services/storage.ts:181 | newest-`createdAt`-first is a total preorder |
| Storage.NewerTxFirstIsPreorder | services/storage.ts:300 | newest-`timestamp`-first is a total preorder |
| Storage.MessageIdOrderIsPreorder | services/storage.ts:338 | ascending `id` is a total preorder |
| Storage.CleanListing | services/storage.ts:165-169 | the saved listing is `PENDING`, keeps a non-empty `createdAt`, gets `now` for an empty one, and is otherwise the input |
| Storage.BumpViews | services/storage.ts:363 | views become the old count plus one, a missing count reading as 0; nothing else changes |
| Storage.MetadataIn | services/storage.ts:349-353 | `getMetadata` is null for a missing key and for a stored falsy value; otherwise it is the stored value |
| Storage.ListingIn | services/storage.ts:185-189 | the listing stored under the id, if there is one |
| Storage.BalanceIn | services/storage.ts:271-275 | the balance is 0 for a user without a wallet row; otherwise the stored balance |
| Storage.Saved | services/storage.ts:170-172 | a synced save puts the record under its key, adds one `PUT` outbox entry carrying the same record, and changes no other store |
| Storage.SavedIsPuts | services/storage.ts:81-96 | a synced save is the store's `put` followed by the outbox `put` |
| Storage.FollowToggled | services/storage.ts:219-237 | the toggle flips whether the id is followed, a new follow carries `now`, and no other store or key changes |
| Storage.FollowToggledTwice | services/storage.ts:219-237 | toggling twice restores the follows: exactly when the id was not followed, up to the new timestamp when it was |
| Storage.FavoriteToggled | services/storage.ts:245-263 | the toggle flips whether the listing's id is a favourite, stores the listing when added, and changes nothing else |
| Storage.FavoriteToggledTwice | services/storage.ts:245-263 | toggling twice restores the favourites when the listing was absent or stored as given; otherwise the passed listing replaces it |
| Storage.StoppedDrainKeepsEntry | services/storage.ts:114-135 | a drain stopped by a keyless entry leaves that entry in the outbox, so the outbox is not empty |
| Storage.StampAndDequeue | services/storage.ts:119-135 | one loop pass equals `DrainStep` on the current database, and keeps it well formed |
| Storage.StorageService.constructor | services/storage.ts:24-37 | a fresh service over the upgraded on-disk database: no listeners, no calls, an empty channel log, not syncing |
| Storage.StorageService.NotifyListeners | services/storage.ts:39-41 | every current listener is invoked exactly once more |
| Storage.StorageService.Subscribe | services/storage.ts:43-44 | the callback joins the listener set |
| Storage.StorageService.Unsubscribe | services/storage.ts:45-47 | the returned function removes exactly that callback; a second call changes nothing |
| Storage.StorageService.Broadcast | services/storage.ts:50-53 | one `(type, window.name)` message is appended, then every listener is invoked once |
| Storage.StorageService.OnChannelMessage | services/storage.ts:30-34 | a foreign message invokes every listener once; one of this context's own invokes none |
| Storage.StorageService.AddToSyncQueue | services/storage.ts:81-94 | one outbox entry `(id, store, data, action, now)` is put under its id, and the invariants are kept |
| Storage.StorageService.PutAndQueue | services/storage.ts:170-172 | the store's put, then the outbox entry: the state is `Saved` |
| Storage.StorageService.ProcessSyncQueue | services/storage.ts:98-141 | a no-op while syncing or when the outbox is empty. Otherwise START is posted. If every entry has a lookup key, the database becomes `Drained` of the whole snapshot, the outbox ends empty, COMPLETE is posted and `isSyncing` is cleared. An entry without a key leaves `isSyncing` set, no COMPLETE posted, and the database `StoppedDrain`: the entries handled before it are stamped and dequeued, and it and the rest stay in the outbox |
| Storage.StorageService.DrainAndFinish | services/storage.ts:114-139 | the drain, then the flag cleared and COMPLETE posted, exactly when every entry has a lookup key; otherwise the flag stays set, nothing is posted and the database is `StoppedDrain` |
| Storage.StorageService.DrainEntry | services/storage.ts:119-135 | one more snapshot entry processed: the database is `Drained` of one more key |
| Storage.StorageService.DrainSnapshot | services/storage.ts:114-136 | the loop finishes iff every entry has a lookup key, and then leaves `Drained` of all keys; when it stops, the entries handled so far are drained and a keyless entry is still queued (`StoppedDrain`) |
| Storage.StorageService.SaveHandshake | services/storage.ts:145-152 | `Saved` with the handshake `PENDING`, then `HANDSHAKE_UPDATED` posted and each listener invoked once |
| Storage.StorageService.SaveListing | services/storage.ts:163-174 | `Saved` with the cleaned listing, then `LISTING_UPDATED` posted and each listener invoked once |
| Storage.StorageService.SaveClip | services/storage.ts:191-198 | `Saved` with the clip `PENDING`, then `CLIP_NEW` posted |
| Storage.StorageService.SaveStory | services/storage.ts:206-211 | the story is put as given with no outbox entry, then `STORY_NEW` posted |
| Storage.StorageService.ToggleFollow | services/storage.ts:219-237 | returns true iff the id was not followed, leaves the store `FollowToggled`, posts `FOLLOW_UPDATED`; no outbox entry |
| Storage.StorageService.ToggleFavorite | services/storage.ts:245-263 | returns true iff the id was not a favourite, leaves the store `FavoriteToggled`, posts `FAV_UPDATED`; no outbox entry |
| Storage.StorageService.UpdateBalance | services/storage.ts:277-284 | `Saved` with the new `PENDING` wallet row; `getBalance` then returns the new balance; `WALLET_UPDATED` posted |
| Storage.StorageService.SaveTransaction | services/storage.ts:286-293 | `Saved` with the transaction `PENDING`, then `TX_NEW` posted |
| Storage.StorageService.SaveChatSession | services/storage.ts:304-311 | `Saved` with the session `PENDING`, then `CHAT_NEW` posted |
| Storage.StorageService.SaveMessage | services/storage.ts:325-331 | put under its id, or the fallback id when empty, tagged with the chat; no outbox entry; `MSG_NEW` posted |
| Storage.StorageService.SetMetadata | services/storage.ts:342-347 | put `{id: key, value}` with no outbox entry; reading it back gives the value, or null for a falsy one; `METADATA_UPDATED` posted |
| Storage.StorageService.IncrementViews | services/storage.ts:355-367 | a stored listing is put back with views plus one; an unknown id changes nothing; the outbox, the channel and the listeners are never touched |
| Storage.StorageService.GetAll | services/storage.ts:178 | `getAll` returns every record of the store exactly once |
| Storage.StorageService.GetAllListings | services/storage.ts:176-183 | every stored listing exactly once, sorted newest `createdAt` first |
| Storage.StorageService.GetTransactions | services/storage.ts:295-302 | exactly the user's stored transactions, each once, sorted newest `timestamp` first |
| Storage.StorageService.GetMessages | services/storage.ts:333-340 | exactly the chat's stored messages, each once, sorted by ascending `id` |
| Storage.StorageService.GetAllClips | services/storage.ts:200-204 | every stored clip exactly once |
| Storage.StorageService.GetStories | services/storage.ts:213-217 | every stored story exactly once |
| Storage.StorageService.GetFavorites | services/storage.ts:265-269 | every favourite listing exactly once |
| Storage.StorageService.GetAllChatSessions | services/storage.ts:313-317 | every stored chat session exactly once |
| Storage.StorageService.GetFollows | services/storage.ts:239-243 | each followed id exactly once |
| Storage.StorageService.GetHandshakeByChat | services/storage.ts:154-161 | a stored handshake of the chat, or null exactly when none is stored |
| Storage.StorageService.GetBalance | services/storage.ts:271-275 | the stored balance of the user's wallet row (keyed by that user), or 0 when the user has none |
| Storage.StorageService.GetListingById | services/storage.ts:185-189 | the listing stored under the id, with that id, or null iff none is stored |
| Storage.StorageService.GetMetadata | services/storage.ts:349-353 | the stored value under the key, or null for a missing key and for a stored falsy value (0, false) |
| Storage.StorageService.GetChatSession | services/storage.ts:319-323 | the session stored under the id, with that id, or null iff none is stored |
| PaymentLedger.RevenueOf | services/payment.ts:63 | `(getMetadata(...) \|\| 0)` as a number: a missing counter is 0, a number is itself, `true` adds as 1 |
| PaymentLedger.Booked | services/payment.ts:63-64 | booking revenue changes only the metadata store |
| PaymentLedger.BookedRevenue | services/payment.ts:63-64 | booking a fee raises the revenue read back by exactly the fee |
| PaymentLedger.BookedKeepsBalance | services/payment.ts:63-64 | booking revenue moves no wallet balance |
| PaymentLedger.Deposited | services/payment.ts:28-30 | the deposit's effect keeps every store |
| PaymentLedger.DepositCredits | services/payment.ts:29-30 | a deposit raises the depositor's balance by the amount and no one else's |
| PaymentLedger.DepositRecords | services/payment.ts:17-28 | a deposit records its transaction and touches only transactions, wallet and outbox |
| PaymentLedger.Charged | services/payment.ts:59-60 | a charge keeps every store |
| PaymentLedger.ChargeDebits | services/payment.ts:59 | a charge lowers the payer's balance by the total and no one else's |
| PaymentLedger.ChargeRecords | services/payment.ts:59-60 | a charge records its transaction and touches only transactions, wallet and outbox |
| PaymentLedger.Withdrawn | services/payment.ts:59-64 | a withdrawal keeps every store |
| PaymentLedger.WithdrawalDebits | services/payment.ts:59-64 | a withdrawal lowers the user's balance by `amount + 5` and no one else's |
| PaymentLedger.WithdrawalBooksFee | services/payment.ts:63-64 | a withdrawal raises platform revenue by exactly the 5 ZK fee, a missing counter reading as 0 |
| PaymentLedger.WithdrawalRecords | services/payment.ts:48-64 | a withdrawal records its transaction and touches only transactions, wallet, outbox and metadata |
| PaymentLedger.Commissioned | services/payment.ts:78-93 | the commission's effect keeps every store |
| PaymentLedger.CommissionBooked | services/payment.ts:69-93 | the commission moves no balance, whatever the seller's balance, and raises revenue by exactly the commission |
| PaymentLedger.CommissionRecords | services/payment.ts:78-93 | the commission transaction is recorded, and only transactions, outbox and metadata change |
| PaymentLedger.BoostedRow | services/payment.ts:119-121 | the listing saved again with `isBoosted` set, its id kept, `PENDING` |
| PaymentLedger.WithBoostedListing | services/payment.ts:118-122 | an existing listing is replaced by its boosted row; with none, the listings are unchanged; metadata, wallet and transactions are untouched |
| PaymentLedger.Boosted | services/payment.ts:114-126 | a boost keeps every store |
| PaymentLedger.ChargeKeepsListings | services/payment.ts:114-118 | charging leaves every listing where it was |
| PaymentLedger.BoostDebits | services/payment.ts:114-126 | a boost lowers the payer's balance by exactly 25 and no one else's |
| PaymentLedger.BoostMarksListing | services/payment.ts:118-122 | an existing listing ends up boosted; a missing one leaves the listings unchanged, and the charge still happens |
| PaymentLedger.BoostRecords | services/payment.ts:103-115 | the boost transaction is recorded |
| PaymentLedger.BoostBooksPrice | services/payment.ts:125-126 | a boost raises platform revenue by exactly 25 |
| Payment.PaymentService.constructor | services/payment.ts:2-5 | the service works on the given storage service |
| Payment.PaymentService.AddRevenue | services/payment.ts:63-64 | read-increment-write of `platform_revenue`: the state is `Booked`, and one `METADATA_UPDATED` is posted |
| Payment.PaymentService.ProcessDeposit | services/payment.ts:15-38 | returns the `DEPOSIT`/`SUCCESS` transaction; the state is `Deposited`; posts `TX_NEW`, `WALLET_UPDATED`, `GLOBAL_ALERT` in that order |
| Payment.PaymentService.Charge | services/payment.ts:59-60 | wallet debited, then transaction saved: the state is `Charged`, posts `WALLET_UPDATED`, `TX_NEW` |
| Payment.PaymentService.Withdraw | services/payment.ts:48-66 | after the check: returns the `WITHDRAWAL` transaction of `amount + 5`; the state is `Withdrawn`; a non-negative balance is left |
| Payment.PaymentService.ProcessWithdrawal | services/payment.ts:40-67 | refused iff the balance is below `amount + 5`, and a refusal changes nothing. Otherwise it does the `Withdraw` effect with its messages |
| Payment.PaymentService.FinalizeHandshake | services/payment.ts:69-94 | never refuses: the state is `Commissioned` with the 2% `PAYMENT` transaction on the seller; posts `TX_NEW`, `METADATA_UPDATED` |
| Payment.PaymentService.MarkBoosted | services/payment.ts:118-122 | the state is `WithBoostedListing`; `LISTING_UPDATED` is posted only when the listing exists |
| Payment.PaymentService.ChargeAndMark | services/payment.ts:114-122 | the charge, then the listing boosted when it exists, with the messages in order |
| Payment.PaymentService.BookAndAlert | services/payment.ts:125-128 | the price booked, then `GLOBAL_ALERT` posted |
| Payment.PaymentService.ApplyBoost | services/payment.ts:103-128 | after the check: the state is `Boosted`, with the messages in order |
| Payment.PaymentService.PayForBoost | services/payment.ts:96-129 | refused iff the balance is below 25, and a refusal changes nothing, the listing included. Otherwise `Boosted`, a non-negative balance, and the messages in order |
| Auth.AvatarUrl | contexts/AuthContext.tsx:143 | the generated avatar address is never empty (truthy) |
| Auth.FirstIndex | contexts/AuthContext.tsx:73-75 | `findIndex`: -1 iff no entry matches; otherwise the first matching index |
| Auth.MatchIndex | contexts/AuthContext.tsx:73-75 | the first entry sharing the profile's non-empty email or phone, or -1 iff none does |
| Auth.EmailIndex | contexts/AuthContext.tsx:158 | an entry with that email, or -1 iff none has it |
| Auth.CredentialIndex | contexts/AuthContext.tsx:136 | the first entry with both that email and that password, or -1 iff none |
| Auth.PhoneIndex | contexts/AuthContext.tsx:199 | the first entry with that phone, or -1 iff none |
| Auth.Synced | contexts/AuthContext.tsx:71-87 | no match: exactly one new entry is appended. Otherwise the first match is merged in place, the length is unchanged and every other entry is untouched |
| Auth.EmailSession | contexts/AuthContext.tsx:139-145 | the email session always has a truthy photo, the entry's id and email, and the email method |
| Auth.SignupKeepsEmailsUnique | contexts/AuthContext.tsx:158-173 | sign-up keeps the registered emails distinct |
| Auth.SignupThenLogin | contexts/AuthContext.tsx:136-184 | right after sign-up, signing in with the same email and password finds the new entry and opens the same session |
| Auth.PhoneSignupThenLogin | contexts/AuthContext.tsx:199-216 | a phone account created by a code check is the one the next check finds |
| Auth.SyncTwiceAppended | contexts/AuthContext.tsx:77-85 | a second sync of an appended profile changes nothing |
| Auth.MatchIndexKept | contexts/AuthContext.tsx:73-84 | merging into the first match keeps it the first match |
| Auth.MergedIdempotent | contexts/AuthContext.tsx:84 | merging the same profile again changes nothing |
| Auth.SyncTwiceMerged | contexts/AuthContext.tsx:73-85 | a second sync of a merged profile changes nothing |
| Auth.SyncTwice | contexts/AuthContext.tsx:71-87 | syncing a profile with an id and a non-empty email or phone twice equals syncing it once |
| Auth.SyncWithoutContactAppends | contexts/AuthContext.tsx:73-82 | a profile with neither a non-empty email nor phone is appended on every sync |
| Auth.AuthRegistry.constructor | contexts/AuthContext.tsx:43-44 | the stored users and session, no error, an empty code store |
| Auth.AuthRegistry.FinalizeLogin | contexts/AuthContext.tsx:89-94 | the session is opened and the error cleared |
| Auth.AuthRegistry.SyncUserToDb | contexts/AuthContext.tsx:71-87 | the list becomes `Synced` |
| Auth.AuthRegistry.LoginEmail | contexts/AuthContext.tsx:133-152 | succeeds iff some entry has both the email and the password, opening that entry's session. Otherwise the error is set and the session is kept |
| Auth.AuthRegistry.SignupEmail | contexts/AuthContext.tsx:154-185 | refused iff the email is registered, and a refusal changes nothing but the error. Otherwise exactly one entry is appended and signed in |
| Auth.AuthRegistry.RequestOTP | contexts/AuthContext.tsx:187-192 | stores the code `123456` for the phone and returns true |
| Auth.AuthRegistry.VerifyOTP | contexts/AuthContext.tsx:194-232 | a wrong code fails with the mismatch error. A right code signs into the phone's first entry. With no entry and no name it fails as account-not-found; with a name it appends exactly one phone entry and signs into it |
| Explore.Keep | pages/Explore.tsx:44-55 | `filter` keeps exactly the elements satisfying the predicate, each as often as in the input |
| Explore.FeedOrderIsPreorder | pages/Explore.tsx:58-61 | the feed comparator is a total preorder |
| Explore.SortFeed | pages/Explore.tsx:58-61 | a permutation with every boosted listing before every other; newest `createdAt` first within the same status |
| Explore.Sift | pages/Explore.tsx:39-56 | keeps exactly the listings `Shown` accepts, each as often as in the input (a sub-multiset) |
| Explore.ApplyFilters | pages/Explore.tsx:39-64 | the `Shown` sub-multiset of the input, boosted first, newest first within each group |
| Explore.LowerCharWhite | pages/Explore.tsx:42-43 | lower-casing keeps white space white and the rest non-white |
| Explore.LowerBlank | pages/Explore.tsx:42-43 | a query is blank iff its lower-cased form is |
| Explore.QueryCaseInsensitive | pages/Explore.tsx:42-47 | the feed shows the same listings for a query and its lower-cased form |
| Explore.QuerySkipped | pages/Explore.tsx:42 | a blank query, or one typed during an assisted search, filters nothing by text |
| Explore.NegotiableIgnoresRange | pages/Explore.tsx:51-54 | a negotiable listing passes whatever the price range |
| Explore.AllFiltersOpen | pages/Explore.tsx:50-55 | with the query blank and type and region `ALL`, every listing priced in range is shown |
| Explore.FindById | pages/Explore.tsx:28 | `find` by id: none iff no listing has the id; otherwise the first listing of the list with that id |
| Explore.Merged | pages/Explore.tsx:26-29 | the merge keeps the stored listings as its prefix |
| Explore.MergedAppendsNewMocks | pages/Explore.tsx:27-29 | only mocks are appended, each with an id no listing before it has |
| Explore.MergedHasEveryMock | pages/Explore.tsx:27-29 | every mock's id is present after the merge |
| Explore.MergedDistinct | pages/Explore.tsx:26-29 | distinct stored ids give distinct ids overall |
| Explore.MergedFresh | pages/Explore.tsx:27-29 | when no stored or mock ids clash, every mock is appended, in `MOCK_LISTINGS` order |
| Explore.MergedKnown | pages/Explore.tsx:28 | mocks whose ids are all stored already add nothing |
| Explore.MergeMocks | pages/Explore.tsx:24-31 | the loop's result is `Merged`: the stored listings, then each mock in order, pushed iff `find` sees no listing with its id; hence the prefix, new-id, every-mock and distinctness properties |

## Left out

- IndexedDB mechanics (requests, transactions, callbacks, `async`/`await`) are not modelled. Every operation is atomic and sequential. The lazy `getDB` open is done once, by the `StorageService` constructor.
- Cross-tab and interleaved-`await` races on balances and on the revenue counter are not modelled, because the model is sequential.
- The 15-second `setInterval` (services/storage.ts:36) and the call to `processSyncQueue` at the end of `addToSyncQueue` (services/storage.ts:95) are not modelled. `ProcessSyncQueue` is a separate method that callers invoke.
- The 400 ms simulated upload (services/storage.ts:116) and the log line are not modelled.
- `Storage.StorageService.Broadcast` logs only the message type and source. The payload and `Date.now()` timestamp of each channel message are not modelled.
- `Storage.StorageService.GetAll` returns the records in no stated order: IndexedDB key order is not modelled. Reads that do not sort are specified as multisets.
- `localeCompare` is modelled as code-unit lexicographic order. Locale collation is not modelled. The ids and ISO timestamps compared here are ASCII.
- `Text.Lower`: `toLowerCase` is modelled on ASCII letters only.
- `Storage.StorageService.AddToSyncQueue`: the `JSON.parse(JSON.stringify(data))` clone stored as the outbox entry's data (services/storage.ts:86) is the record itself.
- Money is exact `real` arithmetic, so IEEE-754 rounding is not modelled: not the rounding of `amount * 0.02` (services/payment.ts:70), and not that of the running balance and revenue sums.
- `Payment.PaymentService.ProcessWithdrawal`: amounts are reals, so a NaN amount is not modelled. In the source `Number(...)` of a non-numeric entry is NaN, `currentBalance < totalDeduction` is then false, and the withdrawal is let through (services/payment.ts:44). The wallet page refuses such amounts before calling (pages/Wallet.tsx:37).
- Metadata values are numbers or booleans only. `RevenueOf` reads `true` as 1, as `true + 5` would add.
- `SaveMessage` takes a typed message, whereas the source takes `any`. Its fallback id `msg_<now>` is a parameter.
- Ids, timestamps, outbox entry ids, the ISO date text and the random characters of new ids are parameters.
- The `user_data` store is created by the upgrade but no modelled operation writes it.
- `generateChecksum` (services/payment.ts:10-13) is not modelled: it is never called and wraps `btoa`.
- The `phone` argument of `processDeposit` and `processWithdrawal` is not modelled: neither method uses it.
- The error message texts of the two payment refusals are not modelled. The refusal carries the amount the message names.
- `Auth.AuthRegistry.FinalizeLogin` does not post `AUTH_LOGIN` on the storage channel, and does not write the session to `localStorage`. The registry is modelled apart from the storage service.
- The user list lives in a field: its `localStorage` JSON round-trip is not modelled.
- Google sign-in with a JWT (contexts/AuthContext.tsx:96-119) is not modelled, because it needs a foreign decoder. The demo sign-in (121-131), `logout` (234-239), `setCurrency` (63-67), `clearError` (69) and the storage subscription (47-61) are not modelled either: they are React and `localStorage` plumbing.
- The `setTimeout` delays in the sign-in flows are not modelled.
- `encodeURIComponent` is a function parameter `encode` of the flows that build avatar addresses.
- `Auth.AuthRegistry.VerifyOTP` leaves the code stored after use, as the source does.
- The debounced assisted search in pages/Explore.tsx:66-85 is not modelled, because it calls a generative-AI service. `isSearching` and the filter settings are inputs (`Filters`). The mock listings are a parameter of `MergeMocks`.
- React state updates (`setAllListings`, `setFilteredListings`) are not modelled. `ApplyFilters` returns the list the page would show.

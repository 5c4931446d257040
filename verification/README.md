# A verified model of sekeve

sekeve is a secret manager: a server keeps encrypted entries in a bbolt database, and clients open a session by
answering a GPG challenge and, when a PIN is set, by redeeming a one-time unlock ticket together with the PIN. This
project models its five stateful parts in Dafny and proves what they keep, over all inputs, runs and interleavings.

| part | files |
|---|---|
| authentication state, as specification, as an object, and against a manager that never deletes | `Auth`, `AuthManager`, `AuthEffects`, `Ledger` |
| the server as a transition system with any number of calls in flight, and its invariants | `System`, `SystemInvariants`, `PinBarrier`, `PinChain`, `Counting`, `PinFlag`, `Lockout` |
| the handlers as code and their outcomes, and the client's PIN prompt composed with the server | `Server`, `Outcomes`, `UnlockPrompt` |
| calls run alone or against each other, and the runs that show the bounds to be exact | `SoloCalls`, `Overtaking`, `Guesses`, `Race`, `PromptRuns` |
| the entry store with its type index | `Bytes`, `Cursor`, `Entities`, `Store`, `StoreRuns` |
| fuzzy search | `Fuzzy`, `Search` |
| the Bitwarden import: plan, worker pool, repetition, and what it leaves on the server | `Bitwarden`, `Import`, `ImportPool`, `ImportRepeat`, `ImportRecovery` |

`Basics` holds the shared definitions. `dafny verify dfyconfig.toml` checks everything.

How the levels fit together:

- Each method of the class `AuthManager` changes its fields in place, with the deletion loops of the source, and is
  proved equal to a function of module `Auth`. The theorems are about those functions: the ledger simulation over
  runs of manager operations, and the transition system of module `Systems`, in which every critical section of the
  manager and every storage transaction is one step of one call and the steps of all calls interleave freely.
- `Server.Unlock` and `Server.SetPin` are the handlers as sequences of manager calls and storage accesses. They are
  proved equal to `RunCall`, one call taking all its steps, and `SoloRun` shows that this is a run of the
  transition system; so the handlers' code and the calls of the interleaved system are the same thing. `UnlockOutcome`
  and `SetPinOutcome` then say what a call does from request to reply, without naming its steps.
- `UnlockPrompt.Validate` is the prompt's closure over its captured variables. It is proved equal to `Decide`, from which the world of one
  client and the whole server is built.
- The store's methods change two maps in place. The contracts of `GetById` and `List` mention only the map of
  entries: that is the plain map that the two buckets refine.

## Premises

- Clock readings never go back. A random token differs from all tokens drawn before, and drawing one may fail.
  A new UUID is unused (section 5.7 of RFC 9562), and drawing one may fail.
- A bbolt transaction is atomic and may fail as a whole; a cursor walks the keys in byte order.
- JSON decoding is a left inverse of encoding, except that an empty metadata map reads back as nil; protobuf does the
  same and cuts instants to whole seconds. Texts are valid UTF-8.
- A stored PIN hash either matches a PIN or not, by an arbitrary relation; the hash of a new PIN matches that PIN.
- Any read of the PIN hash may fail, also the one at start-up. `SetTestToken`, `SetPINConfigured(false)` and
  `DeletePINHash` do not occur: the server never calls them.
- The library's text functions are arbitrary functions, and sorting yields some permutation in descending order.

## What the proofs found

- A `PermissionDenied` reply has always spent the prompt's ticket, so the next reply that gets past the rate check is
  `SessionExpired`, which resets the counter. The exit "too many failed PIN attempts" is therefore taken exactly when
  at least two replies since the last authentication were rate-limited (`AttemptsAtDenial`). Both sides occur: for
  every n there is a run with n rate-limited replies before a wrong PIN, which closes the prompt if and only if n is at
  least two (`LimitsThenDenial`), and a run with n wrong PINs after which the prompt still waits (`WrongPinsAloneNeverClose`).
- The comment on `Unlock` says that the ticket is consumed on first use. A rate-limited call returns before it consumes the ticket.
- The rate check and the record of a wrong PIN are separate critical sections. Wrong PINs are spaced by the lockout in
  every schedule in which none is recorded while another call stands between its rate check and its verdict, however the
  calls overlap otherwise (`UnovertakenGuessesAreSlow`); the bound is then met with equality by some run
  (`FloorIsMet`). The other half: right after a wrong PIN has been recorded, another call left to run on alone records
  one more at the same instant if and only if it had passed its rate check and its PIN is bound to be found wrong
  (`OvertakenGuessExactly`), and two successive steps record two at one instant if and only if two calls stand at a
  recording stage (`RaceExactly`). `RacingGuessesEscapeTheLockout` is such a run.
- If a hash is stored and the start-up read of it fails, the flag stays unset until some `SetPIN` sets it, and for
  exactly that long a live challenge is answered with a session without any PIN (`FlagAgreesWithStorage`,
  `SessionWithoutPinExactly`, `FailedReadOpensWithoutPin`).
- A `SetPIN` stores over the version that its caller has shown the PIN of if and only if its read of the hash found one
  and no other `SetPIN` stores between that read and its store (`StoredOver`). Two first-time changes can overlap so that the second
  replaces a PIN that its caller was never asked for (`SecondChangeUnchecked`).
- Two different logins can count as duplicates of each other, because "site:username" does not tell its halves apart when
  a username holds a colon (`ColonsConfuseLogins`); `SharedLoginTexts` says exactly when, and without colons in usernames it never happens.
- An exact match outranks all other targets for queries of at most 61 lowered characters, and for no greater length (`OutranksExactlyUpTo61`).
- The duplicate key of an envelope survives storage and transport unless it is a login with an empty, non-nil metadata
  map (`KeySurvives`). The importer never makes one.

## Model

| member | source | states |
|---|---|---|
| AuthManagers.AuthManager.GenerateChallenge | internal/adapters/grpc/auth.go:133-153 | drops exactly the expired nonces and adds the new one for 30 seconds; without entropy nothing changes |
| AuthManagers.AuthManager.VerifyNonce | internal/adapters/grpc/auth.go:172-231 | an unknown nonce changes nothing, any known one is spent; a live one gives a ticket when a PIN is set, else a session within the cap, with the source's clock readings |
| AuthManagers.AuthManager.RedeemUnlockTicket | internal/adapters/grpc/auth.go:235-269 | the ticket is spent even when it is expired or the cap or the entropy refuses the session |
| AuthManagers.AuthManager.ValidateToken | internal/adapters/grpc/auth.go:279-292 | true exactly for a live session; an expired one is removed, nothing else changes |
| AuthManagers.AuthManager.RevokeSession | internal/adapters/grpc/auth.go:337-341 | removes that session and nothing else |
| AuthManagers.AuthManager.InvalidateAllSessions | internal/adapters/grpc/auth.go:330-334 | empties the session map and keeps nonces, tickets and lockout |
| AuthManagers.AuthManager.SweepExpired | internal/adapters/grpc/auth.go:344-363 | the three deletion loops do what `Auth.SweepExpired` says, which `SweptExactly` pins entry by entry |
| AuthManagers.AuthManager.Sweep | internal/adapters/grpc/auth.go:143-148 | deleting while iterating, in any order, leaves exactly the unexpired entries |
| AuthManagers.AuthManager.RecordPinFailure | internal/adapters/grpc/auth.go:79-88 | counts the failure and locks for the clamped shift from now on |
| AuthManagers.AuthManager.ResetPinFailures | internal/adapters/grpc/auth.go:91-96 | clears the counter and the lock and nothing else |
| AuthManagers.AuthManager.SetPinConfigured | internal/adapters/grpc/auth.go:106-110 | sets the flag and nothing else |
| AuthEffects.VerifyNonceEffect | internal/adapters/grpc/auth.go:172-231 | every answer costs the nonce; a session only without PIN, a ticket only with it, never both, and the session cap is kept |
| AuthEffects.RedeemEffect | internal/adapters/grpc/auth.go:235-269 | whatever the outcome, exactly that ticket is gone, and a session comes only for a ticket that was there |
| AuthEffects.CapacityRefusalIsExact | internal/adapters/grpc/auth.go:252-260 | minting refuses for capacity if and only if 20 unexpired sessions exist |
| AuthEffects.SweptExactly | internal/adapters/grpc/auth.go:344-363 | a token is in each of the three maps after the sweep if and only if it was there unexpired, under the same expiry; nothing else changes |
| AuthEffects.GeneratedExactly | internal/adapters/grpc/auth.go:133-153 | exactly the unexpired nonces stay, beside the new one, which expires 30 seconds from now |
| AuthEffects.TicketGivenExactly | internal/adapters/grpc/auth.go:186-206 | exactly the unexpired tickets stay, beside the new one, which expires 30 seconds from the last clock reading |
| AuthEffects.MintedExactly | internal/adapters/grpc/auth.go:251-268 | exactly the unexpired sessions stay, beside the new one, which expires in one hour |
| AuthEffects.ValidatedExactly | internal/adapters/grpc/auth.go:279-292 | the answer is whether the token is a live session; it is removed if and only if it has expired, and no other is |
| AuthEffects.RefusedExactly | internal/adapters/grpc/auth.go:176-183 | "not found" if and only if the nonce or ticket is not there, without effect; "expired" if and only if it is there past its expiry |
| AuthEffects.ChallengeLifetime | internal/adapters/grpc/auth.go:17-21 | a generated challenge is refused as expired if and only if it is answered more than 30 seconds later |
| AuthEffects.TicketLifetime | internal/adapters/grpc/auth.go:199-201 | a given ticket is refused as expired if and only if it is redeemed more than 30 seconds later |
| AuthEffects.SessionLifetime | internal/adapters/grpc/auth.go:225-226 | a session is valid if and only if at most one hour has passed |
| Counting.NothingExpiredAfterSweep | internal/adapters/grpc/auth.go:344-363 | in the running server, right after the sweeper no map holds an expired token and every unexpired one is still there |
| Ledgers.OneOpAgrees | internal/adapters/grpc/auth.go:133-363 | simulation step: each operation answers as on a manager that only remembers issue times and uses, and the two states stay related |
| Ledgers.RunAgrees | internal/adapters/grpc/auth.go:133-363 | over every run, wherever sweeps stand, every answer has the success or status code that the never-deleting manager gives |
| Ledgers.FreshManagerAgrees | internal/adapters/grpc/auth.go:59-66 | the same from the empty manager |
| Ledgers.SweepsAreUnobservable | internal/adapters/grpc/auth.go:343-363 | taking all sweeps out of any run changes no answer a client sees |
| SystemInvariants.FateStep | internal/adapters/grpc/server.go:337-367 | every step of every call keeps: live sessions were minted, calls hold only tokens they minted, every minted token is accounted for |
| SystemInvariants.GoneForEver | internal/adapters/grpc/auth.go:337-341 | a session token that has left the map is in no later state's map |
| SystemInvariants.TokenFate | internal/adapters/grpc/server.go:342-366 | in every reachable state a token minted by an Unlock is pending in that call, or was delivered by it, or is out of the map for ever; no other call has it |
| SystemInvariants.NoOrphanSessions | internal/adapters/grpc/server.go:342-366 | with no call in flight, every live session was handed to a client |
| PinBarrier.PinChangeIsABarrier | internal/adapters/grpc/server.go:325-330 | after a SetPIN's invalidation, in every later state of every interleaving, each live session comes from an Unlock whose PIN check, once made, read that hash or a later one, and a delivered one matched it; none opened without a PIN is left |
| PinBarrier.LaterChangesNeedTheNewPin | internal/adapters/grpc/auth.go:320-325 | after a PIN change another SetPIN gets past the interceptor only with a live session opened with that PIN or a later one |
| PinBarrier.SetPinNeedsASession | internal/adapters/grpc/auth.go:303-327 | a SetPIN call starts if and only if its token is a live session |
| PinChain.StoredOver | internal/adapters/grpc/server.go:308-327 | in every interleaving the call that stores version v had checked no PIN if and only if its read failed or nothing was stored, else a PIN of the version then current, which is v - 1 if and only if no other SetPIN stored in between |
| PinChain.SecondChangeUnchecked | internal/adapters/grpc/server.go:308-327 | a run in which two overlapping first-time changes both store, the second without having been shown the first one's PIN |
| PinBarrier.BarrierAdvance | internal/adapters/grpc/server.go:303-367 | each step of Unlock and SetPIN keeps the barrier invariant |
| Counting.ChallengesAreConserved | internal/adapters/grpc/auth.go:176-230 | live nonces, live tickets and sessions ever minted together never outnumber the challenges generated |
| Counting.SessionCapHolds | internal/adapters/grpc/auth.go:17-21 | in every reachable state the map has at most 20 sessions, pending ones included |
| Counting.CapacityRefusalIsExact | internal/adapters/grpc/auth.go:251-260 | in every reachable state a live ticket, or nonce without PIN, is refused for capacity if and only if exactly 20 unexpired sessions are there |
| Counting.OneShot | internal/adapters/grpc/auth.go:176-245 | in a whole run each nonce and each ticket is consumed at most once |
| PinFlag.FlagAndStorageExactly | internal/adapters/grpc/server.go:47-50 | in every reachable state the flag is set if and only if the start-up read found a hash or some SetPIN has set it; a hash is stored if and only if one was there at the start or some SetPIN has stored one |
| PinFlag.FlagAgreesWithStorage | internal/adapters/grpc/server.go:325-330 | the flag never claims a missing hash; flag and storage agree if and only if some SetPIN has set the flag, or the start-up read of a stored hash succeeded, or none was stored then and no SetPIN stands between store and flag |
| PinFlag.SessionWithoutPinExactly | internal/adapters/grpc/auth.go:186-230 | in every reachable state a live challenge, given room and entropy, brings a session without PIN if and only if the start-up read found no hash and no SetPIN has set the flag; else a ticket |
| PinFlag.FailedReadOpensWithoutPin | internal/adapters/grpc/server.go:47-50 | a run: a hash is stored, the start-up read fails, and the first challenge answered opens a session without PIN |
| PinFlag.NoPinExitNeedsStorageFault | internal/adapters/grpc/server.go:349-354 | in every reachable state Unlock leaves by "no PIN configured" if and only if its own read of the hash failed |
| Lockout.BackoffIsClampedPower | internal/adapters/grpc/auth.go:83-86 | the n-th failure locks for min(60, 2^n) seconds, for every n |
| Lockout.LockoutNeverMovesBack | internal/adapters/grpc/auth.go:79-96 | in every reachable state no step moves the lock back unless it resets the failures |
| Lockout.LimitedExactlyWhileLocked | internal/adapters/grpc/auth.go:70-76 | in every reachable state the rate check refuses if and only if the n-th wrong PIN in a row is less than min(60, 2^n) seconds old |
| Lockout.UnovertakenGuessesAreSlow | internal/adapters/grpc/server.go:338-362 | when no wrong PIN is recorded while another call is between its rate check and its verdict, the n-th since a reset comes at least 2^n - 2 seconds (n <= 6), 60n - 298 seconds (n >= 6) after the first |
| Lockout.GuessesOneAtATimeAreSlow | internal/adapters/grpc/server.go:338-362 | the same bound when at most one call at a time is between its rate check and its verdict |
| Lockout.SerialGuessesAreSlow | internal/adapters/grpc/server.go:311-318 | the same bound as a corollary for serialised calls |
| Guesses.FloorIsMet | internal/adapters/grpc/auth.go:79-88 | for every n some run of serialised wrong PINs meets the bound with equality |
| Overtaking.RaceExactly | internal/adapters/grpc/server.go:355-356 | two successive steps at one instant record two wrong PINs if and only if two different calls, Unlock or SetPIN, stand at a recording stage |
| Overtaking.RecordingCallsCanRace | internal/adapters/grpc/server.go:314-316 | from every state with two calls at a recording stage the next two steps can record two wrong PINs at any one instant |
| Overtaking.OvertakenGuessExactly | internal/adapters/grpc/server.go:338-362 | in every reachable state, right after a wrong PIN is recorded, another call run on alone records one at the same instant if and only if it is past its rate check and its PIN is bound to be found wrong |
| SoloCalls.FailsAloneExactly | internal/adapters/grpc/server.go:303-367 | while the lock is set, a call run alone records a failure if and only if it is past its rate check and bound to fail |
| Lockout.SpacedAdvance | internal/adapters/grpc/server.go:338-362 | each step that overtakes no call keeps: past the rate check the lock has ended, and failures are spaced by the backoff |
| Race.RacingGuessesEscapeTheLockout | internal/adapters/grpc/server.go:338-362 | a concrete run in which two overlapping Unlock calls record two wrong PINs at one instant |
| SoloCalls.WrongUnlockAlone | internal/adapters/grpc/server.go:343-360 | a whole Unlock that passes the rate check records a failure if and only if its ticket buys a session and its PIN is wrong |
| Servers.Server.constructor | internal/adapters/grpc/server.go:47-50 | start-up sets the flag exactly when the read of the hash succeeds, as the transition system's initial state says |
| Servers.Server.Unlock | internal/adapters/grpc/server.go:337-367 | the handler's reply and effect are those of one call run alone through the transition system |
| Servers.Server.SetPin | internal/adapters/grpc/server.go:303-332 | the handler's reply and effect on manager and storage are those of one call run alone |
| Servers.Server.CheckPin | internal/adapters/grpc/server.go:348-366 | the tail of Unlock: read the hash, verify, and give the session out or record and revoke, as the call run alone does |
| Servers.Server.StorePin | internal/adapters/grpc/server.go:321-331 | the tail of SetPIN: store, flag, invalidate in this order, or an internal error that changes nothing |
| Servers.Server.HasPin | internal/adapters/grpc/server.go:296-299 | true exactly when the read succeeds on a stored hash |
| Servers.SoloRun | internal/adapters/grpc/server.go:303-367 | a call run alone is the run of the interleaved system that advances only this call |
| Outcomes.Redemption | internal/adapters/grpc/auth.go:235-269 | a ticket buys a session if and only if it is live, unexpired sessions leave room and a token can be drawn; the ticket goes in every case |
| Outcomes.UnlockOutcome | internal/adapters/grpc/server.go:334-367 | each of the five replies under its exact condition, and what is left: no session unless granted, the ticket gone unless rate-limited, the lockout moved only by a verdict on the PIN |
| Outcomes.SetPinOutcome | internal/adapters/grpc/server.go:301-332 | each answer under its exact condition; hash, flag and sessions change together or not at all |
| Outcomes.BadNewPinExactly | internal/adapters/grpc/server.go:138-148 | a new PIN is refused as malformed if and only if it has fewer than four or more than six characters or one that is no digit |
| Outcomes.StoringOutcome | internal/adapters/grpc/server.go:321-331 | from the hashing on, either everything happens or nothing does |
| Outcomes.NewPinDecides | internal/adapters/storage/bbolt.go:334-361 | round trip: after a successful SetPIN, an Unlock that buys a session and can read the hash opens if and only if its PIN matches the hash just stored, and its session is then the only one |
| UnlockPrompts.UnlockPrompt.Validate | internal/app/auth.go:71-110 | unlocked if and only if a session came; fatal if and only if any other error came, the third wrong PIN or a refused re-authentication; the counter and the ticket are renewed by a successful one and by nothing else |
| UnlockPrompts.PromptAnswers | internal/app/auth.go:80-107 | composed with the server: a lost connection and "no PIN configured" end the prompt whatever the counter, a session unlocks it, a wrong PIN ends it from the third attempt on |
| UnlockPrompts.RenewalAnswers | internal/app/auth.go:94-102 | a refused or lost re-authentication ends the prompt, a successful one gives it the new ticket and a fresh counter |
| UnlockPrompts.NeverClosedOnRetry | internal/app/auth.go:71-110 | in no run does the prompt close on a verdict to retry, and once closed it stays as it is |
| UnlockPrompts.AttemptsAtDenial | internal/app/auth.go:80-103 | at every PermissionDenied the counter is one plus the rate-limited replies since the last authentication, and the prompt closes if and only if those are at least two |
| UnlockPrompts.AtMostOneDenialPerAuthentication | internal/adapters/grpc/client.go:136-151 | between two PermissionDenied replies to one prompt there is a successful re-authentication, whatever else the server does |
| PromptRuns.LimitsThenDenial | internal/app/auth.go:87-105 | for every n a run with n rate-limited replies and then a wrong PIN, which closes the prompt if and only if n is at least two |
| PromptRuns.WrongPinsAloneNeverClose | internal/app/auth.go:87-102 | for every n a run in which the prompt is told of n wrong PINs and still waits for a PIN |
| UnlockPrompts.UnlockedWithAMatchingPin | internal/app/auth.go:80-85 | a prompt closes unlocked only with a session minted by its own call after the typed PIN matched a stored hash |
| UnlockPrompts.WorldIsReachable | internal/app/auth.go:71-110 | whatever the prompt does, the server is in a state it reaches by its own events, so the server's theorems hold there |
| UnlockPrompts.ServerStep | internal/adapters/grpc/server.go:342-366 | each server step keeps: a call past the redemption has spent its ticket, and a spent ticket stays spent |
| ByteStrings.PrefixBlock | internal/adapters/storage/bbolt.go:214-217 | the keys with a prefix form one block in byte order |
| ByteStrings.PrefixKeepsOrder | internal/adapters/storage/bbolt.go:381-383 | under one prefix the order of the keys is the order of the ids |
| ByteStrings.PrefixTellsKind | internal/adapters/storage/bbolt.go:214 | no other type's decimal shares a type's prefix, negative types and ids with colons included |
| ByteStrings.DecimalReadsBack | internal/adapters/storage/bbolt.go:382 | the text of a type is its usual decimal: digits without leading zero that read back as the number, after a minus sign for negative ones |
| ByteStrings.LessExactly | internal/adapters/storage/bbolt.go:215-217 | the cursor's order: the first differing byte decides, and a proper prefix comes first |
| ByteStrings.IndexKeyInjective | internal/adapters/storage/bbolt.go:381-383 | the encoding "type:id" is injective |
| Cursors.Seek | internal/adapters/storage/bbolt.go:215-217 | the least key not below the bound, or none |
| Cursors.Next | internal/adapters/storage/bbolt.go:217 | the least key beyond the current one, or none |
| Stores.BboltStore.Create | internal/adapters/storage/bbolt.go:62-99 | stamps the caller's envelope, adds entry and index key together, keeps the index invariant; a failure leaves both buckets unchanged |
| Stores.BboltStore.Update | internal/adapters/storage/bbolt.go:103-156 | keeps the stored CreatedAt, moves the index key when the type changes, keeps the index invariant; NotFound and failure leave both buckets unchanged |
| StoreRuns.ReadsBackTheLastWrite | internal/adapters/storage/bbolt.go:160-185 | reading an id gives what the last committed operation about it wrote, whatever happened since to other ids: the fields as sent under the creation instant, or nothing after a deletion; a lost operation leaves no trace |
| Stores.BboltStore.List | internal/adapters/storage/bbolt.go:189-246 | the scan of the index returns exactly the full listing's entries of the type, in the same order; the full listing is in id order |
| Stores.BboltStore.DeleteById | internal/adapters/storage/bbolt.go:250-289 | removes the entry and its index key together, keeps the index invariant; NotFound and failure leave both buckets unchanged |
| Stores.CreateKeepsIndex | internal/adapters/storage/bbolt.go:80-93 | creating keeps: each entry has its one index key and each key its one entry |
| Stores.UpdateKeepsIndex | internal/adapters/storage/bbolt.go:120-144 | updating keeps it, also when the type changes |
| Stores.DeleteKeepsIndex | internal/adapters/storage/bbolt.go:264-277 | deleting keeps it |
| Stores.StartOfBlock | internal/adapters/storage/bbolt.go:217 | Seek lands before every key of the type |
| Stores.PassOne | internal/adapters/storage/bbolt.go:217-233 | each key with the prefix belongs to one entry of the type, larger than those passed before |
| Stores.EndOfBlock | internal/adapters/storage/bbolt.go:217 | when the loop stops every key of the type has been passed |
| Stores.KindRows | internal/adapters/storage/bbolt.go:197-233 | filtering the full listing by type gives the type's entries in id order |
| StoreRuns.IndexMirrorsEntries | internal/adapters/storage/bbolt.go:80-147 | after every run of operations an index key is there, with its id as value, exactly for an entry of that type, and the buckets have equal size |
| StoreRuns.OtherIdsDoNotInterfere | internal/adapters/storage/bbolt.go:62-289 | what an id holds after a run depends only on the operations about that id |
| StoreRuns.CreatedAtIsForEver | internal/adapters/storage/bbolt.go:133-135 | after any operations whatever the callers send, CreatedAt is the creation instant and UpdatedAt does not precede it |
| FuzzySearch.Score | pkg/fuzzysearch/fuzzysearch.go:21-68 | the loop's score is 1000 for equal lowered texts, else the declared weight of the leftmost embedding, and 0 when there is none |
| FuzzySearch.ScoreByCounts | pkg/fuzzysearch/fuzzysearch.go:39-67 | a match that is not exact scores one a character, ten for each at the start or after a character that is neither letter nor digit, five for each right after the one before, and twenty for starting the target |
| FuzzySearch.OneCharacterScores | pkg/fuzzysearch/fuzzysearch.go:40-53 | one character scores 31 at the start, 1 after a letter or digit, 11 after anything else |
| FuzzySearch.ExactScores | pkg/fuzzysearch/fuzzysearch.go:25-30 | equal lowered texts score 1000 and an empty query 0 |
| FuzzySearch.LeftmostExists | pkg/fuzzysearch/fuzzysearch.go:39-62 | wherever an embedding exists one exists whose positions are no later than any other's |
| FuzzySearch.MatchesExactlySubsequences | pkg/fuzzysearch/fuzzysearch.go:25-67 | the score is positive if and only if the lowered query is a non-empty subsequence of the lowered target |
| FuzzySearch.MatchScoreBounds | pkg/fuzzysearch/fuzzysearch.go:39-67 | a match that is not exact scores between n and 16n + 15 for n lowered characters |
| FuzzySearch.ExactMatchOutranks | pkg/fuzzysearch/fuzzysearch.go:28-30 | up to 61 lowered characters an exact match beats every other target |
| FuzzySearch.BoundIsTight | pkg/fuzzysearch/fuzzysearch.go:46-57 | 16n + 15 is reached at every length |
| FuzzySearch.OutranksExactlyUpTo61 | pkg/fuzzysearch/fuzzysearch.go:28-30 | an exact match beats every other target for all queries of n lowered characters if and only if n <= 61 |
| Searching.Search | pkg/fuzzysearch/fuzzysearch.go:73-104 | top-k: distinct indices in descending score, each item matching every word with the sum of its scores, min(limit, hits) of them, none omitted better than one returned |
| Searching.HitsExactly | pkg/fuzzysearch/fuzzysearch.go:81-93 | the items found are exactly those in which every word is a non-empty subsequence, letter case apart |
| Searching.ScoresAddUp | pkg/fuzzysearch/fuzzysearch.go:83-90 | each further word adds its own score |
| Searching.SortByScore | pkg/fuzzysearch/fuzzysearch.go:96-98 | a permutation in descending order of score |
| Searching.WordOrderIrrelevant | pkg/fuzzysearch/fuzzysearch.go:83-90 | matching items and scores are the same for every order of the words |
| Bitwarden.KeySurvives | internal/adapters/cli/client/import.go:451-456 | the duplicate key survives sending, storing and listing if and only if the envelope is not a login with an empty, non-nil map |
| Bitwarden.MappedKeySurvives | internal/adapters/cli/client/bitwarden.go:64-112 | it survives for everything the importer maps |
| Bitwarden.MappedContents | internal/adapters/cli/client/bitwarden.go:64-112 | for any decoder that inverts the encoders a mapped login decodes to its first URI cut to scheme and host, its username, password and notes, under the name "name (username)"; a note to its name and notes |
| Bitwarden.MapsExactly | internal/adapters/cli/client/bitwarden.go:20-22 | an item maps if and only if its name is not blank, it is a login or a note, and the encoder takes it |
| Bitwarden.DuplicatesAmongEntries | internal/adapters/cli/client/import.go:451-456 | against any entry of any type, a note duplicates exactly the notes of its name, and a login exactly the logins of its site and username text |
| Bitwarden.KeysOfKinds | internal/adapters/cli/client/import.go:451-456 | a login and a note never share a key; two logins do exactly when "site:username" agree, two notes exactly when their names agree |
| Bitwarden.SharedLoginTexts | internal/adapters/cli/client/import.go:452-454 | two site and username pairs share the text of the key if and only if they are equal or one continues the other across a colon |
| Bitwarden.PlainUsernamesAreTold | internal/adapters/cli/client/import.go:451-456 | logins whose usernames hold no colon share a key exactly when site and username agree |
| Bitwarden.ColonsConfuseLogins | internal/adapters/cli/client/import.go:451-456 | two concrete different logins with one key |
| Imports.MakePlan | internal/adapters/cli/client/import.go:289-337 | the loop's queue, duplicates, unsupported and invalid counts by their definitions; together they make up all items |
| Imports.SeenKeys | internal/adapters/cli/client/import.go:296-298 | the keys seen are those of the listed entries |
| Imports.EveryItemIsCounted | internal/adapters/cli/client/import.go:306-337 | the classes partition the items, and every item that maps is queued or a duplicate |
| Imports.ClassExactly | internal/adapters/cli/client/import.go:306-327 | invalid if and only if the name is blank or the encoding fails, unsupported if and only if a named item is neither login nor note |
| Imports.CountsOccurrences | internal/adapters/cli/client/import.go:308-325 | the counts are the numbers of items in each class |
| Imports.QueueExactly | internal/adapters/cli/client/import.go:306-337 | the queue is exactly the images of the items that are the first of their key and not on the server, in the order of the export |
| Imports.PlanContents | internal/adapters/cli/client/import.go:306-337 | each queued envelope carries the fields of its item, as any inverse decoder reads them |
| Imports.QueuedAreNew | internal/adapters/cli/client/import.go:329-336 | queued keys are pairwise distinct and none was seen before |
| Imports.QueuedAreMapped | internal/adapters/cli/client/import.go:317-336 | each queued envelope is the image of an item |
| Imports.MappedAreCovered | internal/adapters/cli/client/import.go:317-336 | the key of every item that maps is queued or was seen before |
| ImportPools.StepKeepsInv | internal/adapters/cli/client/import.go:357-380 | every step of every worker keeps each envelope and each progress value accounted for exactly once |
| ImportPools.AtMostOnce | internal/adapters/cli/client/import.go:349-380 | at every moment of every schedule each envelope was given to AddEntry at most once, each progress value reported at most once, and imported + failed <= queued |
| ImportPools.ExactlyOnce | internal/adapters/cli/client/import.go:368-385 | when all workers have left, imported is the number of AddEntry calls that succeeded in the schedule and failed that of the others, their sum is the envelopes received, each added once, with progress values 1 to that number each reported once; without cancellation that is all queued |
| ImportPools.AllImported | internal/adapters/cli/client/import.go:368-373 | a complete run in which every call succeeds ends with all queued imported and none failed |
| ImportPools.CancelDecidesNothing | internal/adapters/cli/client/import.go:361-366 | two runs: after cancellation a worker may still take and import an envelope, or leave it |
| ImportPools.EveryScheduleEnds | internal/adapters/cli/client/import.go:355-382 | there are min(10, queued) workers, and no schedule takes more than five steps an envelope, one a worker and one to cancel |
| ImportPools.NeverStuck | internal/adapters/cli/client/import.go:360-380 | a worker that has not left can always step, so the wait for all workers ends |
| ImportRepeats.ListedKeysAreStoredKeys | internal/adapters/grpc/converter.go:10-32 | a client sees a key exactly when an entry with that key is stored |
| ImportRepeats.AllQueuedAreStored | internal/adapters/cli/client/import.go:368-373 | after a complete run without failure the key of every queued envelope is in the store |
| ImportRepeats.SecondImportAddsNothing | internal/adapters/cli/client/import.go:290-337 | importing the same export again queues nothing and counts every item that maps as a duplicate, whether or not the first run consulted the server |
| ImportRecovery.ImportedItemsAreFound | internal/domain/service/vault.go:25-43 | after a complete import without failure, a client that lists and decrypts finds every new item of the export, field by field |
| Entities.ArrivesAs | internal/adapters/grpc/converter.go:10-32 | sending keeps every field but the fraction of a second of the two instants and an empty metadata map |

## Left out

- GPG and its subprocesses: a challenge is modelled as the client learning the nonce.
- Argon2: an arbitrary relation between PINs and stored hashes stands in its place.
- The gRPC transport, generated code and metadata parsing: of the interceptor only the token check before `SetPIN` is kept.
- The user interface, clipboard, notifications, D-Bus, configuration and the session file: input and output around library code.
- `makeDeferredUnlockValidator`: the same machine as `unlockWithPIN`.
- Undecodable stored JSON: cannot arise when all writes go through the encoder.
- Encoding failures in the store: they have the outcome of a lost transaction, and are not told apart from it.
- The first error of an import, and an import whose listing of existing entries fails: it returns before anything is planned.
- Other clients that change the vault during or between two imports.
- `sort.Slice` as an algorithm: an insertion sort stands in for it, and only the permutation and the order are used.
- Machine integers: all counters are unbounded.
- Key identity in the channel: an envelope is known by its place in the queue, so the change of its payload and id in place is not observed.
- Focus ring, entry filters, domain extraction, the dotenv parser and dmenu lines: single-branch facts or nothing to invert.

# Verified model of the zero-trust proxy

The proxy authenticates users, keeps their sessions in Redis, mints a token per login, and
forwards a request only if its token names a live session and policy, MFA and risk allow it. Many
requests are in flight at once, and no handler is atomic: reading a session is a GET followed by a
SETEX, a login stores its session twice, a counter is bumped by INCR and gets its deadline from a
separate EXPIRE.

The project models this twice.

- **As state machines**, where every Redis command and every database command is one step of one
  request, and so is a clock reading whose result decides between two commands (`is_expired`, the
  TTL of a write-back), and the steps of all requests interleave
  freely with time, key expiry, abandoned requests and traffic on other keys. `RateLimit.dfy` is the
  limiter; `Gate.dfy` is login, gate, MFA verification, enrolment, logout and logout-everywhere.
  Theorems about them hold in every reachable state or over every run.
- **As classes**, with the fields and methods of the program, where a call runs undisturbed at one
  instant: `Sessions.dfy`, `Proxy.dfy`, `Policy.dfy`, `Risk.dfy`, `Device.dfy`, `Passkeys.dfy`.

The two meet in `RateExact.UndisturbedCall`, `GateSerial.dfy` and `ProxyRuns.dfy`: a request of the
machine that nobody interrupts ends exactly as the method says. Where a theorem about the machine has
a condition, `GateRuns.dfy`, `DeviceRuns.dfy` and `RateExact.dfy` give the run that fails without it,
and `GateWitnesses.dfy` starts those runs from the empty system.

What an operation answers is stated twice: by a function of the model, which the machines and the
proofs use, and by a predicate that names only fields, keys, instants and numbers
(`Policy.Calls`, `Risk.AddsUp`, `Sessions.Got`, `KeyValue.Metered`, `GateDecision.Score`,
`Proxy.LoginTold`, `Passkeys.InOrder`); lemmas ending in `InFull` connect the two for all inputs.

`dafny verify dfyconfig.toml` checks everything.

| file | contents |
|---|---|
| `Base`, `KeyValue` | results and errors, time units; Redis commands and key names |
| `RateLimit`, `RateExact` | the limiter machine, its invariant and bounds; runs that reach the bound and lose an EXPIRE |
| `Gate` | the session, token and gate machine |
| `GateInvariant`, `GateFrames` | its inductive invariant; what a step leaves alone |
| `GateDecision`, `GateOrigins` | the gate's decision by request, session and instant; the login behind a session, the policies behind a denial |
| `GateTheorems`, `GateFinality` | safety over all runs; when revocation and MFA upgrades are final |
| `GateRevocation` | logout-everywhere: what it deletes, and when all of a user's sessions are gone |
| `GateRuns`, `GateWitnesses` | runs that undo a logout, lose an MFA upgrade, or decide late; the same from the empty system |
| `Sessions`, `SessionTheorems` | the session manager; lifetimes and revocation over serial runs |
| `Proxy`, `ProxyRuns`, `GateSerial` | the handlers; uninterrupted machine requests are the handlers |
| `Policy`, `PolicyTheorems` | the policy engine; meaning-preserving rewrites |
| `Risk`, `Device`, `DeviceRuns` | risk scores; device trust and its table, undisturbed and in the gate machine |
| `Passkeys`, `PasskeyTheorems` | the two passkey stores; when they agree |

## Assumptions

- Generated ids (session ids, and token and device ids) are fresh. The clock never goes back.
- `validate_token` accepts only tokens minted by `generate_token` in a login. When it stops accepting
  one is left open: `exp` and its leeway (section 4.1.4 of RFC 7519) belong to the JWT library, so a
  token stays presentable for ever in the machine.
- Password and TOTP checks are oracles. A check that the machine records is one whose oracle said
  yes against a stored secret. Device fingerprints are opaque values.
- A session stored as JSON is read back as the same session, and an address written as text is read
  back as the same address. A key of the form `session:` plus text belongs to the session manager.
- A key can be read up to and including its deadline and may vanish from the deadline on. This
  covers both readings of Redis, which expires a key at or just after its deadline.
- Clock readings with no command between them share one step and one value: those of a gate decision
  (`evaluate_request_risk` and the device age), those of a login's score and new session, and the
  first-seen stamp of a login's device with the lookup that follows it.
- Redis keeps its keys otherwise: no flush, no eviction, no restart. A Redis or database error stops
  the request where it stands (`Drop`, `Abandon`), except a GET that fails inside logout-everywhere,
  which the program passes over.
- `users.username` and `devices.fingerprint_hash` are unique, as `docs/schema.sql` declares.

## Where the code differs from what one would expect

Each of these is stated with the exact condition and proved in both directions or with a run.

- **Logout is not final by itself.** A gate request that has read the session before the DEL writes
  it back afterwards, and the session is live again (`GateRuns.LogoutCanBeUndone` gives such a run
  from every state with a readable session). A session is gone for ever exactly when it cannot be
  read and no request in flight still owes a write of it (`GateFinality.RevocationIsFinalIff`); so
  each delete of a logout or a logout-everywhere is final exactly when nothing owes such a write as
  it runs (`GateFinality.LogoutIsFinal`, `GateFinality.RevokedIsFinal`).
- **An MFA upgrade can be lost** the same way (`GateRuns.UpgradeCanBeLost`), exactly when a request in
  flight still owes a write of an unverified copy (`GateFinality.UpgradeIsKeptIff`).
- **A lost EXPIRE is permanent.** A counter without a deadline can lapse exactly when some call still
  owes its EXPIRE; otherwise it stays for ever, and once the allowance is spent the source is locked
  out for good. That, or a limit of 0, is the only way to be (`RateLimit.CanLapseIffPending`,
  `RateExact.LockedOutIff`). One call abandoned between its two commands and enough calls after it
  get there (`RateExact.StuckIsReachable`).
- **Trust updates can be lost.** Of two logins on one fingerprint that both look it up before either
  stores, the first to store is forgotten. For each pair of outcomes `DeviceRuns.UpdateIsLost` gives
  the scores from which that does not show: two wrong passwords at most 15, two good logins at least
  90, a good login after a wrong password 0, a wrong password after a good login at most 5 or 100.
  Stored trust is the walk of the logins at every moment exactly when every upsert stores what an
  attempt on the row as it stands would leave (`DeviceRuns.TrustIsTheWalkIff`); it is enough that no
  login stores after another has stored since its lookup (`DeviceRuns.TrustIsTheWalk`).
- **The limiter admits up to (k+1)·limit − 1 calls in k windows**, one short of the usual
  (k+1)·limit, and this number is reached (`RateLimit.RateBound`, `RateExact.BoundIsReached`).
- **Another user's login resets a device row.** `upsert_device` conflicts on the fingerprint alone and
  keeps the old owner, while the lookup filters by user. An attempt by a second user on a shared
  fingerprint puts the owner's row at 50, or 35 after a wrong password, and leaves it unchanged
  exactly when it already stood there (`Device.OtherUserResetsTrust`); in the gate machine every
  upsert by another user does so, whatever it had looked up (`DeviceRuns.NonOwnerResets`).
- **Logout-everywhere may over-count.** The number reported is the number revoked exactly when SCAN
  listed no owned key twice (`SessionTheorems.CountIsExactIffNoRepeat`).
- **The passkey stores differ on the first duplicate save**: the table refuses and keeps, the map
  accepts and replaces (`PasskeyTheorems.FirstDuplicateParts`). On all other traces they agree, and
  only on those (`PasskeyTheorems.StoresAgreeIffNoDuplicate`).
- **With the example configuration the risk evaluation decides next to nothing** (thresholds 60 and
  85): until a session is 61 minutes old no gate decision scores above 55
  (`GateTheorems.RiskIsIdleForShortSessions`), and that age is exact
  (`GateTheorems.BoundsAreExact`). Sessions of 15 minutes get older than that only in a request that
  is held up after its expiry check; such a request can score 85 and be blocked
  (`GateRuns.LateUnderBuiltIn`, `GateWitnesses.SomeoneIsBlocked`).
- The comment at `src/proxy/mod.rs:275-278` says that device trust is not persisted across logins;
  `handle_login` persists it, and the model follows the code.
- The comment at `src/proxy/mod.rs:761-762` promises that every live session of the user goes. The
  loop deletes what SCAN listed and a GET returned. From any reachable state, whatever interleaved
  before, a revoke-all that is then left alone keeps the promise (`GateSerial.LogoutAllIsExact`). In
  every interleaving one that completes has deleted each session it found
  (`GateRevocation.JudgedIsDeleted`), but a write-back can revive one
  (`GateWitnesses.RevokeAllIsUndone`): all sessions a user has had are gone for good exactly when
  none can be read and no request owes a write of one (`GateRevocation.UserIsOutIff`).

## Model

| member | source | states |
|---|---|---|
| `KeyValue.SessionKeyInjective` | src/auth/session.rs:84 | Different session ids have different keys. |
| `KeyValue.KeysDisjoint` | src/proxy/mod.rs:386 | No session key is a counter key, for any id, bucket and address. |
| `KeyValue.RateKeyInjective` | src/proxy/mod.rs:386 | Counter keys of different (bucket, address) pairs differ, even for addresses containing colons, because buckets contain none. |
| `RateLimit.IncrementedSource` | src/proxy/mod.rs:388-391 | An INCR continues the current incarnation of its key, or starts one at least a full window after the last; it owes an EXPIRE exactly when the key was absent or lapsed. |
| `RateLimit.StepKeeps` | src/proxy/mod.rs:379-396 | Every command of every call, and every move of the environment, keeps the window invariant. |
| `RateLimit.Reachable` | src/proxy/mod.rs:386-391 | The window invariant in every reachable state: at most one EXPIRE is pending per source, it belongs to the current incarnation, whose key has no deadline yet; counts, anchors and admissions match the log of INCRs. |
| `RateLimit.RateBound` | src/proxy/mod.rs:376-396 | Over all runs: any interval of k windows admits at most (k+1)·limit − 1 calls of a (bucket, address), with INCR and EXPIRE interleaved and EXPIREs possibly lost. |
| `RateExact.BoundIsReached` | src/proxy/mod.rs:376-396 | For every rule and every k a run admits exactly that many, so no smaller bound holds. |
| `RateExact.UndisturbedCall` | src/proxy/mod.rs:379-396 | The commands of one call in a row leave the store and give the answer of the serial limiter. |
| `RateLimit.CounterCountsHits` | src/proxy/mod.rs:388 | The number stored under a counter is the number of INCRs since its incarnation began. |
| `RateLimit.DeadlineNeverMoves` | src/proxy/mod.rs:389-391 | A deadline once set stays where it is for as long as its incarnation lasts, over every run. |
| `RateLimit.LostExpireIsPermanent` | src/proxy/mod.rs:389-391 | A counter without a deadline and without a pending EXPIRE stays so, in the same incarnation, over every run. |
| `RateLimit.CanLapseIffPending` | src/proxy/mod.rs:388-391 | A counter without a deadline can ever be absent again iff some call still owes its EXPIRE. |
| `RateExact.LockedOutIff` | src/proxy/mod.rs:388-395 | In every reachable state: no call that has not counted yet is ever let through, in any continuation, iff the limit is 0 or the counter has no deadline, nobody owes it one, and it stands at the limit. |
| `RateExact.StuckIsReachable` | src/proxy/mod.rs:388-391 | A run from the empty store loses the EXPIRE, and spends the allowance after it, for every rule. |
| `Device.DeviceFingerprint.constructor` | src/auth/device.rs:49-52 | A new fingerprint has trust 50, is not trusted, and was first seen now. |
| `Device.DeviceFingerprint.IncreaseTrust` | src/auth/device.rs:110-115 | The new trust is the `u32` sum capped at 100; reaching 70 sets the flag. |
| `Device.DeviceFingerprint.DecreaseTrust` | src/auth/device.rs:117-122 | The new trust is the saturating difference; below 70 the flag is cleared. |
| `Device.WalkIsOneShift` | src/auth/device.rs:110-122 | Any sequence of raises and drops equals one shift clamped to one band inside 0..100. |
| `Device.WalkNeverWidens` | src/auth/device.rs:110-122 | The walk keeps the order of two starting scores, stays in range and never widens their gap. |
| `Device.FlagFollowsScore` | src/auth/device.rs:110-122 | From a consistent device the flag says, after any moves, whether the score has reached 70. |
| `Device.StoredTrustIsTheWalk` | src/proxy/mod.rs:440-513 | Login attempts made one after another: a fingerprint used by one user carries exactly the walk of that user's attempts from 50, through lookup and upsert. |
| `DeviceRuns.HistoryIffCurrent` | src/proxy/mod.rs:440-513 | In the gate machine a fingerprint's row is at every moment of a run that of the stored attempts made one after another iff every upsert stores what an attempt on the row as it stands would leave. |
| `DeviceRuns.TrustIsTheWalkIff` | src/proxy/mod.rs:440-513 | While one user uses the fingerprint, its stored trust is at every moment the walk of the stored attempts from 50 iff every upsert is current in that sense. |
| `DeviceRuns.TrustIsTheWalk` | src/proxy/mod.rs:440-513 | It is enough that no login stores after another has stored since its lookup. |
| `DeviceRuns.UpdateIsLost` | src/proxy/mod.rs:441-513 | Two logins side by side, in each of the four pairs of outcomes: the last to store wins, and the result equals that of one after the other iff the score is one of those listed. |
| `DeviceRuns.NonOwnerResets` | src/db/mod.rs:75-82 | In every reachable state an upsert under another user's fingerprint puts that user's row at 50, or 35 after a wrong password, untrusted. |
| `GateWitnesses.DropIsLost` | src/proxy/mod.rs:441-461 | A run from the empty system brings two logins of one user to a row at 35, and on to lose one of two wrong passwords. |
| `Device.OtherUserResetsTrust` | src/db/mod.rs:75-82 | An attempt by another user resets the owner's row to 50 or 35, untrusted; it changes nothing iff the row already stood there. |
| `Risk.RiskEngine.CalculateDeviceRisk` | src/risk/mod.rs:145-160 | 25 for an untrusted device, 15 below a trust of 50, and 20 or 10 for one first seen under one or seven days ago; never above 60. |
| `Risk.RiskEngine.CalculateRisk` | src/risk/mod.rs:71-143 | Total and factors from the plain values of the five inputs, capped at 100; the four levels by their bounds; Block iff the total reaches the block threshold, step-up iff it reaches only the other, Allow otherwise; the sum before the cap never exceeds 185. |
| `Risk.ScoreInFull` | src/risk/mod.rs:71-120 | The same for the function the gate machine scores with: every value of every input by instants and counts. |
| `Risk.SumOfFactors` | src/risk/mod.rs:71-120 | Leaving out the zero factors does not change the sum, which is at most 185. |
| `Risk.WorstContext` | src/risk/mod.rs:71-120 | The bound of 185 is reached. |
| `Risk.RiskIsMonotone` | src/risk/mod.rs:120-135 | A context at least as risky in every input never scores lower, is never rated lower and is never treated more mildly, for any thresholds. |
| `Policy.PolicyEngine.AddPolicy` | src/policy/mod.rs:71-73 | The policy goes last and its rules go last in evaluation order. |
| `Policy.PolicyEngine.EvaluateConditions` | src/policy/mod.rs:149-179 | True iff every condition has its attribute there and the value stands in the wanted relation: equal, different, containing, greater or less. |
| `Policy.PolicyEngine.Evaluate` | src/policy/mod.rs:75-134 | Allowed iff no deny rule lists the action with a fitting pattern and its conditions met, and such an allow rule exists or the default is permissive; decision and reason are those of one filter over all rules in order. |
| `Policy.DecisionInFull` | src/policy/mod.rs:75-147 | The same for the function the gate machine decides with: a pattern fits what it equals, or what starts with its text before a final star. |
| `PolicyTheorems.ReasonsAreJoined` | src/policy/mod.rs:91-121 | The reason of two policy lists in a row is the first reason, a semicolon and the second; a list none of whose rules speak adds nothing, and if neither speaks the default is named. |
| `PolicyTheorems.ReasonOfOne` | src/policy/mod.rs:89-98 | One speaking rule gives its effect and the name of its policy. |
| `PolicyTheorems.PoliciesSplit` | src/policy/mod.rs:81-101 | Dividing the rules of one policy between two of the same name changes neither decision nor reason. |
| `PolicyTheorems.ErasedHasRules` | src/proxy/mod.rs:201 | What erasure leaves is exactly the rules without conditions. |
| `PolicyTheorems.OnlyTheRuleSetMatters` | src/policy/mod.rs:75-134 | Two policy lists with the same set of rules allow the same requests: order, grouping, names and repetition do not matter. |
| `PolicyTheorems.ErasureKeepsDecision` | src/proxy/mod.rs:197-203 | Without attributes, as the gate always asks, removing every conditional rule keeps decision and reason. |
| `PolicyTheorems.InclusionIsDecided` | src/policy/mod.rs:136-147 | What p matches lies within what q matches iff q ends in a star and its stem is a prefix of p's stem, or both are the same literal. |
| `PolicyTheorems.CoveredRulesAreRedundant` | src/policy/mod.rs:81-117 | Removing rules each covered by one that stays never changes what is allowed, for any request. |
| `PolicyTheorems.CoverageIsExact` | src/policy/mod.rs:83-87 | Among rules without conditions, one implies another on every request iff it covers it or the other has no action. |
| `PolicyTheorems.BuildDefaultPolicyEngine` | src/proxy/mod.rs:792-810 | The built-in engine holds exactly the allow-all policy over the seven methods. |
| `PolicyTheorems.BuiltInWithDenies` | src/proxy/mod.rs:792-810 | With deny rules added, a request passes iff no deny rule applies and its method is one of the seven or the default is permissive. |
| `Passkeys.InMemoryPasskeyStore.SavePasskey` | src/auth/webauthn.rs:119-125 | Saving always succeeds and replaces what was under the key. |
| `Passkeys.InMemoryPasskeyStore.GetPasskeys` | src/auth/webauthn.rs:127-136 | Returns each record of the user exactly once, in some order. |
| `Passkeys.InMemoryPasskeyStore.UpdatePasskey` | src/auth/webauthn.rs:138-151 | Replaces a known record, refuses an unknown one and then changes nothing. |
| `Passkeys.InMemoryPasskeyStore.DeletePasskey` | src/auth/webauthn.rs:153-159 | Removes the key; removing an absent one succeeds. |
| `Passkeys.PostgresPasskeyStore.SavePasskey` | src/auth/passkey_store_pg.rs:73-88 | A duplicate key is refused and nothing changes; otherwise the row goes last. |
| `Passkeys.PostgresPasskeyStore.GetPasskeys` | src/auth/passkey_store_pg.rs:90-99 | The records of exactly the user's rows, from the oldest to the newest. |
| `Passkeys.PostgresPasskeyStore.UpdatePasskey` | src/auth/passkey_store_pg.rs:101-120 | An unknown key is refused; a known row gets the new passkey and its use stamp, keeps its creation stamp, and moves to the end of the heap. |
| `Passkeys.PostgresPasskeyStore.DeletePasskey` | src/auth/passkey_store_pg.rs:122-129 | Removes the row; removing an absent one succeeds. |
| `PasskeyTheorems.OutcomesAgree` | src/auth/passkey_store_pg.rs:73-129 | From equal contents, one operation gets the same answer from both stores iff it is not a duplicate save. |
| `PasskeyTheorems.StoresAgreeIffNoDuplicate` | src/auth/passkey_store_pg.rs:73-129 | The two stores answer a whole trace alike iff no save in it meets a stored key. |
| `PasskeyTheorems.FirstDuplicateParts` | src/auth/passkey_store_pg.rs:74-77 | On every other trace they agree and hold the same up to a duplicate save, where the table refuses and keeps, the map accepts and replaces, and they still hold the same iff the record was the same. |
| `PasskeyTheorems.FreshStoresAgree` | src/auth/webauthn.rs:84-93 | The same, from empty stores. |
| `PasskeyTheorems.TableStays` | migrations/001_passkeys.sql:23-30 | Every operation keeps keys unique and creation stamps distinct. |
| `PasskeyTheorems.UpdateStays` | src/auth/passkey_store_pg.rs:91-110 | An UPDATE moves a row in the heap but not in the listing. |
| `PasskeyTheorems.ListsInSaveOrder` | src/auth/passkey_store_pg.rs:90-99 | After any trace the rows sorted by creation are the live keys in the order they were saved. |
| `PasskeyTheorems.FetchInSaveOrder` | src/auth/passkey_store_pg.rs:90-99 | After any trace from the empty table, what a fetch answers is the user's live passkeys in the order they were saved, however they were updated since. |
| `PasskeyTheorems.UpdateKeepsAnswerOrder` | src/auth/passkey_store_pg.rs:90-110 | An update replaces its record where it stands in the answer of a fetch, and changes nothing else there. |
| `Sessions.SessionManager.CreateSession` | src/auth/session.rs:68-93 | Every field of the new session by the arguments and the instant, stored under its id for its whole lifetime; a lifetime that is not positive is refused by Redis. |
| `Sessions.SessionManager.GetSession` | src/auth/session.rs:96-116 | By the entry of its key: missing or lapsed, unreadable, expired (and then deleted), or returned with its activity stamped now and written back. |
| `Sessions.SessionManager.UpdateSession` | src/auth/session.rs:119-131 | Written under its key to lapse a whole number of seconds from now, less than one before its expiry; nothing is written with less than a second left. |
| `Sessions.SessionManager.DeleteSession` | src/auth/session.rs:134-138 | Removes exactly that session's key. |
| `Sessions.SessionManager.GetUserSessions` | src/auth/session.rs:152-167 | Exactly the sessions that a listed key yields, that are the user's and have not expired. |
| `Sessions.OwnedJoins` | src/auth/session.rs:154-165 | The listing follows the order of the keys. |
| `Sessions.SessionManager.RevokeUserSessions` | src/auth/session.rs:170-179 | Deletes exactly the keys of those sessions by id, leaves every other entry as it was, and reports how many there were. |
| `SessionTheorems.DeadlinesStayBracketed` | src/auth/session.rs:83-131 | However often sessions are used, every stored one lapses within the last second before its fixed expiry. |
| `SessionTheorems.ReadsEndWithTheLifetime` | src/auth/session.rs:104-130 | After any serial run no read succeeds past the expiry, and a touch with under a second left changes nothing. |
| `SessionTheorems.RevokeIsExact` | src/auth/session.rs:152-179 | Wherever stored ids match their keys, revoke-all removes exactly the user's live sessions, even when SCAN repeats keys. |
| `SessionTheorems.CountIsExactIffNoRepeat` | src/auth/session.rs:171-178 | The count is the number revoked iff no owned key was listed twice, and otherwise too high. |
| `SessionTheorems.StaysRevoked` | src/auth/session.rs:152-179 | A user without live sessions has none until that user's next login, over every serial run, whatever the deadlines in the store. |
| `SessionTheorems.RevokeAllHolds` | src/auth/session.rs:142-179 | Revoke-all in full: exact removal, other users' sessions and all counters untouched, and an empty listing from then on. |
| `GateInvariant.StepKeeps` | src/proxy/mod.rs:170-785 | Every command of every request keeps the invariant over store, history and in-flight copies. |
| `GateInvariant.Reachable` | src/proxy/mod.rs:170-785 | The invariant holds in every reachable state. |
| `GateInvariant.DecideKeeps` | src/proxy/mod.rs:191-272 | A decision is recorded with what it was based on, and cannot be a subject mismatch. |
| `GateTheorems.IdentityIsFixed` | src/auth/session.rs:30-131 | Every copy of a session, stored or in flight, keeps the identity, creation and expiry it was created with, in every interleaving. |
| `GateTheorems.MfaIsProven` | src/proxy/mod.rs:700-734 | A copy marked verified goes back to a TOTP check of that session's own user, in the login that created it or in a verify request for it. |
| `GateTheorems.ChecksAreCodes` | src/proxy/mod.rs:481-494 | A check goes on record only in a step that accepts a code against a stored secret of that user. |
| `GateTheorems.TokensMatchSessions` | src/auth/mod.rs:41-61 | Every minted token names the user and device of its session, whenever that is stored. |
| `GateTheorems.MismatchIsUnreachable` | src/proxy/mod.rs:191-195 | The subject-mismatch error never arises and the gate always sees the device that logged in. |
| `GateTheorems.RevokesOwnSessions` | src/proxy/mod.rs:779 | A revoke-all in flight only ever holds sessions of its own token's subject. |
| `GateTheorems.ForwardedIsSound` | src/proxy/mod.rs:152-272 | Every forwarded request of every run carried a minted token, read an unexpired session of that token's user, was allowed by the policies for its small-letter method, scored below the block threshold, and was verified if MFA is enforced or the score reaches the step-up threshold. |
| `GateTheorems.OutcomeInFull` | src/proxy/mod.rs:219-272 | Every decision of every run: refused for MFA when that is enforced, blocked iff the score then reaches the block threshold, refused for MFA iff it reaches the step-up threshold unverified, forwarded otherwise; so a score at the block threshold is never forwarded. |
| `GateTheorems.NothingForwardedWithoutMfa` | src/proxy/mod.rs:231-237 | With `require_mfa` on, whatever was forwarded had passed a TOTP check. |
| `GateTheorems.PresentWhenRead` | src/auth/session.rs:96-116 | The very copy behind every gate decision, MFA flag included, was readable in the store at an earlier instant of the same run; only its activity stamp is newer. |
| `GateOrigins.BornOfItsLogin` | src/proxy/mod.rs:552-567 | Behind every session of every run is a login request: it was created unverified for the user of that request's name, with its address, its user agent, and its device if it named one. |
| `GateOrigins.BirthsAreNow` | src/auth/session.rs:30-45 | A session goes on record in a step of its own login, created at that instant. |
| `GateOrigins.DenialsAreByPolicy` | src/proxy/mod.rs:197-218 | In every run, a request denied by policy is one that the policies do not allow for its subject, path and small-letter method. |
| `GateOrigins.CommonMethodsPass` | src/proxy/mod.rs:792-810 | Under the built-in engine no request with one of the seven methods in capitals is ever denied by policy, whatever the default. |
| `GateDecision.VerdictInFull` | src/proxy/mod.rs:197-203 | The gate asks about the token's subject, the path and the method with each capital replaced by its small letter, and nothing else. |
| `GateDecision.BuiltInAllows` | src/proxy/mod.rs:792-810 | The built-in engine allows exactly the methods that are one of the seven in small letters, or everything when the default is permissive. |
| `GateTheorems.GateScoreIs` | src/proxy/mod.rs:279-325 | The score for any request: 20, or 60 for another device, 15 from two to five at night, 20 for another address, 15 or 30 from 61 and 121 minutes on, at most 100. |
| `GateTheorems.ReachableRisk` | src/proxy/mod.rs:279-325 | Every score of every run by the login request behind the session: 20, 15 at night, 20 iff the address differs from that login's, and the age; at most 85, at most 70 until the session is 121 minutes old, at most 55 until it is 61. |
| `GateTheorems.BoundsAreExact` | src/risk/mod.rs:200-208 | The bound of 55 holds for every hour and address iff the age is under 61 minutes, that of 70 iff it is under 121, that of 85 always. |
| `GateTheorems.RiskIsIdleForShortSessions` | src/proxy/mod.rs:219-272 | With thresholds above 55, every decision made before the session is 61 minutes old depends on `require_mfa` and the MFA flag alone. |
| `GateTheorems.StoredTrustInRange` | src/db/mod.rs:64-96 | Through all interleavings of lookups and upserts the stored score stays in 0..100 and the flag says whether it has reached 70. |
| `GateFinality.CleanForEverIff` | src/auth/session.rs:96-138 | Unwanted copies stay away in every continuation iff none is readable and none is owed a write. |
| `GateFinality.RevocationIsFinalIff` | src/auth/session.rs:96-138 | A session is gone in every continuation iff it cannot be read now and no request in flight still owes a write of it. |
| `GateFinality.UpgradeIsKeptIff` | src/proxy/mod.rs:732-734 | No unverified copy is ever readable again iff none is now and no request in flight still owes a write of one. |
| `GateFinality.GateStaysShut` | src/proxy/mod.rs:189-272 | Once a session is gone for good and no gate request has read it, the gate never decides for it again. |
| `GateFinality.LogoutIsFinal` | src/proxy/mod.rs:752-756 | The DEL of a logout is final in every continuation iff no request owes a write of the session as it runs; if no gate request has read it either, no later decision is made for it. |
| `GateFinality.RevokedIsFinal` | src/auth/session.rs:170-179 | The same for each DEL of a revoke-all, one listed session at a time, in every interleaving. |
| `GateRevocation.UserIsOutIff` | src/proxy/mod.rs:761-779 | In every reachable state: all sessions a user has had are gone in every continuation iff none can be read now and no request in flight owes a write of one. |
| `GateRevocation.ListedIsFetched` | src/auth/session.rs:152-157 | A revoke-all that completes has sent a GET for every key its SCAN listed, in every interleaving. |
| `GateRevocation.FetchedIsJudged` | src/auth/session.rs:155-160 | A GET of a revoke-all that finds a session of the subject puts it up for judgement. |
| `GateRevocation.JudgedIsDeleted` | src/auth/session.rs:157-176 | A revoke-all that completes has sent the DEL of every session that a GET found to be its subject's and that had not expired, in every interleaving. |
| `GateRuns.LogoutCanBeUndone` | src/auth/session.rs:102-110 | From every state with a readable session there is a run in which its logout completes and a write-back then revives it. |
| `GateRuns.UpgradeCanBeLost` | src/proxy/mod.rs:732-734 | From every state with a readable unverified session whose user has a secret there is a run in which its verification succeeds and a write-back then undoes it. |
| `GateRuns.LateDecision` | src/proxy/mod.rs:305-307 | From every state with a readable session, for every request on it from another address that the policies allow, there is a run in which the gate reads it in time and decides with a score of 85. |
| `GateRuns.LateUnderBuiltIn` | src/proxy/mod.rs:305-307 | Under the built-in engine that is every request with one of the seven methods. |
| `GateRuns.RevokeAllCanBeUndone` | src/auth/session.rs:102-110 | From every state with a readable session there is a run in which a logout-everywhere lists it, deletes it and completes, and a write-back then revives it. |
| `GateWitnesses.SomeoneIsIn` | src/proxy/mod.rs:398-598 | A run from the empty system logs a new user in: a minted token of an existing user, with its readable, unverified session. |
| `GateWitnesses.SomeoneIsEnrolled` | src/proxy/mod.rs:646-680 | And goes on to enrol that user: the same with a stored secret. |
| `GateWitnesses.UpgradeIsLost` | src/proxy/mod.rs:732-734 | A run from the empty system whose session reads as verified after its verification, and as unverified two steps later. |
| `GateWitnesses.LogoutIsUndone` | src/auth/session.rs:102-110 | A run from the empty system whose session is gone when its logout has completed, and back two steps later. |
| `GateWitnesses.RevokeAllIsUndone` | src/auth/session.rs:102-110 | The same when a logout-everywhere has completed. |
| `GateWitnesses.SomeoneIsBlocked` | src/proxy/mod.rs:239-255 | Under the built-in engine and a block threshold over 60 and up to 85, a run from the empty system blocks a request with a score of 85. |
| `GateSerial.StoreRuns` | src/auth/session.rs:119-131 | Undisturbed, the two steps of a write-back are `update_session`. |
| `GateSerial.ReadRuns` | src/auth/session.rs:96-116 | Undisturbed, the steps of a read are `get_session`, with its result. |
| `GateSerial.VerifyRuns` | src/proxy/mod.rs:728-736 | Undisturbed past its code, an MFA verification reads, marks and writes back, or answers with the read's error. |
| `GateSerial.LoginRuns` | src/proxy/mod.rs:561-571 | Undisturbed, the two writes of a login are those of the serial one. |
| `GateSerial.LogoutAllRuns` | src/auth/session.rs:152-179 | Undisturbed after its SCAN, a revoke-all deletes and counts as the serial one. |
| `GateSerial.LogoutAllIsExact` | src/auth/session.rs:152-179 | From any reachable state, whatever interleaved before, an undisturbed revoke-all removes exactly its subject's live sessions, and counts them exactly iff SCAN repeated none. |
| `Proxy.ProxyServer.constructor` | src/proxy/mod.rs:47-70 | The engines and the session manager carry the configuration. |
| `Proxy.Database.FindUserByUsername` | src/db/mod.rs:17-27 | The one row of that name, or none iff there is none. |
| `Proxy.Database.FindDeviceByFingerprint` | src/db/mod.rs:47-61 | The row of that fingerprint, if it belongs to that user. |
| `Proxy.Database.UpsertDevice` | src/db/mod.rs:64-96 | A new row belongs to the user; a conflict replaces trust and keeps the owner. |
| `Proxy.Database.SetUserMfaSecret` | src/db/mod.rs:98-106 | Enrols exactly that user, if there is one. |
| `Proxy.ProxyServer.CheckRateLimit` | src/proxy/mod.rs:379-396 | By the entry of its counter: an absent or lapsed one starts at 1 with a deadline, a running one keeps its deadline, and a count above the limit is refused. |
| `Proxy.ProxyServer.EvaluateRequestRisk` | src/proxy/mod.rs:279-325 | The score the gate machine uses, in plain values, with Block and step-up exactly at their thresholds. |
| `Proxy.ProxyServer.Authorize` | src/proxy/mod.rs:170-273 | The serial gate: the read's error, the subject, then a denial by policy iff the policies do not allow subject, path and small-letter method, then MFA, block and step-up by the score; under the built-in engine never a denial of one of the seven methods. |
| `Proxy.ProxyServer.HandleMfaVerify` | src/proxy/mod.rs:684-737 | Limiter, user, secret, code and session in that order; on success the session that was read is written back marked. |
| `Proxy.ProxyServer.HandleMfaEnroll` | src/proxy/mod.rs:646-680 | An unknown subject is refused; a known one gets the new secret and is enrolled. |
| `Proxy.ProxyServer.HandleLogout` | src/proxy/mod.rs:740-759 | Removes exactly the session of the token. |
| `Proxy.ProxyServer.HandleLogoutAll` | src/proxy/mod.rs:763-785 | Removes exactly the session keys that yield an unexpired session of the subject; the reported number is exact iff SCAN repeated none of them. |
| `Proxy.ProxyServer.HandleLogin` | src/proxy/mod.rs:398-599 | Limiter, user, activity, factors, device trust by the stored row, risk by that trust and the hour, session and token, every field of each by the request and the instant, each error leaving behind exactly what it should. |
| `Proxy.LoginInFull` | src/proxy/mod.rs:440-589 | The same for the function that the machine's logins refine. |
| `Proxy.LoginsWalk` | src/proxy/mod.rs:440-513 | Serial logins over time, whatever happens to the store in between: a fingerprint that one user uses carries the walk from 50 of those not turned away at the second factor. |
| `ProxyRuns.AuthorizeRuns` | src/proxy/mod.rs:170-273 | Undisturbed, a gate request of the machine ends as the serial gate says. |
| `ProxyRuns.WholeVerifyRuns` | src/proxy/mod.rs:711-736 | Undisturbed, an MFA verification of the machine stores and answers as the serial one past its limiter, in every error case. |
| `ProxyRuns.NameRuns` | src/proxy/mod.rs:420-423 | The lookup by name in the machine: the row of that name goes on if it is active, anything else is refused. |
| `ProxyRuns.WholeLoginRuns` | src/proxy/mod.rs:440-589 | Undisturbed from the user's row on, a login of the machine leaves tables and store, and answers, as the serial one. |

## Left out

- HTTP and TLS: request parsing, body collection, header copying, `forward_upstream`, metrics and response building. A forwarded request is an event.
- Audit logging: its errors are dropped and it decides nothing.
- Argon2, SHA-256, TOTP, JWT signing and the WebAuthn ceremonies: foreign code, taken as oracles or opaque values.
- The expiry of tokens, and deactivation of users after login (`is_active` is read at login only).
- The passkey HTTP routes and `mint_passkey_jwt`: not wired into the proxy, so no token comes from them.
- The sign-counter rule of `refresh_passkey`: library code decides it (section 7.2 of W3C WebAuthn Level 2).
- `PasskeyStoreHandle`, `connect` and the choice of backend: plain delegation.
- `handle_register` beyond its row: password length and hashing; its limiter is one more bucket.
- Configuration loading, the error-to-status table, user-agent parsing, the QR code and `required_permissions` (always empty): nothing to prove.
- Geographic risk: always absent in the program. The message texts of risk factors are not modelled.
- Policy ids and descriptions: never read. Float parsing: `GreaterThan` and `LessThan` are one uninterpreted relation on texts, so nothing is said about non-numbers.
- Error texts: two authentication failures differ only in their message, which is dropped, as is the threshold next to a score.
- INCR overflow of the 64-bit counter, and overflow of `u32` in risk sums (excluded by the bound of 185).
- The serial classes do not capture a Redis or database failure; in the machines it stops the request.
- `RateLimit.RateBound`: admissions are counted by the instant of their INCR, not of their answer.
- `PasskeyTheorems.FetchInSaveOrder`: takes creation stamps as distinct; equal stamps would be listed in no fixed order.
- `SessionTheorems.RevokeAllHolds`: for runs in which the SCAN sees every live session and nothing runs meanwhile; under interleaving `GateTheorems.RevokesOwnSessions` and `GateFinality.RevokedIsFinal` say what remains.

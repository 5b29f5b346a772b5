# Firefox Accounts session lifecycle and Sync's identity-provider switch

This project models two pieces of Firefox's Sync and Accounts client code and
proves properties of them in Dafny.

**The Firefox Accounts credential and assertion lifecycle** follows the xpcshell
test `services/fxaccounts/tests/xpcshell/test_accounts.js`. The account
object (`FxAccountsModel.FxAccounts`) holds the following state:

- the signed-in user's record, cached in memory on top of a one-slot storage
  (`Storage`, the test's storage mock);
- a key pair and a certificate, each with its own `validUntil`;
- the collaborators that `_MockFXA` injects: the settable clock `nowIs`, the
  value the fetchKeys deferred resolves to, the `checkCount` flag of the
  checkEmailStatus mock and the `signCalls` log of getCertificateSigned.

The operations are `SetSignedInUser`, `GetSignedInUser`, `EvictCache`,
`SignOut`, `GetKeys`, `WhenVerified` and `GetAssertion`. Each test becomes a
client method in `AccountTests`, and that method's postconditions are the
checks the test makes.

The implementation file `FxAccounts.jsm` is not part of this model. Its
behaviour is modelled as the tests pin it, with these rules where the tests
leave a choice:

- The key pair is reused while the clock is before its `validUntil`.
- A new key pair is valid for 12 h. It drops the certificate.
- The certificate is reused while it certifies the current key pair and the
  clock is before its `validUntil`.
- Otherwise exactly one signing call is made, and the new certificate is valid
  for 6 h.
- The assertion is kept as its parts:
  `cert ~ header(alg = "DS128") . payload(aud) . signature`.
- `getAssertion` for a signed-in user who is not verified gives null
  (`Success(None)`), the same as with nobody signed in. No test covers this
  case; the model returns null rather than a `NotVerified` error.
- Signing out also clears the key pair and the certificate. The test only
  checks that nobody is signed in afterwards.
- `getKeys` fails with `NotSignedIn` when nobody is signed in, and with
  `MissingToken` when the record has no key-fetch token.
- `getKeys` returns the record unchanged when its kA and kB are both already
  set. It never waits for the email to be verified.
- `whenVerified` returns an already verified record at once, without polling.
- `getAccountsURI` accepts exactly the URLs that start with `https:`, compared
  case-sensitively, so `HTTPS://…` is refused too. The test pins only that one
  `http:` URL is refused.
- `getAssertion` looks only at `isVerified`: a verified user without kA or kB
  still gets an assertion, after a signing call.

**Sync's XPCOM service** (`services/sync/Weave.js`) is modelled in module
`Weave`, over a preference store that has default values and user values:

- **The `fxAccountsEnabled` getter.** An explicit boolean
  `identity.fxaccounts.enabled` is trusted. Otherwise the getter sniffs
  `services.sync.username`: a missing username means true, and a present one
  means "is empty". It then writes the answer back.
- **The startup-timer gate.**
- **The early returns of the `fxaccounts:onlogin` and `fxaccounts:onlogout`
  handlers.**

Modelling decisions:

- The tests drive promises. In the model every call is sequential.
- A deferred that the test resolves is a field set before the call.
- A deferred that never resolves is reported as `RemoteCallError`.
- Real key generation is replaced by a counter: key pair ids count from 0,
  in the order the key pairs are generated.
- `getAssertion` with nobody signed in resolves to null in the test
  (test_accounts.js:177-178). The model gives `Success(None)` there, not a
  `NotSignedIn` error.
- The test's hex strings and byte strings are related by a small hex codec of
  the model's own (`HexUtil`). Encoding writes lower case. Decoding accepts
  both cases and refuses odd lengths and non-hex characters.

## Model

| member | source | states |
|---|---|---|
| HexUtil.Repeat | services/fxaccounts/tests/xpcshell/test_accounts.js:74-79 | `s` repeated `n` times has length `|s| * n` |
| HexUtil.RepeatAt | services/fxaccounts/tests/xpcshell/test_accounts.js:74-79 | character `j` of the `k`-th copy in a repetition is character `j` of the repeated string |
| HexUtil.RepeatAdd | services/fxaccounts/tests/xpcshell/test_accounts.js:76-78 | `a` copies followed by `b` copies are `a + b` copies; this is how the nested concatenations of expandHex add up |
| HexUtil.ExpandHex | services/fxaccounts/tests/xpcshell/test_accounts.js:74-79 | the result is 32 times as long as the input, so 64 characters for two hex digits |
| HexUtil.ExpandHexRepeats | services/fxaccounts/tests/xpcshell/test_accounts.js:74-79 | expandHex(h) is exactly `h` written out 32 times |
| HexUtil.ExpandHexAt | services/fxaccounts/tests/xpcshell/test_accounts.js:74-79 | for each of the 32 copies in expandHex(h), character j of that copy is character j of h |
| HexUtil.ByteToHex | services/fxaccounts/tests/xpcshell/test_accounts.js:169-170 | a byte's two hex digits decode back to its high and low nibble |
| HexUtil.BytesToHex | services/fxaccounts/tests/xpcshell/test_accounts.js:169-170 | the hex form of a byte string has two characters per byte |
| HexUtil.HexToBytes | services/fxaccounts/tests/xpcshell/test_accounts.js:81-83 | a decoded hex string yields one byte per two characters |
| HexUtil.HexRoundTrip | services/fxaccounts/tests/xpcshell/test_accounts.js:81-83 | decoding the hex form of any byte string gives back that byte string |
| HexUtil.BytesToHexRepeat | services/fxaccounts/tests/xpcshell/test_accounts.js:169-170 | the hex form of `n` equal bytes is the byte's two digits repeated `n` times |
| HexUtil.ExpandHexEncodes | services/fxaccounts/tests/xpcshell/test_accounts.js:169-170 | expandHex of a byte's digits is the hex form of 32 copies of that byte |
| HexUtil.ExpandBytes | services/fxaccounts/tests/xpcshell/test_accounts.js:81-83 | expandBytes decodes to 16 bytes per input character |
| HexUtil.ExpandBytesDecodes | services/fxaccounts/tests/xpcshell/test_accounts.js:81-83 | expandBytes of a byte's digits is 32 copies of that byte |
| HexUtil.Xor | services/fxaccounts/tests/xpcshell/test_accounts.js:158-170 | xor of equal-length byte strings keeps the length |
| HexUtil.XorSelfInverse | services/fxaccounts/tests/xpcshell/test_accounts.js:158-170 | xoring twice with the same operand gives back the other operand |
| HexUtil.XorRepeat | services/fxaccounts/tests/xpcshell/test_accounts.js:158-170 | xor of two runs of equal bytes is the run of the bytes' xor (0x22 xor 0x44 gives 0x66 throughout) |
| FxAccountsModel.IsUserEmailVerified | services/fxaccounts/tests/xpcshell/test_accounts.js:146 | a null record is never verified; a present record is verified exactly when its isVerified is set |
| FxAccountsModel.BuildAssertion | services/fxaccounts/tests/xpcshell/test_accounts.js:204-214 | the assertion's first piece is the certificate, its header's alg is DS128, its payload's aud is the requested audience, and it is signed by the current key pair |
| FxAccountsModel.DeriveKeys | services/fxaccounts/tests/xpcshell/test_accounts.js:158-171 | kA is the fetched kA in hex; kB decodes to wrapKB xor the decoded unwrapBKey; keyFetchToken is removed and nothing else changes; fails exactly when unwrapBKey is missing, is not hex, or has a different length from wrapKB |
| FxAccountsModel.KeysOutcome | services/fxaccounts/tests/xpcshell/test_accounts.js:150-172 | getKeys gives NotSignedIn without a user; gives the record unchanged when kA and kB are already there; gives MissingToken without a key-fetch token; otherwise fails when fetchKeys does not answer, or derives the keys |
| FxAccountsModel.GetKeysDerivation | services/fxaccounts/tests/xpcshell/test_accounts.js:164-171 | after derivation, the stored kB xor wrapKB is unwrapBKey again; isVerified, email and session token are kept and keyFetchToken is gone |
| FxAccountsModel.Storage.constructor | services/fxaccounts/tests/xpcshell/test_accounts.js:85-87 | a new storage slot is empty (null) |
| FxAccountsModel.Storage.Set | services/fxaccounts/tests/xpcshell/test_accounts.js:89-92 | set overwrites the slot with its argument |
| FxAccountsModel.Storage.Get | services/fxaccounts/tests/xpcshell/test_accounts.js:93-95 | get returns exactly what the slot holds |
| FxAccountsModel.FxAccounts.constructor | services/fxaccounts/tests/xpcshell/test_accounts.js:98-127 | a new instance has empty storage, no cache, no key pair, no certificate, an empty signing log, the check flag unset and the given clock value |
| FxAccountsModel.FxAccounts.CheckEmailStatus | services/fxaccounts/tests/xpcshell/test_accounts.js:113-120 | answers verified exactly when it has been called before, and leaves the flag set |
| FxAccountsModel.FxAccounts.GetCertificateSigned | services/fxaccounts/tests/xpcshell/test_accounts.js:121-125 | appends (sessionToken, public key) to the call log and answers with the resolved certificate |
| FxAccountsModel.FxAccounts.SetSignedInUser | services/fxaccounts/tests/xpcshell/test_accounts.js:50 | both the cache and storage now hold the record |
| FxAccountsModel.FxAccounts.GetSignedInUser | services/fxaccounts/tests/xpcshell/test_accounts.js:47-63 | returns what storage holds, from the cache or by reloading it, and leaves the cache holding it; null when nobody is signed in |
| FxAccountsModel.FxAccounts.EvictCache | services/fxaccounts/tests/xpcshell/test_accounts.js:59 | the memory cache is empty and storage is untouched |
| FxAccountsModel.FxAccounts.SignOut | services/fxaccounts/tests/xpcshell/test_accounts.js:66-70 | cache, storage, key pair and certificate are all cleared |
| FxAccountsModel.FxAccounts.GetKeys | services/fxaccounts/tests/xpcshell/test_accounts.js:163-171 | the result is KeysOutcome of the stored record and the fetchKeys answer; a success is written to storage and the cache; a failure writes nothing |
| FxAccountsModel.FxAccounts.WhenVerified | services/fxaccounts/tests/xpcshell/test_accounts.js:140-147 | a verified record is returned at once without polling; otherwise polling continues until checkEmailStatus says verified, then the stored record is marked verified, saved and returned, and it satisfies isUserEmailVerified |
| FxAccountsModel.FxAccounts.GetAssertion | services/fxaccounts/tests/xpcshell/test_accounts.js:177-252 | null and no signing call without a verified user; reuse of the key pair while now < validUntil, else a new one valid until now + 12 h; reuse of the certificate while it certifies that key pair and now < validUntil, else exactly one signing call with the record's session token and a certificate valid until now + 6 h; the assertion built from that certificate |
| FxAccountsModel.GetAccountsURI | services/fxaccounts/tests/xpcshell/test_accounts.js:19-25 | a remote URL is accepted exactly when it starts with `https:` (a case-sensitive prefix test), and is otherwise refused with "Firefox Accounts server must use HTTPS" |
| FxAccountsModel.HttpUrlRefused | services/fxaccounts/tests/xpcshell/test_accounts.js:19-25 | every URL starting with `http:` is refused with "Firefox Accounts server must use HTTPS" |
| AccountTests.NonHttpsRemoteServerUri | services/fxaccounts/tests/xpcshell/test_accounts.js:19-25 | the test's http: URL is refused with the HTTPS message |
| AccountTests.StorageReadsLastWrite | services/fxaccounts/tests/xpcshell/test_accounts.js:85-96 | the storage mock gives null before any set, then exactly the last value set |
| AccountTests.ExpandHexOfTwoDigits | services/fxaccounts/tests/xpcshell/test_accounts.js:74-79 | expandHex("44") has 64 characters and encodes 32 bytes 0x44 |
| AccountTests.GetSignedInUserInitiallyUnset | services/fxaccounts/tests/xpcshell/test_accounts.js:32-71 | null before any set; after a set, the record with the same email, assertion and kB, both from the cache and after the cache is evicted; null after sign-out |
| AccountTests.VerificationPoll | services/fxaccounts/tests/xpcshell/test_accounts.js:133-148 | a record set without isVerified reads back unverified; whenVerified yields the same record with isVerified true, and isUserEmailVerified holds for it |
| AccountTests.GetKeysTest | services/fxaccounts/tests/xpcshell/test_accounts.js:150-172 | for any bytes: kA is expandHex of the fetched kA byte, kB is expandHex of wrapKB xor unwrapBKey, keyFetchToken is removed and isVerified stays true |
| AccountTests.GetKeysTestVector | services/fxaccounts/tests/xpcshell/test_accounts.js:158-171 | with the test's bytes, kA is expandHex("11") and kB is expandHex("66") |
| AccountTests.GetAssertionTest | services/fxaccounts/tests/xpcshell/test_accounts.js:174-258 | null and no call without a user. The first assertion has "cert1", DS128 and the audience, after one signing call that carries the session token, with lifetimes now + 12 h and now + 6 h. A second audience at the same clock makes no call and generates no key pair, so it is signed by the same key pair. At now + 24 h there is a new key pair and exactly one more call, "cert2", and both lifetimes are measured from the new clock |
| Weave.Prefs.Lookup | services/sync/Weave.js:74-81 | a preference's effective value is its user value if it has one, else its default |
| Weave.Prefs.GetBoolPref | services/sync/Weave.js:73-75 | getBoolPref has a value exactly when the preference exists and is a boolean (it throws otherwise), and that value is the preference's own boolean |
| Weave.Prefs.GetCharPref | services/sync/Weave.js:80-82 | getCharPref has a value exactly when the preference exists and is a string (it throws otherwise), and that value is the preference's own string |
| Weave.Prefs.PrefHasUserValue | services/sync/Weave.js:113 | a preference with a user value is read as that value; one without is read as its default, or is missing |
| Weave.Prefs.SetBoolPref | services/sync/Weave.js:87 | setBoolPref gives the preference a boolean user value; every other preference keeps its effective value and whether it has a user value |
| Weave.SniffFxAccountsEnabled | services/sync/Weave.js:80-85 | the first-run guess is false exactly when a non-empty username is present |
| Weave.ReadFxAccountsEnabled | services/sync/Weave.js:69-94 | an explicit boolean preference is returned and nothing is written; otherwise the answer is true exactly when the username is missing or empty, and that answer is written back to the preference |
| Weave.ReadFxAccountsEnabledIsStable | services/sync/Weave.js:87-93 | after one read, a second read returns the same value and writes nothing |
| Weave.ReadFxAccountsEnabledKeepsOtherPrefs | services/sync/Weave.js:87 | the write-back leaves every other preference, the username included, with its effective value and its user-value status as they were |
| Weave.StartupLoads | services/sync/Weave.js:113-125 | the timer loads Sync only when the username has a user value, and never when setup reports CLIENT_NOT_CONFIGURED |
| Weave.WeaveService.constructor | services/sync/Weave.js:51-54 | a fresh service is not ready, has loaded nothing and sees the given preferences |
| Weave.WeaveService.EnsureLoaded | services/sync/Weave.js:61-67 | Sync's main module is imported and the identity manager is initialized once more |
| Weave.WeaveService.FxAccountsEnabled | services/sync/Weave.js:69-94 | the getter's answer and the new preferences are those of ReadFxAccountsEnabled |
| Weave.WeaveService.NotifyStartupTimer | services/sync/Weave.js:110-126 | without a username user value nothing is loaded; with one, Sync's main module is imported, and ensureLoaded runs exactly when checkSetup is not CLIENT_NOT_CONFIGURED |
| Weave.WeaveService.OnLogin | services/sync/Weave.js:130-151 | the handler returns at once when accounts are disabled; either way its only effect is the getter's write-back |
| Weave.WeaveService.OnLogout | services/sync/Weave.js:152-165 | the handler returns at once when accounts are disabled; otherwise it imports Sync's main module; the getter's write-back happens either way |
| Weave.ReadEnabledTwice | services/sync/Weave.js:69-94 | two reads of the getter agree, the second writes nothing, and an explicit preference is left untouched |

## Left out

- FxAccounts.jsm is not part of this model. The account operations are modelled from what the tests pin, with the rules listed at the top where the tests leave a choice.
- Cryptography and encoding are left out. That covers DSA "DS128" key generation and signing, base64 (`atob`), JSON encoding of header and payload, and serialising the public key. These are foreign library calls; keys, certificates and signatures are abstract values.
- `CommonUtils.hexToBytes`, and the implementation's hex encoding of kA and kB (FxAccounts.jsm, not shown), are not part of this model. The model's own hex codec stands in for them.
- The payload's `exp` time-box (test_accounts.js:219-224, 253-255) is left out. It is measured with the real wall clock, not the mocked one.
- Promises, deferreds and tasks are left out: calls are sequential. The test resolves the signing deferred after starting getAssertion (test_accounts.js:194-197, 237-238); the model resolves it before the call. The fetchKeys deferred is resolved before the call in the test too (158-164). An unresolved one stands for a remote call that fails.
- Sharing one in-flight signing request among concurrent callers is left out. So is discarding a signing response that arrives after sign-out. The test does not exercise either.
- Implementation margins FxAccounts.jsm may apply are left out. Reuse is decided by `now < validUntil` alone; any margin for the assertion's lifetime is not shown.
- A certificate that has expired while its key pair is still valid: no test pins this case. GetAssertion's contract makes a choice for it: the key pair is kept, one signing call is made, and the new certificate is valid until now + 6 h, so it may outlive its key pair.
- The real implementation may start a verification check from `setSignedInUser` or `getSignedInUser`, and may send observer notifications on login, logout and verification. Neither is shown.
- `internal.getUserAccountData()` (test_accounts.js:141) is modelled by `GetSignedInUser`; in the model both are the same read.
- Storage failures are left out, because the mock storage never fails.
- test_get_signed_in_user_initially_unset runs on an un-mocked instance whose storage is on disk (test_accounts.js:33-35, 57-58). GetSignedInUserInitiallyUnset runs it on the one-slot storage mock, so disk storage is not modelled.
- Aliasing of records is left out. In JavaScript the storage mock keeps the very record object it is given (`this.data = contents`, test_accounts.js:90), so the caller and the mock share it; the model stores and returns values, so a change made through one reference is not seen through the others.
- `getAccountsURI` takes the configured URL directly. The preference lookup, and the default used once the preference is cleared (line 27), are not shown.
- WhenVerified polls without a time budget or interval. It ends because the mock answers "verified" from its second call on; any poll budget of the implementation is not shown.
- A record that whenVerified finds signed out when polling ends gives null. This is the model's own choice; the test only calls whenVerified on a record it has checked is present (test_accounts.js:143-145).
- getKeys fails with BadKeyMaterial when unwrapBKey is missing, is not hex, or has a different length from wrapKB. This is a modelling choice: the source does not say what happens.
- XPCOM plumbing in Weave.js is left out. That covers `classID`, `QueryInterface`, `NSGetFactory`, observer registration on `app-startup`, creating the timer on `final-ui-startup` and its 10 s delay, `dump` logging, and `AboutWeaveLog`, whose profile-directory channel is file I/O.
- `Weave.Status.checkSetup()` is not shown; its result is a parameter of the timer callback.
- Preference-service corner cases are left out: setBoolPref on a preference of another type, and a user value that equals the default.
- js2/src/world.h is left out. It declares an atom table whose hash table and lookup are not defined in it.
- browser/base/content/sync/aboutSyncSetup.js is left out. It is window and link-opening UI glue.

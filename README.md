# Licensing store: a Dafny model

This project models the in-memory licensing store in `api/_lib/store.js`. That is the path the
store takes when no Supabase client is configured. One process-wide object, `global.__licenseStore`,
holds three tables:

- `users`: normalised email → `{ email, createdAt }`
- `trials`: normalised email → `{ startedAt, expiresAt }`
- `licenses`: license key → `{ email, status, createdAt, expiresAt }`

Three operations work on these tables:

- **start trial** creates a 14-day trial once per normalised address. Every later call reports
  that trial's status and writes nothing.
- **activate license** writes an `active` license with no expiry. The key is the caller's key,
  or a generated one when the caller gives none.
- **verify license** only reads. An active, matching, unexpired license wins. Otherwise the
  trial decides `trial` or `expired`. With no trial, the answer is `inactive`.

Each public entry point first rejects an address that normalises to the empty string.

How the model is laid out:

- `wrappers.dfy`: `Option`. It stands for an argument that may be missing and for an expiry that
  may be `null`.
- `email.dfy` (module `Email`): `normalizeEmail`, which is `trim()` followed by `toLowerCase()`.
  `trim` is proved to be determined by its result: it removes the whitespace padding around a
  trimmed core, and nothing else. From that come idempotence, insensitivity to padding and
  insensitivity to case.
- `license_key.dfy` (module `LicenseKeys`): `generateLicenseKey`. The two random byte groups are
  parameters. The key format is proved exact: every generated key is 16 lower-case hex digits, a
  hyphen and 8 lower-case hex digits, and every string of that form is generated by exactly one
  pair of byte groups.
- `store.dfy` (module `Store`): the record datatypes, the reply shapes and the `LicenseStore`
  class. The class holds the three tables as `map` fields, and its methods update them in
  place. Two ghost predicates give the transition of one call:
  - `StartTrialStep` for `memStartTrial`;
  - `ActivateStep` for `memActivateLicense`.

  Every method ensures its step predicate and keeps the store invariant `WellFormed`.
  Verification is the function `MemVerifyLicense` over a snapshot of the tables. Being a
  function, it cannot write.
- `store_properties.dfy` (module `StoreProperties`): properties that relate several calls. Examples
  are refusal of blank addresses, trials that are never renewed, licenses that win over trials for
  their own address only, and tables that only grow.
- `plain_object.dfy` (module `PlainObject`): the finding below.

Time is the parameter `now`, an integer count of milliseconds. This includes `Date.now()` and the
ISO strings that `iso()` makes. JavaScript truthiness of an optional string (`providedKey || …`,
`if (licenseKey)`) is `Truthy`: present and non-empty. The license-expiry test `!lic.expiresAt`
treats both `null` and `0` as "no expiry", and the model does the same (`NoExpiry`).

Three facts about the code that the model keeps:

- A generated key is 24 hex digits around a hyphen: 8 random bytes, then 4 (store.js:38).
- Verification's empty-email answer is `ok: false`, status `invalid` (store.js:87-89, 187-189).
- On the memory path an existing user record is kept (store.js:59).

## Model

| member | source | states |
|---|---|---|
| `Email.TrimStartSpec` | api/_lib/store.js:30 | dropping leading whitespace leaves a suffix whose dropped prefix is all whitespace and which does not start with whitespace |
| `Email.TrimEndSpec` | api/_lib/store.js:30 | dropping trailing whitespace leaves a prefix whose dropped suffix is all whitespace and which does not end with whitespace |
| `Email.Trim` | api/_lib/store.js:30 | `trim()` leaves no whitespace at either end; the result is empty exactly when the input is all whitespace |
| `Email.TrimOfPadded` | api/_lib/store.js:30 | trimming whitespace-padded trimmed text gives back exactly that text |
| `Email.TrimSplit` | api/_lib/store.js:30 | every string is its trimmed form with whitespace on either side |
| `Email.TrimIgnoresPadding` | api/_lib/store.js:30 | extra whitespace around a string does not change what `trim()` keeps |
| `Email.ToLower` | api/_lib/store.js:30 | `toLowerCase()` keeps the length; with `ToLowerAt`, each position holds the `LowerChar` of the same input position, which maps `A`–`Z` to `a`–`z` and leaves every other character alone |
| `Email.ToLowerAt` | api/_lib/store.js:30 | `toLowerCase()` maps each character to its lower-case form in place |
| `Email.ToLowerShape` | api/_lib/store.js:30 | after `toLowerCase()` no upper-case letter is left, and whitespace stays exactly where it was |
| `Email.ToLowerKeepsLower` | api/_lib/store.js:30 | `toLowerCase()` leaves text without upper-case letters unchanged |
| `Email.TrimToLowerCommute` | api/_lib/store.js:30 | trimming and lower-casing commute |
| `Email.NormalizeEmail` | api/_lib/store.js:29-31 | the key is trimmed and has no upper-case letter; it is empty exactly when the argument is missing or all whitespace |
| `Email.NormalizedIsFixed` | api/_lib/store.js:29-31 | a trimmed lower-case address is its own key |
| `Email.NormalizeIdempotent` | api/_lib/store.js:29-31 | normalising twice gives the same key as normalising once |
| `Email.NormalizeIgnoresPadding` | api/_lib/store.js:29-31 | addresses that differ only in surrounding whitespace hit the same `users`/`trials` entry |
| `Email.NormalizeIgnoresCase` | api/_lib/store.js:29-31 | addresses that agree once lower-cased hit the same `users`/`trials` entry |
| `LicenseKeys.HexEncode` | api/_lib/store.js:38 | `toString('hex')` writes two lower-case hex digits per byte |
| `LicenseKeys.HexEncodeAt` | api/_lib/store.js:38 | byte `i` is written at positions `2i` and `2i+1`, high nibble first, as `toString('hex')` orders them |
| `LicenseKeys.HexDecode` | api/_lib/store.js:38 | an even-length lower-case hex string, and only such a string, reads back as bytes, two digits per byte |
| `LicenseKeys.HexRoundTrip` | api/_lib/store.js:38 | hex encoding is lossless: decoding the encoding gives the bytes back |
| `LicenseKeys.HexDecodeRoundTrip` | api/_lib/store.js:38 | every even-length lower-case hex string is the encoding of the bytes it decodes to |
| `LicenseKeys.GenerateLicenseKey` | api/_lib/store.js:37-39 | a generated key is 16 lower-case hex digits, `-`, 8 lower-case hex digits |
| `LicenseKeys.GeneratedKeyParses` | api/_lib/store.js:37-39 | a generated key determines the two random byte groups it was made from |
| `LicenseKeys.LicenseKeyFormatIsExact` | api/_lib/store.js:37-39 | every string in the key format is the key of some pair of byte groups, so the format predicate is exact |
| `Store.UpsertUser` | api/_lib/store.js:59 | `users[n] = users[n] \|\| {…}` adds a record for `n` only when absent and keeps every existing record |
| `Store.MemVerifyLicense` | api/_lib/store.js:82-107 | refused with "Email required" iff the key is empty; `active` iff a truthy key names a license with this email, status `active` and no expiry or `now` before it; otherwise `trial`/`expired` iff a trial exists, `trial` iff `now < expiresAt`, with the stored expiry; otherwise `inactive` with "No trial or license" |
| `Store.VerifyLicense` | api/_lib/store.js:183-193 | the entry point's own empty-email guard answers exactly as the memory path does |
| `Store.StartTrialStep` | api/_lib/store.js:41-62 | one `memStartTrial` call: a blank key leaves the tables unchanged and replies "Email required"; an existing trial leaves the tables unchanged and replies its stored expiry with `trial`/"Trial already active" when `now < expiresAt`, else `expired`/"Trial expired"; otherwise the user is added if absent, the trial `{now, now + 14 days}` is written, licenses are untouched, and the reply is `trial`, the new expiry, "Trial started" |
| `Store.ActivateStep` | api/_lib/store.js:64-80 | one `memActivateLicense` call: a blank key leaves the tables unchanged and replies "Email required"; otherwise the key is the provided key when truthy, else the generated one; the user is added if absent, trials are untouched, the license `{n, active, now, null}` is written under the key, replacing any earlier one, and the reply is that key, `active`, null expiry |
| `Store.StartTrialKeepsWellFormed` | api/_lib/store.js:41-62 | starting a trial keeps the tables well formed: keys are normalised, every trial has a user and lasts 14 days |
| `Store.ActivateKeepsWellFormed` | api/_lib/store.js:64-80 | activating keeps the tables well formed: every license has a user, a non-empty key, status `active` and no expiry |
| `Store.LicenseStore.constructor` | api/_lib/store.js:18-27 | the store starts with three empty tables, well formed |
| `Store.LicenseStore.MemStartTrial` | api/_lib/store.js:41-62 | updates the tables and replies as `StartTrialStep` says, and keeps the invariant |
| `Store.LicenseStore.MemActivateLicense` | api/_lib/store.js:64-80 | updates the tables and replies as `ActivateStep` says, and keeps the invariant |
| `Store.LicenseStore.StartTrial` | api/_lib/store.js:109-115 | the guarded entry point has the same effect and reply as `memStartTrial` |
| `Store.LicenseStore.ActivateLicense` | api/_lib/store.js:153-159 | the guarded entry point has the same effect and reply as `memActivateLicense` |
| `StoreProperties.StartTrialRefusesBlankEmail` | api/_lib/store.js:110-111 | a missing or blank address is refused with "Email required" and no table changes |
| `StoreProperties.ActivateRefusesBlankEmail` | api/_lib/store.js:154-155 | a missing or blank address is refused with "Email required" and no table changes |
| `StoreProperties.VerifyRefusesBlankEmail` | api/_lib/store.js:186-189 | a missing or blank address gets `ok: false`, status `invalid`, reason "Email required" |
| `StoreProperties.FirstStartTrialCreatesTrial` | api/_lib/store.js:58-61 | the first call stores a trial expiring at `now + 1209600000` and replies `trial` with it and "Trial started"; it adds a user only if absent, keeps existing users and touches no license |
| `StoreProperties.StartTrialAgainChangesNothing` | api/_lib/store.js:47-56 | a repeated call for the same key writes nothing and reports the stored expiry, `trial` iff `now < expiresAt`, `expired` otherwise: a trial is never extended |
| `StoreProperties.StartedTrialVerifies` | api/_lib/store.js:98-104 | after start trial, verification without a key reports the same expiry, `trial` before it and `expired` from it on |
| `StoreProperties.ActivatedKeyIsProvidedOrGenerated` | api/_lib/store.js:70 | the reported key is the provided key when truthy, else a key in the generated format; the reply is `active` with null expiry |
| `StoreProperties.ActivateWritesOneLicense` | api/_lib/store.js:72-77 | one license is written under the key, overwriting any previous one; all other licenses and all trials are unchanged |
| `StoreProperties.ActivatedLicenseWins` | api/_lib/store.js:93-94 | after activation, verification with the same address and the key is `active` with null expiry at any later time, whatever the trial says |
| `StoreProperties.ForeignKeyFallsThrough` | api/_lib/store.js:93 | a key presented with another address gives that address's keyless answer, which the activation did not change |
| `StoreProperties.StoredLicenseIsActiveForever` | api/_lib/store.js:91-95 | in well-formed tables, a key verifies `active` iff it is stored for the caller's address; stored licenses never expire |
| `StoreProperties.NoTrialNoLicenseIsInactive` | api/_lib/store.js:106 | without a granting license and without a trial the answer is `inactive`, "No trial or license" |
| `StoreProperties.RecordsOnlyGrow` | api/_lib/store.js:59-60 | neither operation removes or rewrites a user or a trial; start trial leaves licenses alone, activation removes none |
| `PlainObject.ReadProperty` | api/_lib/store.js:20-24 | a read on a `{}` table finds an own entry, an inherited `Object.prototype` member, or nothing |
| `PlainObject.TrialLookupAsWritten` | api/_lib/store.js:47-56 | as written, the existing-trial branch is taken for an own entry or an inherited member, and only then |
| `PlainObject.ConstructorIsAcceptedEmail` | api/_lib/store.js:29-31 | `constructor` passes the empty-email guard and is its own key |
| `PlainObject.InheritedNameReadsAsExpiredTrial` | api/_lib/store.js:47-56 | as written, any address that normalises to `constructor` or `__proto__` and has no trial passes the guard and takes the existing-trial branch as `expired`, at start trial and at verification alike |
| `PlainObject.AsWrittenAgreesOnOwnKeys` | api/_lib/store.js:47-49 | on every key that is not an inherited member name, the lookup as written is the own-entry lookup the model uses |
| `PlainObject.OwnLookupStartsTrial` | api/_lib/store.js:58-61 | with own-entry lookup, the first start trial for `constructor` stores a 14-day trial, and verification then reports `trial` |

## Findings

| source | as written | input that shows it | evidently intended | confidence | as-written member | corrected member |
|---|---|---|---|---|---|---|
| api/_lib/store.js:47-56, 98-104 | the tables are plain `{}` objects, so `store.trials[normalized]` also finds members inherited from `Object.prototype`; such a member is truthy and its `expiresAt` is `undefined`, so `now < expiresAt` is false | an address that normalises to `constructor` or `__proto__` (for example ` Constructor `) with no trial: start trial answers `expired` and never creates a trial; verify answers `expired` instead of `inactive` | look up own entries only, so the first start trial creates a 14-day trial | not executed; high | `PlainObject.InheritedNameReadsAsExpiredTrial` | `PlainObject.OwnLookupStartsTrial` |

The store model (`Store.StartTrialStep`, `Store.MemVerifyLicense`) uses the own-entry lookup
(`n in trials`). `PlainObject.AsWrittenAgreesOnOwnKeys` shows that this differs from the code as
written only on inherited member names. Of those names, only `constructor` and `__proto__` can be
normalised addresses. The license lookup is not affected: an inherited member has no `email`
field, so the key falls through, as it does in the model.

## Left out

- The Supabase branch (store.js:5-14, 117-150, 161-180, 195-226) is left out. It is remote
  database I/O through a client library that is not part of this model, and it behaves
  differently from the memory path: it upserts the user before the trial check, and it treats
  query errors as "not found".
- The randomness of `crypto.randomBytes`: the two byte groups are parameters of the activation
  methods. Generated keys are not checked against stored keys, so the model claims no key
  uniqueness.
- ISO-8601 formatting by `iso()` and its `RangeError` for out-of-range times: timestamps are
  integers.
- `ToLower`: it maps only the ASCII letters A–Z. JavaScript's `toLowerCase` applies full Unicode
  case mapping, which can also change a string's length.
- Non-string arguments are left out: an address or key is a string or missing. A truthy
  non-string would make `trim()` throw.
- Numbers are unbounded integers. JavaScript numbers are doubles, which are exact for every
  millisecond timestamp up to 2^53.
- `verifyLicense` reads `Date.now()` once and `memVerifyLicense` reads it again. The model uses
  one `now` for both. The first reading is unused on the memory path.
- `async`/`await`: the memory functions never wait, so each call is one sequential step.
  Concurrent requests are not modelled.
- Writes under inherited member names are not modelled. In the code, `activateLicense` for the
  address `constructor` keeps the inherited `Object` function as the "user record", and a
  provided key `__proto__` replaces the license table's prototype. The finding above covers only
  the trial lookup.
- The HTTP handlers (api/trial/start.js, api/license/activate.js, api/license/verify.js) are left
  out. They only check the method, extract the body or query, and map results to status codes.
- script.js (browser DOM, animation, video, `fetch`, PayPal wiring), api/test/email.js (e-mail
  delivery through Resend) and api/paypal/webhook.js (a stub that returns 501) are not part of
  this model.

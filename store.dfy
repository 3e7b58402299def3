/** The in-memory licensing store of api/_lib/store.js (the path taken when no
    Supabase client is configured). One process-wide object holds three
    tables: `users` and `trials` keyed by normalised email, `licenses` keyed
    by license key. `Date.now()` is the parameter `now`; every timestamp,
    including the ISO strings `iso()` makes, is an integer count of
    milliseconds. */
module Store {
  import opened Wrappers
  import opened Email
  import opened LicenseKeys

  const TrialDays := 14
  /** `TRIAL_DAYS * 24 * 60 * 60 * 1000`: the length of a trial in milliseconds. */
  const TrialMillis := TrialDays * 24 * 60 * 60 * 1000

  const EmailRequired := "Email required"
  const TrialStarted := "Trial started"
  const TrialAlreadyActive := "Trial already active"
  const TrialExpiredMessage := "Trial expired"
  const NoTrialOrLicense := "No trial or license"
  /** The only license status the store ever writes. */
  const ActiveName := "active"

  datatype Status = Active | Trial | Expired | Inactive | Invalid
  {
    /** The status string the store reports. */
    function Name(): string
    {
      match this
      case Active => ActiveName
      case Trial => "trial"
      case Expired => "expired"
      case Inactive => "inactive"
      case Invalid => "invalid"
    }
  }

  /** `{ email, createdAt }` */
  datatype User = User(email: string, createdAt: int)
  /** `{ startedAt, expiresAt }` */
  datatype TrialRecord = TrialRecord(startedAt: int, expiresAt: int)
  /** `{ email, status, createdAt, expiresAt }`, `expiresAt` possibly `null`. */
  datatype License = License(email: string, status: string, createdAt: int, expiresAt: Option<int>)

  /** The contents of `global.__licenseStore` at one moment. */
  datatype Tables = Tables(
    users: map<string, User>,
    trials: map<string, TrialRecord>,
    licenses: map<string, License>)

  /** What `memStartTrial` / `startTrial` return: `{ ok: false, error }` or
      `{ ok: true, status, expiresAt, message }`. */
  datatype TrialReply =
    | TrialRefused(error: string)
    | TrialReported(status: Status, expiresAt: int, message: string)

  /** What `memActivateLicense` / `activateLicense` return: `{ ok: false, error }`
      or `{ ok: true, licenseKey, status, expiresAt }`. */
  datatype ActivateReply =
    | ActivateRefused(error: string)
    | Activated(licenseKey: string, status: Status, expiresAt: Option<int>)

  /** The four shapes `memVerifyLicense` / `verifyLicense` return. */
  datatype VerifyReply =
    | VerifyRefused(reason: string)                              // { ok: false, status: 'invalid', reason }
    | LicenseActive(licenseExpiresAt: Option<int>, licenseKey: string)  // { ok: true, status: 'active', expiresAt, licenseKey }
    | TrialState(status: Status, expiresAt: int)                 // { ok: true, status: 'trial' | 'expired', expiresAt }
    | NoEntitlement(reason: string)                              // { ok: true, status: 'inactive', reason }
  {
    function Ok(): bool
    {
      !VerifyRefused?
    }

    function ReplyStatus(): Status
    {
      match this
      case VerifyRefused(_) => Invalid
      case LicenseActive(_, _) => Active
      case TrialState(s, _) => s
      case NoEntitlement(_) => Inactive
    }
  }

  /** JavaScript truthiness of an optional string argument: present and non-empty. */
  predicate Truthy(s: Option<string>)
  {
    s.Some? && s.value != ""
  }

  /** `!lic.expiresAt`: `null` and `0` both read as "no expiry". */
  predicate NoExpiry(expiresAt: Option<int>)
  {
    expiresAt.None? || expiresAt.value == 0
  }

  /** The key `memActivateLicense` writes under: `providedKey || generated`. */
  function ChosenKey(providedKey: Option<string>, generated: string): string
  {
    if Truthy(providedKey) then providedKey.value else generated
  }

  /** The condition of store.js:93 under which a stored license makes the
      caller active. */
  predicate LicenseGrants(t: Tables, licenseKey: Option<string>, normalized: string, now: int)
  {
    && Truthy(licenseKey)
    && licenseKey.value in t.licenses
    && t.licenses[licenseKey.value].email == normalized
    && t.licenses[licenseKey.value].status == ActiveName
    && (NoExpiry(t.licenses[licenseKey.value].expiresAt) || now < t.licenses[licenseKey.value].expiresAt.value)
  }

  /** What the store keeps true of its tables: every key of `users` is a
      non-empty normalised email owning its record, every trial and every
      license belongs to a known user, trials last exactly `TrialMillis`,
      and licenses are stored under non-empty keys, active, without expiry. */
  ghost predicate WellFormed(t: Tables)
  {
    && (forall e :: e in t.users ==> e != "" && IsNormalized(e) && t.users[e].email == e)
    && (forall e :: e in t.trials ==>
          e in t.users && t.trials[e].expiresAt == t.trials[e].startedAt + TrialMillis)
    && (forall k :: k in t.licenses ==>
          && k != ""
          && t.licenses[k].email in t.users
          && t.licenses[k].status == ActiveName
          && t.licenses[k].expiresAt.None?)
  }

  /** `store.users[n] = store.users[n] || { email: n, createdAt: iso(now) }`:
      an existing user record is kept as it is. */
  function UpsertUser(users: map<string, User>, normalized: string, now: int): (r: map<string, User>)
    ensures r.Keys == users.Keys + {normalized}
    ensures normalized in users ==> r == users
    ensures normalized !in users ==> r[normalized] == User(normalized, now)
    ensures forall e :: e in users ==> r[e] == users[e]
  {
    if normalized in users then users else users[normalized := User(normalized, now)]
  }

  /** One call of `memStartTrial(email)` at time `now`, from tables `before`
      to tables `after`, replying `r` (store.js:41-62). */
  ghost predicate StartTrialStep(before: Tables, email: Option<string>, now: int, after: Tables, r: TrialReply)
  {
    var n := NormalizeEmail(email);
    if n == "" then
      after == before && r == TrialRefused(EmailRequired)
    else if n in before.trials then
      var expiresAt := before.trials[n].expiresAt;
      && after == before
      && r == TrialReported(
           if now < expiresAt then Trial else Expired,
           expiresAt,
           if now < expiresAt then TrialAlreadyActive else TrialExpiredMessage)
    else
      && after.users == UpsertUser(before.users, n, now)
      && after.trials == before.trials[n := TrialRecord(now, now + TrialMillis)]
      && after.licenses == before.licenses
      && r == TrialReported(Trial, now + TrialMillis, TrialStarted)
  }

  /** One call of `memActivateLicense(email, providedKey)` at time `now`, with
      `generated` the key `generateLicenseKey()` would make (store.js:64-80). */
  ghost predicate ActivateStep(
    before: Tables, email: Option<string>, providedKey: Option<string>, generated: string,
    now: int, after: Tables, r: ActivateReply)
  {
    var n := NormalizeEmail(email);
    if n == "" then
      after == before && r == ActivateRefused(EmailRequired)
    else
      var key := ChosenKey(providedKey, generated);
      && after.users == UpsertUser(before.users, n, now)
      && after.trials == before.trials
      && after.licenses == before.licenses[key := License(n, ActiveName, now, None)]
      && r == Activated(key, Active, None)
  }

  /** Starting a trial keeps the tables well formed. */
  lemma StartTrialKeepsWellFormed(before: Tables, email: Option<string>, now: int, after: Tables, r: TrialReply)
    requires WellFormed(before) && StartTrialStep(before, email, now, after, r)
    ensures WellFormed(after)
  {
  }

  /** Activating a license keeps the tables well formed, provided the key it
      would generate is non-empty. */
  lemma ActivateKeepsWellFormed(
    before: Tables, email: Option<string>, providedKey: Option<string>, generated: string,
    now: int, after: Tables, r: ActivateReply)
    requires WellFormed(before) && generated != ""
    requires ActivateStep(before, email, providedKey, generated, now, after, r)
    ensures WellFormed(after)
  {
  }

  /** `memVerifyLicense(email, licenseKey)` at time `now` over tables `t`
      (store.js:82-107). It only reads. */
  function MemVerifyLicense(t: Tables, email: Option<string>, licenseKey: Option<string>, now: int): (r: VerifyReply)
    ensures r.VerifyRefused? <==> NormalizeEmail(email) == ""
    ensures r.VerifyRefused? ==> r.reason == EmailRequired && r.ReplyStatus() == Invalid
    ensures r.LicenseActive? <==>
              NormalizeEmail(email) != "" && LicenseGrants(t, licenseKey, NormalizeEmail(email), now)
    ensures r.LicenseActive? ==>
              && Some(r.licenseKey) == licenseKey
              && (r.licenseExpiresAt.None? <==> NoExpiry(t.licenses[r.licenseKey].expiresAt))
              && (r.licenseExpiresAt.Some? ==>
                    r.licenseExpiresAt == t.licenses[r.licenseKey].expiresAt && now < r.licenseExpiresAt.value)
    ensures r.TrialState? <==>
              && NormalizeEmail(email) != ""
              && !LicenseGrants(t, licenseKey, NormalizeEmail(email), now)
              && NormalizeEmail(email) in t.trials
    ensures r.TrialState? ==>
              && r.expiresAt == t.trials[NormalizeEmail(email)].expiresAt
              && (r.status == Trial || r.status == Expired)
              && (r.status == Trial <==> now < r.expiresAt)
    ensures r.NoEntitlement? ==> r.reason == NoTrialOrLicense
  {
    var normalized := NormalizeEmail(email);
    if normalized == "" then
      VerifyRefused(EmailRequired)
    else if LicenseGrants(t, licenseKey, normalized, now) then
      var lic := t.licenses[licenseKey.value];
      LicenseActive(if NoExpiry(lic.expiresAt) then None else lic.expiresAt, licenseKey.value)
    else if normalized in t.trials then
      var trial := t.trials[normalized];
      TrialState(if now < trial.expiresAt then Trial else Expired, trial.expiresAt)
    else
      NoEntitlement(NoTrialOrLicense)
  }

  /** `verifyLicense(email, licenseKey)` on the memory path: its own empty-email
      guard (store.js:183-193) answers exactly as the guard of `memVerifyLicense`. */
  function VerifyLicense(t: Tables, email: Option<string>, licenseKey: Option<string>, now: int): (r: VerifyReply)
    ensures r == MemVerifyLicense(t, email, licenseKey, now)
  {
    if NormalizeEmail(email) == "" then VerifyRefused(EmailRequired)
    else MemVerifyLicense(t, email, licenseKey, now)
  }

  /** `global.__licenseStore`: the three tables, updated in place. */
  class LicenseStore {
    var users: map<string, User>
    var trials: map<string, TrialRecord>
    var licenses: map<string, License>

    function State(): Tables
      reads this
    {
      Tables(users, trials, licenses)
    }

    ghost predicate Valid()
      reads this
    {
      WellFormed(State())
    }

    /** `getMemoryStore()` on first use: three empty tables. */
    constructor ()
      ensures Valid()
      ensures State() == Tables(map[], map[], map[])
    {
      users, trials, licenses := map[], map[], map[];
    }

    method MemStartTrial(email: Option<string>, now: int) returns (r: TrialReply)
      modifies this
      ensures StartTrialStep(old(State()), email, now, State(), r)
      ensures old(Valid()) ==> Valid()
    {
      var normalized := NormalizeEmail(email);
      if normalized == "" {
        return TrialRefused(EmailRequired);
      }
      if normalized in trials {
        var existing := trials[normalized];
        var active := now < existing.expiresAt;
        return TrialReported(
          if active then Trial else Expired,
          existing.expiresAt,
          if active then TrialAlreadyActive else TrialExpiredMessage);
      }
      var expiresAt := now + TrialMillis;
      users := UpsertUser(users, normalized, now);
      trials := trials[normalized := TrialRecord(now, expiresAt)];
      r := TrialReported(Trial, expiresAt, TrialStarted);
    }

    /** `high` and `low` are what `crypto.randomBytes(8)` and
        `crypto.randomBytes(4)` would return if a key has to be generated. */
    method MemActivateLicense(
      email: Option<string>, providedKey: Option<string>, high: seq<Byte>, low: seq<Byte>, now: int)
      returns (r: ActivateReply)
      requires |high| == 8 && |low| == 4
      modifies this
      ensures ActivateStep(old(State()), email, providedKey, GenerateLicenseKey(high, low), now, State(), r)
      ensures old(Valid()) ==> Valid()
    {
      var normalized := NormalizeEmail(email);
      if normalized == "" {
        return ActivateRefused(EmailRequired);
      }
      var licenseKey := if Truthy(providedKey) then providedKey.value else GenerateLicenseKey(high, low);
      users := UpsertUser(users, normalized, now);
      licenses := licenses[licenseKey := License(normalized, ActiveName, now, None)];
      r := Activated(licenseKey, Active, None);
    }

    /** `startTrial(email)` with no Supabase client: reject an empty
        normalised email, otherwise run `memStartTrial` (store.js:109-115). */
    method StartTrial(email: Option<string>, now: int) returns (r: TrialReply)
      modifies this
      ensures StartTrialStep(old(State()), email, now, State(), r)
      ensures old(Valid()) ==> Valid()
    {
      var normalized := NormalizeEmail(email);
      if normalized == "" {
        r := TrialRefused(EmailRequired);
      } else {
        r := MemStartTrial(email, now);
      }
      if old(Valid()) {
        StartTrialKeepsWellFormed(old(State()), email, now, State(), r);
      }
    }

    /** `activateLicense(email, providedKey)` with no Supabase client
        (store.js:153-159). */
    method ActivateLicense(
      email: Option<string>, providedKey: Option<string>, high: seq<Byte>, low: seq<Byte>, now: int)
      returns (r: ActivateReply)
      requires |high| == 8 && |low| == 4
      modifies this
      ensures ActivateStep(old(State()), email, providedKey, GenerateLicenseKey(high, low), now, State(), r)
      ensures old(Valid()) ==> Valid()
    {
      var normalized := NormalizeEmail(email);
      if normalized == "" {
        r := ActivateRefused(EmailRequired);
      } else {
        r := MemActivateLicense(email, providedKey, high, low, now);
      }
      if old(Valid()) {
        ActivateKeepsWellFormed(old(State()), email, providedKey, GenerateLicenseKey(high, low), now, State(), r);
      }
    }
  }
}

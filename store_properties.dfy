/** What the store promises across calls: the empty-email guard, trials that
    are never renewed or extended, licenses that win over trials for their
    own address only, and tables that only ever grow. */
module StoreProperties {
  import opened Wrappers
  import opened Email
  import opened LicenseKeys
  import opened Store

  /** An address that is missing or only whitespace is refused by
      `startTrial` and nothing is written. */
  lemma StartTrialRefusesBlankEmail(before: Tables, email: Option<string>, now: int, after: Tables, r: TrialReply)
    requires email.None? || AllWhitespace(email.value)
    requires StartTrialStep(before, email, now, after, r)
    ensures after == before
    ensures r == TrialRefused("Email required")
  {
  }

  /** An address that is missing or only whitespace is refused by
      `activateLicense` and nothing is written. */
  lemma ActivateRefusesBlankEmail(
    before: Tables, email: Option<string>, providedKey: Option<string>, generated: string,
    now: int, after: Tables, r: ActivateReply)
    requires email.None? || AllWhitespace(email.value)
    requires ActivateStep(before, email, providedKey, generated, now, after, r)
    ensures after == before
    ensures r == ActivateRefused("Email required")
  {
  }

  /** `verifyLicense` answers a missing or blank address with `ok: false`,
      status `invalid` and reason "Email required", whatever the tables hold. */
  lemma VerifyRefusesBlankEmail(t: Tables, email: Option<string>, licenseKey: Option<string>, now: int)
    requires email.None? || AllWhitespace(email.value)
    ensures !VerifyLicense(t, email, licenseKey, now).Ok()
    ensures VerifyLicense(t, email, licenseKey, now) == VerifyRefused("Email required")
    ensures VerifyLicense(t, email, licenseKey, now).ReplyStatus().Name() == "invalid"
  {
  }

  /** The first `startTrial` for an address creates a trial ending
      `TrialMillis` after `now`, adds a user record only when there was
      none, and touches no license. */
  lemma FirstStartTrialCreatesTrial(before: Tables, email: Option<string>, now: int, after: Tables, r: TrialReply)
    requires NormalizeEmail(email) != "" && NormalizeEmail(email) !in before.trials
    requires StartTrialStep(before, email, now, after, r)
    ensures r == TrialReported(Trial, now + 1209600000, "Trial started")
    ensures after.trials == before.trials[NormalizeEmail(email) := TrialRecord(now, now + 1209600000)]
    ensures NormalizeEmail(email) in after.users
    ensures forall e :: e in before.users ==> e in after.users && after.users[e] == before.users[e]
    ensures after.licenses == before.licenses
  {
  }

  /** A second `startTrial` for the same address (in any case or padding)
      changes nothing and reports the stored expiry: `trial` before it,
      `expired` from it on. A trial is never renewed or extended. */
  lemma StartTrialAgainChangesNothing(
    t0: Tables, email1: Option<string>, now1: int, t1: Tables, r1: TrialReply,
    email2: Option<string>, now2: int, t2: Tables, r2: TrialReply)
    requires NormalizeEmail(email1) != "" && NormalizeEmail(email2) == NormalizeEmail(email1)
    requires StartTrialStep(t0, email1, now1, t1, r1)
    requires StartTrialStep(t1, email2, now2, t2, r2)
    ensures t2 == t1
    ensures r1.TrialReported? && r2.TrialReported? && r2.expiresAt == r1.expiresAt
    ensures r2.status == Trial <==> now2 < r1.expiresAt
    ensures r2.status == Expired <==> r1.expiresAt <= now2
  {
  }

  /** After `startTrial`, `verifyLicense` without a key reports the same
      expiry: `trial` before it, `expired` from it on. */
  lemma StartedTrialVerifies(
    before: Tables, email: Option<string>, now: int, after: Tables, r: TrialReply,
    sameEmail: Option<string>, later: int)
    requires NormalizeEmail(email) != "" && NormalizeEmail(sameEmail) == NormalizeEmail(email)
    requires StartTrialStep(before, email, now, after, r)
    ensures r.TrialReported?
    ensures MemVerifyLicense(after, sameEmail, None, later) ==
              TrialState(if later < r.expiresAt then Trial else Expired, r.expiresAt)
  {
  }

  /** The key `activateLicense` reports is the caller's key when one is
      given, and otherwise a key in the generated format. */
  lemma ActivatedKeyIsProvidedOrGenerated(
    before: Tables, email: Option<string>, providedKey: Option<string>, high: seq<Byte>, low: seq<Byte>,
    now: int, after: Tables, r: ActivateReply)
    requires |high| == 8 && |low| == 4
    requires NormalizeEmail(email) != ""
    requires ActivateStep(before, email, providedKey, GenerateLicenseKey(high, low), now, after, r)
    ensures r.Activated? && r.status == Active && r.expiresAt.None?
    ensures Truthy(providedKey) ==> r.licenseKey == providedKey.value
    ensures !Truthy(providedKey) ==> IsLicenseKey(r.licenseKey)
    ensures r.licenseKey != ""
  {
  }

  /** `activateLicense` writes one license, under the key it reports,
      replacing whatever that key held; every other license and every
      trial stay as they were. */
  lemma ActivateWritesOneLicense(
    before: Tables, email: Option<string>, providedKey: Option<string>, generated: string,
    now: int, after: Tables, r: ActivateReply)
    requires NormalizeEmail(email) != ""
    requires ActivateStep(before, email, providedKey, generated, now, after, r)
    ensures r.Activated?
    ensures r.licenseKey in after.licenses
    ensures after.licenses[r.licenseKey] == License(NormalizeEmail(email), "active", now, None)
    ensures after.licenses.Keys == before.licenses.Keys + {r.licenseKey}
    ensures forall k :: k in before.licenses && k != r.licenseKey ==> after.licenses[k] == before.licenses[k]
    ensures after.trials == before.trials
  {
  }

  /** Once `activateLicense` has run, `verifyLicense` with the same address
      and the reported key answers `active` at every later time, whatever
      the trial says. */
  lemma ActivatedLicenseWins(
    before: Tables, email: Option<string>, providedKey: Option<string>, generated: string,
    now: int, after: Tables, r: ActivateReply, sameEmail: Option<string>, later: int)
    requires generated != ""
    requires NormalizeEmail(email) != "" && NormalizeEmail(sameEmail) == NormalizeEmail(email)
    requires ActivateStep(before, email, providedKey, generated, now, after, r)
    ensures r.Activated?
    ensures MemVerifyLicense(after, sameEmail, Some(r.licenseKey), later) == LicenseActive(None, r.licenseKey)
  {
  }

  /** A license key presented with another address proves nothing: the
      answer is the one that address gets without a key, and the activation
      did not change it. */
  lemma ForeignKeyFallsThrough(
    before: Tables, email: Option<string>, providedKey: Option<string>, generated: string,
    now: int, after: Tables, r: ActivateReply, otherEmail: Option<string>, later: int)
    requires NormalizeEmail(email) != "" && NormalizeEmail(otherEmail) != NormalizeEmail(email)
    requires ActivateStep(before, email, providedKey, generated, now, after, r)
    ensures r.Activated?
    ensures MemVerifyLicense(after, otherEmail, Some(r.licenseKey), later) ==
              MemVerifyLicense(after, otherEmail, None, later)
    ensures MemVerifyLicense(after, otherEmail, None, later) ==
              MemVerifyLicense(before, otherEmail, None, later)
  {
  }

  /** In tables the store has built, a presented key makes the caller
      `active` exactly when it is stored for the caller's address: stored
      licenses never expire. */
  lemma StoredLicenseIsActiveForever(t: Tables, email: Option<string>, key: string, now: int)
    requires WellFormed(t)
    ensures MemVerifyLicense(t, email, Some(key), now).LicenseActive? <==>
              NormalizeEmail(email) != "" && key in t.licenses && t.licenses[key].email == NormalizeEmail(email)
  {
  }

  /** Without a license for the caller, `verifyLicense` is decided by the
      trial alone: `inactive` with reason "No trial or license" when there
      is none. */
  lemma NoTrialNoLicenseIsInactive(t: Tables, email: Option<string>, licenseKey: Option<string>, now: int)
    requires NormalizeEmail(email) != "" && NormalizeEmail(email) !in t.trials
    requires !LicenseGrants(t, licenseKey, NormalizeEmail(email), now)
    ensures MemVerifyLicense(t, email, licenseKey, now) == NoEntitlement("No trial or license")
    ensures MemVerifyLicense(t, email, licenseKey, now).ReplyStatus().Name() == "inactive"
  {
  }

  /** Neither operation removes or rewrites a user record or a trial: no
      call revokes or shortens a trial. */
  lemma RecordsOnlyGrow(
    before: Tables, email: Option<string>, providedKey: Option<string>, generated: string,
    now: int, afterTrial: Tables, r1: TrialReply, afterLicense: Tables, r2: ActivateReply)
    requires StartTrialStep(before, email, now, afterTrial, r1)
    requires ActivateStep(before, email, providedKey, generated, now, afterLicense, r2)
    ensures forall e :: e in before.trials ==>
              e in afterTrial.trials && afterTrial.trials[e] == before.trials[e] &&
              e in afterLicense.trials && afterLicense.trials[e] == before.trials[e]
    ensures forall e :: e in before.users ==>
              e in afterTrial.users && afterTrial.users[e] == before.users[e] &&
              e in afterLicense.users && afterLicense.users[e] == before.users[e]
    ensures before.licenses.Keys <= afterLicense.licenses.Keys
    ensures afterTrial.licenses == before.licenses
  {
  }
}

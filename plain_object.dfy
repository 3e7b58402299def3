/** How a property read behaves on the plain objects `{}` that hold the
    store's tables (api/_lib/store.js:20-24): a key that is not an own
    property can still find a member inherited from `Object.prototype`, and
    that member is truthy. */
module PlainObject {
  import opened Wrappers
  import opened Email
  import opened Store

  /** The members every object literal inherits from `Object.prototype`. */
  const InheritedNames: set<string> := {
    "constructor", "__proto__", "__defineGetter__", "__defineSetter__",
    "__lookupGetter__", "__lookupSetter__", "hasOwnProperty", "isPrototypeOf",
    "propertyIsEnumerable", "toLocaleString", "toString", "valueOf"
  }

  datatype PropertyRead<V> = Own(value: V) | Inherited | Undefined

  /** `obj[key]` for an object created as `{}` whose own properties are `m`. */
  function ReadProperty<V>(m: map<string, V>, key: string): (r: PropertyRead<V>)
    ensures r.Own? <==> key in m
    ensures r.Own? ==> r.value == m[key]
    ensures r.Inherited? <==> key !in m && key in InheritedNames
  {
    if key in m then Own(m[key])
    else if key in InheritedNames then Inherited
    else Undefined
  }

  /** The trial lookup of store.js:47-56 (and the same code at 98-104) as
      written: a truthy `store.trials[normalized]` counts as an existing
      trial, whose status is `trial` when `now < expiresAt`. On an inherited
      member `expiresAt` is `undefined` and the comparison is false.
      `Some(status)`: the existing-trial branch is taken; `None`: no trial. */
  function TrialLookupAsWritten(trials: map<string, TrialRecord>, normalized: string, now: int): (r: Option<Status>)
    ensures r.None? <==> normalized !in trials && normalized !in InheritedNames
    ensures r.Some? ==> r.value == Trial || r.value == Expired
  {
    match ReadProperty(trials, normalized)
    case Own(trial) => Some(if now < trial.expiresAt then Trial else Expired)
    case Inherited => Some(Expired)
    case Undefined => None
  }

  /** The address `constructor` (any case, any padding) is a non-empty
      normalised email, so both entry points let it through. */
  lemma ConstructorIsAcceptedEmail(email: string)
    requires email == "constructor"
    ensures NormalizeEmail(Some(email)) == email != ""
  {
    assert email == ['c', 'o', 'n', 's', 't', 'r', 'u', 'c', 't', 'o', 'r'];
    NormalizedIsFixed(email);
  }

  /** As written, an address that normalises to an inherited member name
      (`constructor` or `__proto__`, in any case and with any padding) passes
      the empty-email guard and never gets a trial: the first `startTrial`
      already reports `expired`, and `verifyLicense` reports `expired` where
      no trial exists. */
  lemma InheritedNameReadsAsExpiredTrial(trials: map<string, TrialRecord>, email: Option<string>, now: int)
    requires NormalizeEmail(email) in {"constructor", "__proto__"} && NormalizeEmail(email) !in trials
    ensures NormalizeEmail(email) != ""
    ensures TrialLookupAsWritten(trials, NormalizeEmail(email), now) == Some(Expired)
  {
  }

  /** On every other key the lookup as written is the own-property lookup
      the model uses. */
  lemma AsWrittenAgreesOnOwnKeys(trials: map<string, TrialRecord>, normalized: string, now: int)
    requires normalized !in InheritedNames
    ensures TrialLookupAsWritten(trials, normalized, now) ==
              if normalized in trials
              then Some(if now < trials[normalized].expiresAt then Trial else Expired)
              else None
  {
  }

  /** With the own-property lookup of the model, the first `startTrial` for
      `constructor` starts a 14-day trial and `verifyLicense` then reports it. */
  lemma OwnLookupStartsTrial(before: Tables, email: string, now: int, after: Tables, r: TrialReply)
    requires email == "constructor" && email !in before.trials
    requires StartTrialStep(before, Some(email), now, after, r)
    ensures r == TrialReported(Trial, now + TrialMillis, TrialStarted)
    ensures email in after.trials && after.trials[email] == TrialRecord(now, now + TrialMillis)
    ensures MemVerifyLicense(after, Some(email), None, now) == TrialState(Trial, now + TrialMillis)
  {
    ConstructorIsAcceptedEmail(email);
  }
}

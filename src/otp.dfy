/**
 * The one-time-password store used to confirm patient consent
 * (backend/utils/otp_service.py).
 *
 * The store maps an e-mail address to the code sent to it, its expiry time,
 * the number of wrong attempts so far, the patient's name and the issue time.
 * Time is an integer number of microseconds, passed in by the caller, and the
 * six random digits of a code are passed in as draws. The e-mail sending that
 * follows the store write is not modelled.
 */
module Otp {
  import opened Wrappers
  import opened Text

  const OtpLength: nat := 6
  /** Five minutes, in microseconds. */
  const ExpiryMicros: int := 5 * 60 * 1000000
  const MaxAttempts: nat := 3

  datatype OtpEntry = OtpEntry(otp: string, expiry: int, attempts: nat, patientName: string, createdAt: int)

  type Storage = map<string, OtpEntry>

  /** A code built from six draws of `random.choices(string.digits)`. */
  function GenerateOtp(draws: seq<nat>): (code: string)
    requires |draws| == OtpLength
    requires forall i :: 0 <= i < |draws| ==> draws[i] < 10
    ensures |code| == OtpLength
    ensures forall i :: 0 <= i < |code| ==> '0' <= code[i] <= '9'
    ensures forall i :: 0 <= i < |code| ==> code[i] as int - '0' as int == draws[i]
  {
    seq(OtpLength, i requires 0 <= i < OtpLength => DigitChar(draws[i]))
  }

  /** The digit values of a code of decimal digits. */
  function DigitValues(code: string): (r: seq<nat>)
    requires forall i :: 0 <= i < |code| ==> '0' <= code[i] <= '9'
    ensures |r| == |code|
  {
    seq(|code|, i requires 0 <= i < |code| => (code[i] as int - '0' as int) as nat)
  }

  /** The draws can be read back from the code, so distinct draws give distinct codes. */
  lemma GenerateOtpInjective(d1: seq<nat>, d2: seq<nat>)
    requires |d1| == OtpLength && forall i :: 0 <= i < |d1| ==> d1[i] < 10
    requires |d2| == OtpLength && forall i :: 0 <= i < |d2| ==> d2[i] < 10
    ensures DigitValues(GenerateOtp(d1)) == d1
    ensures GenerateOtp(d1) == GenerateOtp(d2) <==> d1 == d2
  {
    assert DigitValues(GenerateOtp(d1)) == d1;
    assert DigitValues(GenerateOtp(d2)) == d2;
  }

  /** The entry `send_email_otp` writes: a fresh code, no attempts, expiring five minutes from now. */
  function NewEntry(code: string, patientName: string, now: int): (e: OtpEntry)
    ensures e.otp == code && e.attempts == 0 && e.expiry - now == ExpiryMicros
  {
    OtpEntry(code, now + ExpiryMicros, 0, patientName, now)
  }

  /** What `verify_otp` reports; only `Verified` is a success. */
  datatype VerifyOutcome =
    | NoOtp
    | Expired
    | TooManyAttempts
    | Verified
    | Invalid(remaining: nat)
    | InvalidExhausted

  function Message(outcome: VerifyOutcome): string
  {
    match outcome
    case NoOtp => "No OTP found for this email. Please request a new OTP."
    case Expired => "OTP has expired. Please request a new OTP."
    case TooManyAttempts => "Maximum OTP attempts exceeded. Please request a new OTP."
    case Verified => "OTP verified successfully"
    case Invalid(remaining) => "Invalid OTP. " + NatToString(remaining) + " attempts remaining."
    case InvalidExhausted => "Invalid OTP. Maximum attempts exceeded. Please request a new OTP."
  }

  /**
   * One call of `verify_otp`: the outcome and the store afterwards. Every
   * failure except a wrong code with attempts left deletes the entry, and so
   * does a success; no other e-mail's entry is touched.
   */
  function VerifyStep(s: Storage, email: string, code: string, now: int): (r: (VerifyOutcome, Storage))
    ensures email !in s ==> r == (NoOtp, s)
    ensures r.0 == Verified <==> email in s && now <= s[email].expiry && s[email].attempts < MaxAttempts && s[email].otp == code
    ensures email in s && now > s[email].expiry ==> r.0 == Expired
    ensures r.0.Invalid? ==>
              && email in s
              && r.1 == s[email := s[email].(attempts := s[email].attempts + 1)]
              && r.0.remaining == MaxAttempts - s[email].attempts - 1 > 0
    ensures !r.0.Invalid? ==> r.1 == s - {email}
    ensures forall e :: e != email ==> (e in r.1 <==> e in s) && (e in s ==> r.1[e] == s[e])
  {
    if email !in s then (NoOtp, s)
    else
      var entry := s[email];
      if now > entry.expiry then (Expired, s - {email})
      else if entry.attempts >= MaxAttempts then (TooManyAttempts, s - {email})
      else if entry.otp == code then (Verified, s - {email})
      else
        var attempts := entry.attempts + 1;
        if MaxAttempts - attempts > 0 then (Invalid(MaxAttempts - attempts), s[email := entry.(attempts := attempts)])
        else (InvalidExhausted, s - {email})
  }

  /** Every stored entry has fewer than three wrong attempts and expires five minutes after issue. */
  ghost predicate Consistent(s: Storage)
  {
    forall e :: e in s ==> s[e].attempts < MaxAttempts && s[e].expiry == s[e].createdAt + ExpiryMicros
  }

  /** A consistent store stays consistent, so the attempt-limit branch is never taken. */
  lemma VerifyKeepsConsistent(s: Storage, email: string, code: string, now: int)
    requires Consistent(s)
    ensures Consistent(VerifyStep(s, email, code, now).1)
    ensures VerifyStep(s, email, code, now).0 != TooManyAttempts
  {
    var r := VerifyStep(s, email, code, now);
    forall e | e in r.1
      ensures r.1[e].attempts < MaxAttempts && r.1[e].expiry == r.1[e].createdAt + ExpiryMicros
    {
      if e != email {
        assert r.1[e] == s[e];
      }
    }
  }

  /** A code is accepted once: repeating it, at any later time, finds no entry. */
  lemma VerifiedOnlyOnce(s: Storage, email: string, code: string, now: int, later: int)
    requires VerifyStep(s, email, code, now).0 == Verified
    ensures VerifyStep(VerifyStep(s, email, code, now).1, email, code, later).0 == NoOtp
  {
  }

  /** The expiry check is strict: at the expiry instant the right code is still accepted. */
  lemma AcceptedAtExpiry(s: Storage, email: string)
    requires email in s && s[email].attempts < MaxAttempts
    ensures VerifyStep(s, email, s[email].otp, s[email].expiry).0 == Verified
    ensures VerifyStep(s, email, s[email].otp, s[email].expiry + 1).0 == Expired
  {
  }

  /** Re-issuing replaces the entry, so a different earlier code now counts as a wrong attempt. */
  lemma ReissueInvalidatesOldCode(s: Storage, email: string, name: string, oldCode: string, newCode: string, now: int, at: int)
    requires oldCode != newCode
    requires now <= at <= now + ExpiryMicros
    ensures VerifyStep(s[email := NewEntry(newCode, name, now)], email, oldCode, at).0 == Invalid(2)
  {
  }

  /** Three wrong codes in a row remove a fresh entry, whatever the third one says. */
  lemma ThreeWrongCodesExhaust(s: Storage, email: string, w1: string, w2: string, w3: string, now: int)
    requires email in s && s[email].attempts == 0 && now <= s[email].expiry
    requires w1 != s[email].otp && w2 != s[email].otp && w3 != s[email].otp
    ensures var s1 := VerifyStep(s, email, w1, now).1;
            var s2 := VerifyStep(s1, email, w2, now).1;
            VerifyStep(s, email, w1, now).0 == Invalid(2)
            && VerifyStep(s1, email, w2, now).0 == Invalid(1)
            && VerifyStep(s2, email, w3, now) == (InvalidExhausted, s - {email})
  {
    var s1 := VerifyStep(s, email, w1, now).1;
    var s2 := VerifyStep(s1, email, w2, now).1;
    assert s2 - {email} == s - {email};
  }

  /** The entries `cleanup_expired_otps` keeps: those not yet past their expiry. */
  function Unexpired(s: Storage, now: int): (r: Storage)
    ensures forall e :: e in r <==> e in s && now <= s[e].expiry
    ensures forall e :: e in r ==> r[e] == s[e]
  {
    map e | e in s && now <= s[e].expiry :: s[e]
  }

  function ExpiredEmails(s: Storage, now: int): (r: set<string>)
    ensures forall e :: e in r <==> e in s && now > s[e].expiry
  {
    set e | e in s && now > s[e].expiry
  }

  /** The status `get_otp_status` reports for an e-mail with an entry. */
  datatype OtpStatus = OtpStatus(
    email: string,
    patientName: string,
    attemptsUsed: nat,
    attemptsRemaining: int,
    timeRemainingSeconds: nat,
    expiresAt: int,
    createdAt: int)

  /**
   * `max(0, int(seconds))`: Python's `int` truncates toward zero, which for a
   * positive remainder is the floor and for a negative one gives at most 0.
   */
  function WholeSecondsLeft(expiry: int, now: int): (r: nat)
    ensures expiry <= now ==> r == 0
    ensures expiry > now ==> r * 1000000 <= expiry - now < (r + 1) * 1000000
  {
    if expiry - now > 0 then (expiry - now) / 1000000 else 0
  }

  class OtpStore {
    var storage: Storage

    ghost predicate Valid()
      reads this
    {
      Consistent(storage)
    }

    constructor ()
      ensures Valid() && storage == map[]
    {
      storage := map[];
    }

    /** The store write of `send_email_otp`: any earlier entry for `email` is replaced. */
    method Issue(email: string, patientName: string, draws: seq<nat>, now: int) returns (code: string)
      requires Valid()
      requires |draws| == OtpLength && forall i :: 0 <= i < |draws| ==> draws[i] < 10
      modifies this
      ensures Valid()
      ensures code == GenerateOtp(draws)
      ensures storage == old(storage)[email := NewEntry(code, patientName, now)]
    {
      code := GenerateOtp(draws);
      storage := storage[email := NewEntry(code, patientName, now)];
    }

    method Verify(email: string, code: string, now: int) returns (success: bool, message: string)
      modifies this
      ensures (VerifyOutcome.Verified == VerifyStep(old(storage), email, code, now).0) == success
      ensures message == Message(VerifyStep(old(storage), email, code, now).0)
      ensures storage == VerifyStep(old(storage), email, code, now).1
      ensures old(Valid()) ==> Valid()
    {
      if old(Valid()) {
        VerifyKeepsConsistent(storage, email, code, now);
      }
      if email !in storage {
        return false, Message(NoOtp);
      }
      var entry := storage[email];
      if now > entry.expiry {
        storage := storage - {email};
        return false, Message(Expired);
      }
      if entry.attempts >= MaxAttempts {
        storage := storage - {email};
        return false, Message(TooManyAttempts);
      }
      if entry.otp == code {
        storage := storage - {email};
        return true, Message(Verified);
      }
      var attempts := entry.attempts + 1;
      storage := storage[email := entry.(attempts := attempts)];
      var remaining := MaxAttempts - attempts;
      if remaining > 0 {
        return false, Message(Invalid(remaining));
      }
      storage := storage - {email};
      return false, Message(InvalidExhausted);
    }

    /** Deletes every expired entry, one at a time, and returns how many were deleted. */
    method CleanupExpired(now: int) returns (count: nat)
      requires Valid()
      modifies this
      ensures Valid()
      ensures storage == Unexpired(old(storage), now)
      ensures count == |ExpiredEmails(old(storage), now)|
    {
      var expired := ExpiredEmails(storage, now);
      ghost var original := storage;
      ghost var removed: set<string> := {};
      count := 0;
      while expired != {}
        invariant expired !! removed && expired + removed == ExpiredEmails(original, now)
        invariant storage == map e | e in original && e !in removed :: original[e]
        invariant count == |removed|
        decreases |expired|
      {
        var email :| email in expired;
        storage := storage - {email};
        expired := expired - {email};
        removed := removed + {email};
        count := count + 1;
      }
      assert storage == Unexpired(original, now);
    }

    function GetStatus(email: string, now: int): (r: Option<OtpStatus>)
      reads this
      ensures r.None? <==> email !in storage
      ensures r.Some? ==>
                && r.value.attemptsUsed == storage[email].attempts
                && r.value.attemptsRemaining == MaxAttempts - storage[email].attempts
                && r.value.timeRemainingSeconds == WholeSecondsLeft(storage[email].expiry, now)
      ensures r.Some? && Valid() ==> 1 <= r.value.attemptsRemaining <= MaxAttempts
    {
      if email !in storage then None
      else
        var data := storage[email];
        Some(OtpStatus(email, data.patientName, data.attempts, MaxAttempts - data.attempts,
                       WholeSecondsLeft(data.expiry, now), data.expiry, data.createdAt))
    }
  }
}

/**
 * One-time e-mail verification codes. Requesting a code replaces whatever
 * record the (lower-cased) address had with a fresh, unverified one that
 * expires a fixed number of minutes later; consuming checks the record and
 * deletes it. Times are milliseconds, the clock and the random digits are
 * inputs, and sending the e-mail is not modelled: the requested code is
 * returned instead.
 */
module EmailVerification {
  import opened Base
  import opened Strings
  import opened Hashing

  const DefaultExpirationMinutes: nat := 10
  const CodeLength: nat := 6
  const MillisPerMinute: nat := 60 * 1000

  /** A row of the email_verifications table. */
  datatype Record = Record(email: string, codeHash: string, createdAt: int, expiresAt: int, verified: bool)

  /** The table, by its unique e-mail column. */
  type Records = map<string, Record>

  /** Why `consumeCode` throws, in the order it checks. */
  datatype ConsumeError = NoCode | Expired | AlreadyUsed | WrongCode

  /** Every key is a lower-cased address stored in its own record, and no record is verified. */
  ghost predicate WellFormed(records: Records)
  {
    forall e :: e in records ==> records[e].email == e && Lower(e) == e && !records[e].verified
  }

  /** Is every draw a value `Random.nextInt(0, 10)` can return? */
  predicate DecimalDraws(draws: seq<nat>)
  {
    forall i :: 0 <= i < |draws| ==> draws[i] < 10
  }

  /** `generateCode`: each draw written out, in order. */
  function GenerateCode(draws: seq<nat>): string
    requires DecimalDraws(draws)
  {
    if |draws| == 0 then "" else GenerateCode(draws[..|draws| - 1]) + NatToString(draws[|draws| - 1])
  }

  lemma {:induction false} GenerateCodeDigits(draws: seq<nat>)
    requires DecimalDraws(draws)
    ensures |GenerateCode(draws)| == |draws|
    ensures forall i :: 0 <= i < |draws| ==> IsDigit(GenerateCode(draws)[i])
    ensures forall i :: 0 <= i < |draws| ==> GenerateCode(draws)[i] as int - '0' as int == draws[i]
  {
    if |draws| > 0 {
      GenerateCodeDigits(draws[..|draws| - 1]);
      assert NatToString(draws[|draws| - 1]) == [DigitChar(draws[|draws| - 1])];
    }
  }

  /** `requestCode`'s delete-then-insert: the address's record is replaced by a fresh one. */
  function Issue(records: Records, email: string, codeHash: string, now: int, expirationMinutes: nat): Records
  {
    var key := Lower(email);
    records[key := Record(key, codeHash, now, now + expirationMinutes * MillisPerMinute, false)]
  }

  /** `consumeCode`'s checks on the table as it is. */
  function Check(records: Records, email: string, code: string, now: int, h: Hasher): Outcome<ConsumeError>
  {
    var key := Lower(email);
    if key !in records then Fail(NoCode)
    else if !(records[key].expiresAt > now) then Fail(Expired)
    else if records[key].verified then Fail(AlreadyUsed)
    else if !h.verify(code, records[key].codeHash) then Fail(WrongCode)
    else Pass
  }

  /** The table after `consumeCode`: the record is deleted only when every check passed. */
  function Consume(records: Records, email: string, code: string, now: int, h: Hasher): Records
  {
    if Check(records, email, code, now, h).Pass? then records - {Lower(email)} else records
  }

  /** Which check fails is decided in the source's order. */
  lemma CheckOrder(records: Records, email: string, code: string, now: int, h: Hasher)
    ensures var r := Check(records, email, code, now, h);
      var key := Lower(email);
      && (r == Fail(NoCode) <==> key !in records)
      && (r == Fail(Expired) <==> key in records && records[key].expiresAt <= now)
      && (r == Fail(AlreadyUsed) <==> key in records && records[key].expiresAt > now && records[key].verified)
      && (r == Pass <==> key in records && records[key].expiresAt > now && !records[key].verified
                         && h.verify(code, records[key].codeHash))
  {
  }

  lemma IssueWellFormed(records: Records, email: string, codeHash: string, now: int, expirationMinutes: nat)
    requires WellFormed(records)
    ensures WellFormed(Issue(records, email, codeHash, now, expirationMinutes))
    ensures Issue(records, email, codeHash, now, expirationMinutes).Keys == records.Keys + {Lower(email)}
  {
    LowerIdempotent(email);
  }

  lemma ConsumeWellFormed(records: Records, email: string, code: string, now: int, h: Hasher)
    requires WellFormed(records)
    ensures WellFormed(Consume(records, email, code, now, h))
    ensures Consume(records, email, code, now, h).Keys <= records.Keys
  {
  }

  /**
   * A code checks, under any casing of the address, from the moment it is
   * issued until just before it expires, and the later request supersedes
   * an earlier one.
   */
  lemma IssuedCodeAccepted(records: Records, email: string, other: string, code: string, salt: nat,
                           issuedAt: int, now: int, expirationMinutes: nat, h: Hasher)
    requires Sound(h)
    requires Lower(other) == Lower(email)
    requires now < issuedAt + expirationMinutes * MillisPerMinute
    ensures Check(Issue(records, email, h.hash(code, salt), issuedAt, expirationMinutes), other, code, now, h) == Pass
  {
    assert h.verify(code, h.hash(code, salt));
  }

  /** From its expiry on, the record refuses every code. */
  lemma IssuedCodeExpires(records: Records, email: string, codeHash: string, issuedAt: int,
                          now: int, expirationMinutes: nat, code: string, h: Hasher)
    requires issuedAt + expirationMinutes * MillisPerMinute <= now
    ensures Check(Issue(records, email, codeHash, issuedAt, expirationMinutes), email, code, now, h) == Fail(Expired)
  {
  }

  /** A second request replaces the first: only the newer hash and expiry matter. */
  lemma ReissueSupersedes(records: Records, email: string, other: string, first: string, second: string,
                          t1: int, t2: int, expirationMinutes: nat)
    requires Lower(other) == Lower(email)
    ensures Issue(Issue(records, email, first, t1, expirationMinutes), other, second, t2, expirationMinutes)
         == Issue(records, email, second, t2, expirationMinutes)
  {
  }

  /** A code is good for one use: after a successful consume the address has no record. */
  lemma SingleUse(records: Records, email: string, code: string, now: int, other: string,
                  code2: string, later: int, h: Hasher)
    requires Check(records, email, code, now, h) == Pass
    requires Lower(other) == Lower(email)
    ensures Check(Consume(records, email, code, now, h), other, code2, later, h) == Fail(NoCode)
  {
  }

  /**
   * No record is ever verified, so the "already used" check never fires:
   * single use comes from the deletion alone.
   */
  lemma NeverAlreadyUsed(records: Records, email: string, code: string, now: int, h: Hasher)
    requires WellFormed(records)
    ensures Check(records, email, code, now, h) != Fail(AlreadyUsed)
  {
  }

  /** The email_verifications table and the service's expiry setting. */
  class VerificationCodes {
    var records: Records
    const expirationMinutes: nat

    ghost predicate Valid()
      reads this
    {
      WellFormed(records)
    }

    constructor(expirationMinutes: nat := DefaultExpirationMinutes)
      ensures records == map[] && this.expirationMinutes == expirationMinutes && Valid()
    {
      records := map[];
      this.expirationMinutes := expirationMinutes;
    }

    /**
     * `requestCode`: six random digits; the address's record is replaced by
     * one holding the code's hash. The code is what would be e-mailed.
     */
    method RequestCode(email: string, draws: seq<nat>, salt: nat, h: Hasher, now: int) returns (code: string)
      requires Valid()
      requires |draws| == CodeLength && DecimalDraws(draws)
      modifies this
      ensures Valid()
      ensures code == GenerateCode(draws) && |code| == CodeLength
      ensures forall i :: 0 <= i < |code| ==> IsDigit(code[i])
      ensures records == Issue(old(records), email, h.hash(code, salt), now, expirationMinutes)
    {
      var key := Lower(email);
      code := GenerateCode(draws);
      GenerateCodeDigits(draws);
      var expiresAt := now + expirationMinutes * MillisPerMinute;
      records := records - {key};
      records := records[key := Record(key, h.hash(code, salt), now, expiresAt, false)];
      IssueWellFormed(old(records), email, h.hash(code, salt), now, expirationMinutes);
    }

    /** `consumeCode`: the record must exist, be unexpired, unverified and match; then it is deleted. */
    method ConsumeCode(email: string, code: string, h: Hasher, now: int) returns (r: Outcome<ConsumeError>)
      requires Valid()
      modifies this
      ensures Valid()
      ensures r == Check(old(records), email, code, now, h)
      ensures records == Consume(old(records), email, code, now, h)
      ensures r.Fail? ==> records == old(records)
    {
      var key := Lower(email);
      if key !in records {
        return Fail(NoCode);
      }
      var record := records[key];
      if !(record.expiresAt > now) {
        return Fail(Expired);
      }
      if record.verified {
        return Fail(AlreadyUsed);
      }
      if !h.verify(code, record.codeHash) {
        return Fail(WrongCode);
      }
      records := records - {key};
      r := Pass;
    }
  }
}

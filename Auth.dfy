/**
 * Accounts: registration behind an e-mail code, and password login. The
 * users table is keyed here by its unique e-mail column, compared exactly
 * as stored, while verification records are keyed by the lower-cased
 * address. JWT issuing is not modelled; ids, salts and the clock are inputs.
 */
module Auth {
  import opened Base
  import opened Strings
  import opened Models
  import opened Hashing
  import opened EmailVerification

  /** A row of the users table. */
  datatype UserRecord = UserRecord(
    id: string,
    email: string,
    passwordHash: string,
    name: string,
    role: UserRole,
    createdAt: int,
    updatedAt: int,
    lastLoginAt: Option<int>)

  /** The users table, by e-mail. */
  type Users = map<string, UserRecord>

  datatype AuthError =
    | EmailInUse                        // "이미 사용 중인 이메일입니다."
    | CodeRejected(reason: ConsumeError) // thrown by `consumeCode`
    | IdTaken                           // the insert's primary key collides
    | BadCredentials                    // "계정 정보를 확인해주세요."

  /** Every row sits under its own address, and no two rows share an id. */
  ghost predicate WellKeyed(users: Users)
  {
    && (forall e :: e in users ==> users[e].email == e)
    && (forall e1, e2 :: e1 in users && e2 in users && users[e1].id == users[e2].id ==> e1 == e2)
  }

  predicate IdInUse(users: Users, id: string)
  {
    exists e :: e in users && users[e].id == id
  }

  /** `UserRecord.toModel`: the row without its password hash. */
  function ToModel(record: UserRecord): (u: User)
    ensures u.id == record.id && u.email == record.email && u.name == record.name && u.role == record.role
    ensures u.createdAt == record.createdAt && u.updatedAt == record.updatedAt && u.lastLoginAt == record.lastLoginAt
  {
    User(record.id, record.email, record.name, record.role, record.createdAt, record.updatedAt, record.lastLoginAt)
  }

  /** `findByEmail`: an exact, case-sensitive match on the stored address. */
  function FindByEmail(users: Users, email: string): (r: Option<UserRecord>)
  {
    if email in users then Some(users[email]) else None
  }

  lemma FindByEmailExact(users: Users, email: string)
    requires WellKeyed(users)
    ensures FindByEmail(users, email).Some? <==> exists e :: e in users && users[e].email == email
    ensures FindByEmail(users, email).Some? ==> FindByEmail(users, email).value.email == email
  {
  }

  /** The row `register` inserts: only the password's hash is kept. */
  function NewUser(id: string, email: string, passwordHash: string, name: string, role: UserRole, now: int): UserRecord
  {
    UserRecord(id, email, passwordHash, name, role, now, now, None)
  }

  /** The row a successful login writes back. */
  function Touched(record: UserRecord, now: int): UserRecord
  {
    record.(lastLoginAt := Some(now), updatedAt := now)
  }

  /** The row whose password checks, if any; an unknown address and a wrong password look alike. */
  function Authenticate(users: Users, email: string, password: string, h: Hasher): (r: Option<UserRecord>)
    ensures r.Some? <==> email in users && h.verify(password, users[email].passwordHash)
    ensures r.Some? ==> r.value == users[email]
  {
    match FindByEmail(users, email)
    case None => None
    case Some(record) => if h.verify(password, record.passwordHash) then Some(record) else None
  }

  lemma InsertKeepsKeys(users: Users, record: UserRecord)
    requires WellKeyed(users)
    requires record.email !in users && !IdInUse(users, record.id)
    ensures WellKeyed(users[record.email := record])
  {
  }

  /**
   * A newly registered user can log in with the password it registered
   * with; the row has the chosen role, no login yet and equal creation and
   * update times.
   */
  lemma RegisterThenLogin(users: Users, id: string, email: string, password: string, salt: nat,
                          name: string, role: UserRole, now: int, h: Hasher)
    requires Sound(h)
    ensures var record := NewUser(id, email, h.hash(password, salt), name, role, now);
      && Authenticate(users[email := record], email, password, h) == Some(record)
      && ToModel(record).role == role && ToModel(record).lastLoginAt == None
      && ToModel(record).createdAt == ToModel(record).updatedAt
  {
    assert h.verify(password, h.hash(password, salt));
  }

  /** A login stamps both times with the same instant and changes nothing else the user sees. */
  lemma LoginStamps(record: UserRecord, now: int)
    ensures ToModel(Touched(record, now)) == ToModel(record).(lastLoginAt := Some(now), updatedAt := now)
    ensures Touched(record, now).passwordHash == record.passwordHash
  {
  }

  lemma TouchKeepsKeys(users: Users, email: string, now: int)
    requires WellKeyed(users) && email in users
    ensures WellKeyed(users[email := Touched(users[email], now)])
  {
  }

  /**
   * Addresses differing only in case are two accounts to the users table
   * but one verification record: an account under "A@x.io" does not stop
   * a code being requested for "a@x.io".
   */
  lemma CaseSplitsAccounts(users: Users, record: UserRecord)
    requires record.email == "A@x.io"
    ensures FindByEmail(users[record.email := record], "a@x.io") == FindByEmail(users, "a@x.io")
    ensures Lower("A@x.io") == Lower("a@x.io")
  {
    assert "A@x.io"[0] != "a@x.io"[0];
  }

  /** The service: the users table and the verification codes it consumes. */
  class AuthService {
    var users: Users
    const codes: VerificationCodes

    ghost predicate Valid()
      reads this, codes
    {
      WellKeyed(users) && codes.Valid()
    }

    constructor(codes: VerificationCodes)
      requires codes.Valid()
      ensures users == map[] && this.codes == codes && Valid()
    {
      users := map[];
      this.codes := codes;
    }

    /** `requestVerificationCode`: refused for a registered address, else a fresh code is issued. */
    method RequestVerificationCode(email: string, draws: seq<nat>, salt: nat, h: Hasher, now: int)
      returns (r: Result<string, AuthError>)
      requires Valid()
      requires |draws| == CodeLength && DecimalDraws(draws)
      modifies codes
      ensures Valid()
      ensures email in users ==> r == Err(EmailInUse) && codes.records == old(codes.records)
      ensures email !in users ==>
        && r.Ok? && r.value == GenerateCode(draws)
        && codes.records == Issue(old(codes.records), email, h.hash(r.value, salt), now, codes.expirationMinutes)
    {
      if FindByEmail(users, email).Some? {
        return Err(EmailInUse);
      }
      var code := codes.RequestCode(email, draws, salt, h, now);
      r := Ok(code);
    }

    /**
     * `register`: the address must be free, then the code is consumed, then
     * the row is inserted. A rejected code inserts nothing; an id collision
     * at the insert comes after the code is spent.
     */
    method Register(email: string, password: string, name: string, code: string, id: string, salt: nat,
                    h: Hasher, now: int, role: UserRole := UserRole.USER)
      returns (r: Result<User, AuthError>)
      requires Valid()
      modifies this, codes
      ensures Valid()
      ensures email in old(users) ==>
        r == Err(EmailInUse) && users == old(users) && codes.records == old(codes.records)
      ensures email !in old(users) ==>
        codes.records == Consume(old(codes.records), email, code, now, h)
      ensures email !in old(users) && Check(old(codes.records), email, code, now, h).Fail? ==>
        r == Err(CodeRejected(Check(old(codes.records), email, code, now, h).error)) && users == old(users)
      ensures email !in old(users) && Check(old(codes.records), email, code, now, h).Pass? && IdInUse(old(users), id) ==>
        r == Err(IdTaken) && users == old(users)
      ensures email !in old(users) && Check(old(codes.records), email, code, now, h).Pass? && !IdInUse(old(users), id) ==>
        var record := NewUser(id, email, h.hash(password, salt), name, role, now);
        users == old(users)[email := record] && r == Ok(ToModel(record))
    {
      if FindByEmail(users, email).Some? {
        return Err(EmailInUse);
      }
      var consumed := codes.ConsumeCode(email, code, h, now);
      if consumed.Fail? {
        return Err(CodeRejected(consumed.error));
      }
      if IdInUse(users, id) {
        return Err(IdTaken);
      }
      var record := NewUser(id, email, h.hash(password, salt), name, role, now);
      InsertKeepsKeys(users, record);
      users := users[email := record];
      r := Ok(ToModel(record));
    }

    /**
     * `login`: the same error for an unknown address and a wrong password;
     * on success the row's last-login and update times become `now`, and the
     * user returned carries them.
     */
    method Login(email: string, password: string, h: Hasher, now: int) returns (r: Result<User, AuthError>)
      requires Valid()
      modifies this
      ensures Valid()
      ensures Authenticate(old(users), email, password, h).None? ==> r == Err(BadCredentials) && users == old(users)
      ensures Authenticate(old(users), email, password, h).Some? ==>
        users == old(users)[email := Touched(old(users)[email], now)] && r == Ok(ToModel(Touched(old(users)[email], now)))
    {
      var found := FindByEmail(users, email);
      if found.None? {
        return Err(BadCredentials);
      }
      var record := found.value;
      if !h.verify(password, record.passwordHash) {
        return Err(BadCredentials);
      }
      TouchKeepsKeys(users, email, now);
      users := users[email := Touched(record, now)];
      r := Ok(ToModel(Touched(record, now)));
    }
  }
}

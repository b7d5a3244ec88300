/**
 * internal/repository/repository.go: the three helpers of the data layer
 * that hold a decision of their own. CheckPassword picks plain comparison or
 * bcrypt by the shape of the stored hash; CreateAgent stores a zero last-check
 * time as NULL; InitAdminUser creates the first administrator only when there
 * is none.
 *
 * The `users` and `agents` tables are sequences in a Repository object. The
 * database's own failures (a failed COUNT or INSERT) and bcrypt are
 * parameters.
 */
module Repository {
  import opened Wrappers
  import opened Strings
  import opened Model

  /** The number of bytes a character takes in UTF-8. */
  function Utf8Width(c: char): (n: nat)
    ensures 1 <= n <= 4
    ensures n == 1 <==> c as int < 0x80
  {
    if c as int < 0x80 then 1 else if c as int < 0x800 then 2 else if c as int < 0x1_0000 then 3 else 4
  }

  /** Go's `len` of a string: its length in UTF-8 bytes, not in characters. */
  function Utf8Len(s: string): (n: nat)
    ensures |s| <= n <= 4 * |s|
  {
    if s == [] then 0 else Utf8Width(s[0]) + Utf8Len(s[1..])
  }

  /** On ASCII text, bytes and characters agree. */
  lemma {:induction false} AsciiUtf8Len(s: string)
    requires forall k :: 0 <= k < |s| ==> s[k] as int < 0x80
    ensures Utf8Len(s) == |s|
  {
    if s != [] {
      AsciiUtf8Len(s[1..]);
    }
  }

  /** Text with no ASCII character takes at least two bytes per character. */
  lemma {:induction false} WideUtf8Len(s: string)
    requires forall k :: 0 <= k < |s| ==> s[k] as int >= 0x80
    ensures Utf8Len(s) >= 2 * |s|
  {
    if s != [] {
      WideUtf8Len(s[1..]);
    }
  }

  /** A stored password that looks like a bcrypt hash: 60 bytes long, starting with "$2". */
  predicate BcryptShaped(hash: string) {
    Utf8Len(hash) == 60 && HasPrefix(hash, "$2")
  }

  /**
   * CheckPassword: a hash that is not 60 bytes long, or does not start
   * with "$2", is compared with the password as plain text; any other is
   * handed to bcrypt (`bcryptMatches(hash, plain)`), whose answer is final.
   */
  function CheckPassword(plain: string, hash: string, bcryptMatches: (string, string) -> bool): (ok: bool)
    ensures Utf8Len(hash) != 60 ==> (ok <==> plain == hash)
    ensures !HasPrefix(hash, "$2") ==> (ok <==> plain == hash)
    ensures BcryptShaped(hash) ==> ok == bcryptMatches(hash, plain)
  {
    if Utf8Len(hash) != 60 || !HasPrefix(hash, "$2") then plain == hash else bcryptMatches(hash, plain)
  }

  /**
   * The length test counts bytes: a "$2" hash of 60 characters, 58 of them
   * Chinese, is 176 bytes long, so it is compared as plain text and accepts
   * itself whatever bcrypt would say.
   */
  lemma WideHashComparedAsText(bcryptMatches: (string, string) -> bool)
    ensures var h := "$2" + seq(58, _ => '密');
      |h| == 60 && !BcryptShaped(h) && CheckPassword(h, h, bcryptMatches)
  {
    var t := seq(58, _ => '密');
    var h := "$2" + t;
    assert h[1..][1..] == t;
    WideUtf8Len(t);
    assert Utf8Len(h) == 1 + Utf8Len(h[1..]) == 2 + Utf8Len(t);
  }

  /**
   * A bcrypt-shaped hash typed in as the password is accepted only if bcrypt
   * accepts it: the stored hash is never a password of its own.
   */
  lemma HashIsNotAPassword(hash: string, bcryptMatches: (string, string) -> bool)
    requires BcryptShaped(hash) && !bcryptMatches(hash, hash)
    ensures !CheckPassword(hash, hash, bcryptMatches)
  {
  }

  /** The last-check time CreateAgent stores: a present zero time becomes absent, anything else is kept. */
  function StoredLastCheck(t: Option<Time>): (r: Option<Time>)
    ensures r != Some(ZeroTime)
    ensures t != Some(ZeroTime) ==> r == t
    ensures t == Some(ZeroTime) ==> r == None
  {
    if t.Some? && t.value == ZeroTime then None else t
  }

  /** Normalising twice is normalising once. */
  lemma StoredLastCheckIdempotent(t: Option<Time>)
    ensures StoredLastCheck(StoredLastCheck(t)) == StoredLastCheck(t)
  {
  }

  /** How many users have the administrator role (the COUNT InitAdminUser runs). */
  function AdminCount(users: seq<User>): (n: nat)
    ensures n <= |users|
    ensures n == 0 <==> forall k :: 0 <= k < |users| ==> users[k].role != Admin
  {
    if users == [] then 0
    else (if users[0].role == Admin then 1 else 0) + AdminCount(users[1..])
  }

  lemma {:induction false} AdminCountAppend(users: seq<User>, u: User)
    ensures AdminCount(users + [u]) == AdminCount(users) + (if u.role == Admin then 1 else 0)
  {
    if users != [] {
      assert (users + [u])[1..] == users[1..] + [u];
      AdminCountAppend(users[1..], u);
    } else {
      assert (users + [u])[1..] == [];
    }
  }

  /** The administrator InitAdminUser inserts; the database assigns its id. */
  function NewAdmin(username: string, hashed: string): User {
    User(0, username, hashed, Admin, true)
  }

  /**
   * InitAdminUser as a function of the users table: the table afterwards and
   * the error returned. A failed COUNT is returned; an existing administrator
   * means nothing to do; otherwise the password is hashed and the new
   * administrator inserted, and either failure is returned.
   */
  function InitAdmin(users: seq<User>, username: string, password: string, countError: Option<string>,
                     hash: string -> Result<string, string>, insertError: Option<string>): (r: (seq<User>, Option<string>))
    ensures r.1.Some? ==> r.0 == users
    ensures r.0 != users ==> hash(password).Success? && r.0 == users + [NewAdmin(username, hash(password).value)]
    ensures r.1.None? ==> AdminCount(r.0) > 0
  {
    if countError.Some? then (users, countError)
    else if AdminCount(users) > 0 then (users, None)
    else match hash(password)
      case Failure(e) => (users, Some(e))
      case Success(hashed) =>
        if insertError.Some? then (users, insertError)
        else
          AdminCountAppend(users, NewAdmin(username, hashed));
          (users + [NewAdmin(username, hashed)], None)
  }

  /** Every failure of InitAdminUser leaves the table as it was. */
  lemma InitAdminFailureChangesNothing(users: seq<User>, username: string, password: string, countError: Option<string>,
                                       hash: string -> Result<string, string>, insertError: Option<string>)
    ensures var r := InitAdmin(users, username, password, countError, hash, insertError);
      r.1.Some? ==> r.0 == users
    ensures countError.Some? ==> InitAdmin(users, username, password, countError, hash, insertError) == (users, countError)
  {
  }

  /**
   * With no administrator and no failure, exactly one user is added: the
   * given name, the hashed password, the administrator role, enabled.
   */
  lemma InitAdminCreatesOne(users: seq<User>, username: string, password: string,
                            hash: string -> Result<string, string>)
    requires AdminCount(users) == 0 && hash(password).Success?
    ensures var r := InitAdmin(users, username, password, None, hash, None);
      && r.1 == None
      && r.0 == users + [User(0, username, hash(password).value, Admin, true)]
      && AdminCount(r.0) == 1
  {
    AdminCountAppend(users, NewAdmin(username, hash(password).value));
  }

  /**
   * A successful InitAdminUser leaves at least one administrator, so running
   * it again (whatever the name, password or database) changes nothing and
   * returns no error unless the COUNT fails.
   */
  lemma InitAdminIdempotent(users: seq<User>, username: string, password: string,
                            hash: string -> Result<string, string>, insertError: Option<string>,
                            username2: string, password2: string,
                            hash2: string -> Result<string, string>, insertError2: Option<string>)
    requires InitAdmin(users, username, password, None, hash, insertError).1 == None
    ensures var once := InitAdmin(users, username, password, None, hash, insertError).0;
      && AdminCount(once) > 0
      && InitAdmin(once, username2, password2, None, hash2, insertError2) == (once, None)
  {
    if AdminCount(users) == 0 {
      AdminCountAppend(users, NewAdmin(username, hash(password).value));
    }
  }

  class Repository {
    var users: seq<User>
    var agents: seq<Agent>

    constructor ()
      ensures users == [] && agents == []
    {
      users := [];
      agents := [];
    }

    /**
     * CreateAgent: the caller's agent, with a present zero last-check time
     * replaced by none, is what the INSERT writes; `stored` is that agent
     * as the caller sees it afterwards, whether or not the INSERT succeeds.
     */
    method CreateAgent(agent: Agent, dbError: Option<string>) returns (stored: Agent, err: Option<string>)
      modifies this
      ensures stored == agent.(lastCheckAt := StoredLastCheck(agent.lastCheckAt))
      ensures err == dbError
      ensures agents == if dbError.None? then old(agents) + [stored] else old(agents)
      ensures users == old(users)
    {
      stored := agent;
      if stored.lastCheckAt.Some? && stored.lastCheckAt.value == ZeroTime {
        stored := stored.(lastCheckAt := None);
      }
      err := dbError;
      if err.None? {
        agents := agents + [stored];
      }
    }

    /** InitAdminUser, step by step with its early returns. */
    method InitAdminUser(username: string, password: string, countError: Option<string>,
                         hash: string -> Result<string, string>, insertError: Option<string>)
      returns (err: Option<string>)
      modifies this
      ensures (users, err) == InitAdmin(old(users), username, password, countError, hash, insertError)
      ensures agents == old(agents)
    {
      if countError.Some? {
        return countError;
      }
      var count := AdminCount(users);
      if count > 0 {
        return None;
      }
      var hashed := hash(password);
      if hashed.Failure? {
        return Some(hashed.error);
      }
      var admin := User(0, username, hashed.value, Admin, true);
      err := insertError;
      if err.None? {
        users := users + [admin];
      }
    }
  }
}

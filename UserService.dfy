/**
  User lookups, login and join (UserService) over two stores: the user
  cache, keyed by user name, and the user table, keyed by user name.
  Password hashing, password matching and token generation are functions
  given to the service when it is built.
 */
module UserServices {
  import opened Wrappers
  import opened Errors
  import opened Users
  import Alarms

  type Cache = map<string, User>
  type Table = map<string, UserEntity>

  /** The detail text `String.format("userName is %s", userName)`. */
  function UserNameDetail(userName: string): string {
    "userName is " + userName
  }

  /**
    `loadUserByUserName`: the cached user if there is one, else the table's
    row copied by `fromEntity`, else USER_NOT_FOUND with the name as detail.
   */
  function LoadUserByUserName(cache: Cache, db: Table, userName: string): (r: Result<User, AppException>)
    ensures r.Failure? <==> userName !in cache && userName !in db
    ensures r.Failure? ==> r.error.errorCode == UserNotFound
  {
    if userName in cache then Success(cache[userName])
    else if userName in db then Success(FromEntity(db[userName]))
    else Failure(OfCodeAndMessage(UserNotFound, UserNameDetail(userName)))
  }

  /** Both stores are keyed by the name they hold. */
  predicate KeyedByName(cache: Cache, db: Table) {
    && (forall n :: n in cache ==> cache[n].username == n)
    && (forall n :: n in db ==> db[n].userName == n)
  }

  /** A cache hit is the answer, whatever the table holds. */
  lemma LoadPrefersCache(cache: Cache, db1: Table, db2: Table, userName: string)
    requires userName in cache
    ensures LoadUserByUserName(cache, db1, userName) == LoadUserByUserName(cache, db2, userName) == Success(cache[userName])
  {
  }

  /** On a cache miss the table decides: its row via `fromEntity`, or USER_NOT_FOUND when both miss. */
  lemma LoadFallsBackToTable(cache: Cache, db: Table, userName: string)
    requires userName !in cache
    ensures userName in db ==> LoadUserByUserName(cache, db, userName) == Success(FromEntity(db[userName]))
    ensures userName !in db ==>
      LoadUserByUserName(cache, db, userName) == Failure(AppException(UserNotFound, Some("userName is " + userName)))
  {
  }

  /** With stores keyed by name, a loaded user carries the requested name. */
  lemma LoadedUserHasName(cache: Cache, db: Table, userName: string)
    requires KeyedByName(cache, db)
    ensures LoadUserByUserName(cache, db, userName).Success? ==> LoadUserByUserName(cache, db, userName).value.username == userName
  {
  }

  /**
    `alarmList(userId)`: the stored alarms whose owner is `userId`, in store
    order (paging is not part of this model).
   */
  function AlarmList(alarms: seq<Alarms.AlarmRecord>, userId: int): (r: seq<Alarms.AlarmRecord>)
    ensures forall a :: a in r ==> a in alarms && a.userId == userId
    ensures forall a :: a in alarms && a.userId == userId ==> a in r
    ensures |r| <= |alarms|
  {
    if |alarms| == 0 then []
    else
      var rest := AlarmList(alarms[1..], userId);
      if alarms[0].userId == userId then [alarms[0]] + rest else rest
  }

  /** Listing distributes over concatenation of stores. */
  lemma {:induction false} AlarmListAppend(a: seq<Alarms.AlarmRecord>, b: seq<Alarms.AlarmRecord>, userId: int)
    ensures AlarmList(a + b, userId) == AlarmList(a, userId) + AlarmList(b, userId)
    decreases |a|
  {
    if |a| > 0 {
      assert (a + b)[1..] == a[1..] + b;
      AlarmListAppend(a[1..], b, userId);
    } else {
      assert a + b == b;
    }
  }

  /**
    After `send` stores an alarm, the receiver's list ends with exactly that
    alarm and every other user's list is unchanged.
   */
  lemma AlarmListAfterSend(s: Alarms.Dispatch, alarmType: Alarms.AlarmType, args: Alarms.AlarmArgs,
                           receiverId: int, push: Alarms.PushOutcome, userId: int)
    requires receiverId in s.users
    ensures var t := Alarms.SendStep(s, alarmType, args, receiverId, push).0;
      AlarmList(t.alarms, userId)
        == AlarmList(s.alarms, userId)
           + (if userId == receiverId then [Alarms.NextRecord(s, alarmType, args, receiverId)] else [])
  {
    var record := Alarms.NextRecord(s, alarmType, args, receiverId);
    AlarmListAppend(s.alarms, [record], userId);
    assert [record][1..] == [];
  }

  class UserService {
    var cache: Cache
    var db: Table
    var nextId: int
    /** `encoder.matches(raw, encoded)`. */
    const matches: (string, string) -> bool
    /** `encoder.encode(raw)`. */
    const encode: string -> string
    /** `generateAccessToken(userName, secretKey, expiredTimeMs)` for this service's key and lifetime. */
    const generateToken: string -> string
    /** The role a new row gets. */
    const defaultRole: UserRole

    ghost predicate Valid()
      reads this
    {
      && KeyedByName(cache, db)
      && (forall n :: n in db ==> db[n].id < nextId)
    }

    constructor (matches: (string, string) -> bool, encode: string -> string,
                 generateToken: string -> string, defaultRole: UserRole)
      ensures Valid() && cache == map[] && db == map[]
      ensures this.matches == matches && this.encode == encode
      ensures this.generateToken == generateToken && this.defaultRole == defaultRole
    {
      cache := map[];
      db := map[];
      nextId := 1;
      this.matches := matches;
      this.encode := encode;
      this.generateToken := generateToken;
      this.defaultRole := defaultRole;
    }

    /**
      `login`: load the user, write it to the cache, and only then check the
      password; a wrong password fails with INVALID_PASSWORD after the cache
      was written; a right one yields the token for `userName`.
     */
    method Login(userName: string, password: string) returns (r: Result<string, AppException>)
      requires Valid()
      modifies this
      ensures Valid()
      ensures db == old(db) && nextId == old(nextId)
      ensures match LoadUserByUserName(old(cache), old(db), userName)
        case Failure(e) => r == Failure(e) && cache == old(cache)
        case Success(u) =>
          && cache == old(cache)[u.username := u]
          && (matches(password, u.password) ==> r == Success(generateToken(userName)))
          && (!matches(password, u.password) ==> r == Failure(OfCode(InvalidPassword)))
    {
      var loaded := LoadUserByUserName(cache, db, userName);
      if loaded.Failure? {
        return Failure(loaded.error);
      }
      var savedUser := loaded.value;
      cache := cache[savedUser.username := savedUser];
      if !matches(password, savedUser.password) {
        return Failure(OfCode(InvalidPassword));
      }
      r := Success(generateToken(userName));
    }

    /**
      `join`: a taken name fails with DUPLICATED_USER_NAME and saves nothing;
      a new name saves one row holding the encoded password, registered at
      `now`, and returns it as a `User`.
     */
    method Join(userName: string, password: string, now: Timestamp) returns (r: Result<User, AppException>)
      requires Valid()
      modifies this
      ensures Valid()
      ensures cache == old(cache)
      ensures userName in old(db) ==>
        && r == Failure(OfCodeAndMessage(DuplicatedUserName, UserNameDetail(userName)))
        && db == old(db) && nextId == old(nextId)
      ensures userName !in old(db) ==>
        var row := UserEntity(old(nextId), userName, encode(password), defaultRole, Some(now), None, None);
        && db == old(db)[userName := row]
        && (forall n :: n in old(db) ==> old(db)[n].id != row.id)
        && r == Success(FromEntity(row))
        && r.value.password == encode(password)
    {
      if userName in db {
        return Failure(OfCodeAndMessage(DuplicatedUserName, UserNameDetail(userName)));
      }
      var row := UserEntity(nextId, userName, encode(password), defaultRole, Some(now), None, None);
      db := db[userName := row];
      nextId := nextId + 1;
      r := Success(FromEntity(row));
    }
  }
}

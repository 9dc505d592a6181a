/**
 * The "users" collection of the document store and the three operations the bot performs on it:
 * get-or-create, add-a-delta, and the top-k query for the leaderboard.
 *
 * The collection is a map from user id to document. A document either decodes into a `User`
 * or it does not (`Undecodable`: a record whose fields have the wrong types). Every store access
 * the Go code makes can fail; whether it does is an input (`GetUserIo`, `UpdateIo`), and the
 * rows the server-side ordered query yields are an input too (`Fetch`).
 */
module Database {
  import opened Wrappers
  import opened Models

  /** The grant a user is created with. */
  const InitialCoins: int := 5
  /** The leaderboard size used when the caller asks for a non-positive one. */
  const LeaderboardLimit: int := 10

  datatype Doc = Record(user: User) | Undecodable

  type Users = map<string, Doc>

  /**
   * The outcome of the I/O GetUser performs: whether reading the document succeeds (a missing
   * document is a failed read), what Slack's users.info gives as the name when it is asked
   * (None when that call fails), and whether writing a new document succeeds.
   */
  datatype GetUserIo = GetUserIo(readOk: bool, slackName: Option<string>, writeOk: bool)

  /** The outcome of the read and of the write UpdateCoins performs. */
  datatype UpdateIo = UpdateIo(readOk: bool, writeOk: bool)

  /** Why UpdateCoins failed: the read (including "not found"), the decoding, or the write. */
  datatype StoreError = ReadFailed | DecodeFailed | WriteFailed | IterationFailed

  /** One ledger operation, as the ghost call log of `Store` records it. */
  datatype StoreCall = GetUserCall(userId: string) | UpdateCoinsCall(userId: string, delta: int)

  /** A result together with the collection after the operation. */
  datatype Step<T> = Step(value: T, users: Users)

  /** One step of the leaderboard query's iterator: a document with its id, or an error. */
  datatype Fetch = Row(id: string, doc: Doc) | Broken

  /** The name a new user is created with: the given one, else Slack's, else the id itself. */
  function NewUsername(userId: string, username: string, slackName: Option<string>): string {
    if username != "" then username
    else match slackName
      case Some(name) => name
      case None => userId
  }

  /** What database.GetUser returns and leaves in the collection. It never reports an error. */
  function GetUserStep(users: Users, userId: string, username: string, io: GetUserIo): Step<User> {
    if !io.readOk || userId !in users then
      var user := User(userId, NewUsername(userId, username, io.slackName), InitialCoins);
      Step(user, if io.writeOk then users[userId := Record(user)] else users)
    else
      match users[userId]
      case Record(user) => Step(user, users)
      case Undecodable => Step(User(userId, username, InitialCoins), users)
  }

  /** What database.UpdateCoins returns and leaves in the collection. */
  function UpdateCoinsStep(users: Users, userId: string, delta: int, io: UpdateIo): Step<Result<int, StoreError>> {
    if !io.readOk || userId !in users then Step(Failure(ReadFailed), users)
    else
      match users[userId]
      case Undecodable => Step(Failure(DecodeFailed), users)
      case Record(user) =>
        if !io.writeOk then Step(Failure(WriteFailed), users)
        else Step(Success(user.coins + delta), users[userId := Record(user.(coins := user.coins + delta))])
  }

  /** The limit GetLeaderboard passes to the query. */
  function EffectiveLimit(limit: int): (n: int)
    ensures n > 0
    ensures limit > 0 ==> n == limit
    ensures limit <= 0 ==> n == LeaderboardLimit
  {
    if limit <= 0 then LeaderboardLimit else limit
  }

  /** The users the leaderboard loop collects: the decodable rows before the first error. */
  function Gathered(rows: seq<Fetch>): seq<User> {
    if rows == [] then []
    else match rows[0]
      case Broken => []
      case Row(_, Undecodable) => Gathered(rows[1..])
      case Row(_, Record(user)) => [user] + Gathered(rows[1..])
  }

  predicate HasBroken(rows: seq<Fetch>) {
    exists i :: 0 <= i < |rows| && rows[i].Broken?
  }

  predicate RecordRow(f: Fetch) {
    f.Row? && f.doc.Record?
  }

  predicate Descending(top: seq<User>) {
    forall i, j :: 0 <= i < j < |top| ==> top[i].coins >= top[j].coins
  }

  /** Some row is the document stored under `k`. */
  predicate Listed(rows: seq<Fetch>, k: string) {
    exists i :: 0 <= i < |rows| && rows[i].Row? && rows[i].id == k
  }

  /**
   * What the server-side query (users ordered by coins, descending, at most `limit` of them)
   * promises of the rows it yields: at most `limit` of them, each the document stored under its
   * id, no document twice, the decodable ones in non-increasing order of coins, and, when the
   * iteration does not fail, the highest balances: a decodable account whose document is not
   * among the rows was left out only because the limit was reached, and has no more coins than
   * any decodable row. Ties are in no particular order. Every document the bot writes has a
   * coins field, so none is left out of the ordering for lacking one.
   */
  predicate QueryServed(users: Users, limit: int, rows: seq<Fetch>) {
    && |rows| <= limit
    && (forall i | 0 <= i < |rows| && rows[i].Row? :: rows[i].id in users && users[rows[i].id] == rows[i].doc)
    && (forall i, j | 0 <= i < j < |rows| && rows[i].Row? && rows[j].Row? :: rows[i].id != rows[j].id)
    && (forall i, j :: 0 <= i < j < |rows| && RecordRow(rows[i]) && RecordRow(rows[j]) ==>
          rows[i].doc.user.coins >= rows[j].doc.user.coins)
    && (!HasBroken(rows) ==>
          forall k | k in users && users[k].Record? && !Listed(rows, k) ::
            && |rows| == limit
            && forall i | 0 <= i < |rows| && RecordRow(rows[i]) :: rows[i].doc.user.coins >= users[k].user.coins)
  }

  /**
   * The board `top`, built from `rows`, holds the highest balances of the collection: every
   * decodable account among the rows is on it, and an account whose document is not among the
   * rows has no more coins than anyone on it.
   */
  predicate HoldsHighest(users: Users, rows: seq<Fetch>, top: seq<User>) {
    && (forall k | k in users && users[k].Record? && Listed(rows, k) :: users[k].user in top)
    && (forall k, v | k in users && users[k].Record? && !Listed(rows, k) && v in top :: v.coins >= users[k].user.coins)
  }

  /** Every collected user comes from a decodable row, and there are no more of them than rows. */
  lemma {:induction false} GatheredFromRows(rows: seq<Fetch>)
    ensures |Gathered(rows)| <= |rows|
    ensures forall u | u in Gathered(rows) :: exists i :: 0 <= i < |rows| && RecordRow(rows[i]) && rows[i].doc.user == u
  {
    if rows != [] {
      var rest := rows[1..];
      GatheredFromRows(rest);
      forall u | u in Gathered(rest)
        ensures exists i :: 0 <= i < |rows| && RecordRow(rows[i]) && rows[i].doc.user == u
      {
        var i :| 0 <= i < |rest| && RecordRow(rest[i]) && rest[i].doc.user == u;
        assert rows[i + 1] == rest[i];
      }
    }
  }

  /** Without an iteration error, every decodable row is collected. */
  lemma {:induction false} GatheredAll(rows: seq<Fetch>)
    requires !HasBroken(rows)
    ensures forall i | 0 <= i < |rows| && RecordRow(rows[i]) :: rows[i].doc.user in Gathered(rows)
  {
    if rows != [] {
      var rest := rows[1..];
      assert !HasBroken(rest) by {
        forall i | 0 <= i < |rest| ensures !rest[i].Broken? {
          assert rest[i] == rows[i + 1];
        }
      }
      GatheredAll(rest);
      forall i | 0 <= i < |rows| && RecordRow(rows[i]) ensures rows[i].doc.user in Gathered(rows) {
        if i > 0 {
          assert rest[i - 1] == rows[i];
        }
      }
    }
  }

  /**
   * A query that served the top rows without failing gives a board of the highest balances, and
   * an account is left off it only when the query's limit was reached.
   */
  lemma GatheredHighest(users: Users, limit: int, rows: seq<Fetch>)
    requires QueryServed(users, limit, rows) && !HasBroken(rows)
    ensures HoldsHighest(users, rows, Gathered(rows))
    ensures forall k | k in users && users[k].Record? && users[k].user !in Gathered(rows) :: |rows| == limit
  {
    var top := Gathered(rows);
    GatheredAll(rows);
    GatheredFromRows(rows);
    forall k | k in users && users[k].Record? && Listed(rows, k) ensures users[k].user in top {
      var i :| 0 <= i < |rows| && rows[i].Row? && rows[i].id == k;
      assert RecordRow(rows[i]);
    }
    forall k, v | k in users && users[k].Record? && !Listed(rows, k) && v in top
      ensures v.coins >= users[k].user.coins
    {
      var i :| 0 <= i < |rows| && RecordRow(rows[i]) && rows[i].doc.user == v;
    }
  }

  /**
   * The design's example: with balances 50, 30, 80 and 10, the only board a top-two query may
   * produce without an error is [80, 50], in that order.
   */
  lemma TopTwoExample(users: Users, rows: seq<Fetch>, a: User, b: User, c: User, d: User)
    requires a == User("A", "ann", 80) && b == User("B", "bob", 50) && c == User("C", "cy", 30) && d == User("D", "di", 10)
    requires users == map["B" := Record(b), "C" := Record(c), "A" := Record(a), "D" := Record(d)]
    ensures QueryServed(users, 2, rows) && !HasBroken(rows) ==> Gathered(rows) == [a, b]
  {
    if QueryServed(users, 2, rows) && !HasBroken(rows) {
      assert users.Keys == {"A", "B", "C", "D"};
      TopTwoServed(users, rows, "A", "B", "C", "D", a, b, c, d);
      var tail := [Row("B", Record(b))];
      assert rows[1..] == tail && tail[1..] == [];
      assert Gathered(tail) == [b] + Gathered([]);
      assert Gathered(rows) == [a] + Gathered(tail);
    }
  }

  /** In the same example, the rows of 80 and 50 are what the query may serve. */
  lemma TopTwoRows(users: Users, a: User, b: User, c: User, d: User)
    requires a == User("A", "ann", 80) && b == User("B", "bob", 50) && c == User("C", "cy", 30) && d == User("D", "di", 10)
    requires users == map["B" := Record(b), "C" := Record(c), "A" := Record(a), "D" := Record(d)]
    ensures QueryServed(users, 2, [Row("A", Record(a)), Row("B", Record(b))])
  {
    var good := [Row("A", Record(a)), Row("B", Record(b))];
    assert Listed(good, "A") && Listed(good, "B") by {
      assert good[0].id == "A" && good[1].id == "B";
    }
  }

  /**
   * A top-two query that does not fail, over two or more decodable accounts, serves two distinct
   * stored documents, richer first, and every other account has at most the second one's coins.
   */
  lemma ServedTwo(users: Users, rows: seq<Fetch>, kc: string, kd: string)
    requires forall k | k in users :: users[k].Record?
    requires kc != kd && kc in users && kd in users
    requires QueryServed(users, 2, rows) && !HasBroken(rows)
    ensures |rows| == 2 && rows[0].Row? && rows[1].Row? && rows[0].id != rows[1].id
    ensures rows[0].id in users && users[rows[0].id] == rows[0].doc
    ensures rows[1].id in users && users[rows[1].id] == rows[1].doc
    ensures rows[0].doc.user.coins >= rows[1].doc.user.coins
    ensures forall k | k in users && k != rows[0].id && k != rows[1].id :: rows[1].doc.user.coins >= users[k].user.coins
  {
    assert |rows| < 2 ==> !Listed(rows, kc) || !Listed(rows, kd);
    forall k | k in users && k != rows[0].id && k != rows[1].id
      ensures rows[1].doc.user.coins >= users[k].user.coins
    {
      assert !Listed(rows, k);
    }
  }

  /**
   * Over four accounts whose two richest are strictly ahead of the others and of each other, a
   * top-two query that does not fail serves exactly those two, richest first.
   */
  lemma TopTwoServed(users: Users, rows: seq<Fetch>, ka: string, kb: string, kc: string, kd: string, a: User, b: User, c: User, d: User)
    requires ka != kb && ka != kc && ka != kd && kb != kc && kb != kd && kc != kd
    requires a.coins > b.coins > c.coins && b.coins > d.coins
    requires users.Keys == {ka, kb, kc, kd}
    requires users[ka] == Record(a) && users[kb] == Record(b) && users[kc] == Record(c) && users[kd] == Record(d)
    requires QueryServed(users, 2, rows) && !HasBroken(rows)
    ensures rows == [Row(ka, Record(a)), Row(kb, Record(b))]
  {
    ServedTwo(users, rows, kc, kd);
    TopTwoPick(users, rows[0].id, rows[1].id, rows[0].doc.user, rows[1].doc.user, ka, kb, kc, kd, a, b, c, d);
  }

  /**
   * Two distinct accounts, the second of which is at least as rich as every account other than
   * the two, and the first at least as rich as the second, are the two richest ones.
   */
  lemma TopTwoPick(users: Users, i0: string, i1: string, first: User, second: User, ka: string, kb: string, kc: string, kd: string, a: User, b: User, c: User, d: User)
    requires ka != kb && ka != kc && ka != kd && kb != kc && kb != kd && kc != kd
    requires a.coins > b.coins > c.coins && b.coins > d.coins
    requires users.Keys == {ka, kb, kc, kd}
    requires users[ka] == Record(a) && users[kb] == Record(b) && users[kc] == Record(c) && users[kd] == Record(d)
    requires i0 != i1 && i0 in users && i1 in users && users[i0] == Record(first) && users[i1] == Record(second)
    requires first.coins >= second.coins
    requires forall k | k in users && k != i0 && k != i1 :: second.coins >= users[k].user.coins
    ensures i0 == ka && i1 == kb
  {
  }

  /** Rows in non-increasing order of coins give a leaderboard in non-increasing order. */
  lemma {:induction false} GatheredDescending(rows: seq<Fetch>)
    requires forall i, j :: 0 <= i < j < |rows| && RecordRow(rows[i]) && RecordRow(rows[j]) ==>
               rows[i].doc.user.coins >= rows[j].doc.user.coins
    ensures Descending(Gathered(rows))
  {
    if rows != [] {
      var rest := rows[1..];
      GatheredDescending(rest);
      if RecordRow(rows[0]) {
        GatheredFromRows(rest);
        forall u | u in Gathered(rest) ensures rows[0].doc.user.coins >= u.coins {
          var k :| 0 <= k < |rest| && RecordRow(rest[k]) && rest[k].doc.user == u;
          assert rows[k + 1] == rest[k];
        }
      }
    }
  }

  /** The balance a document contributes to the money supply. */
  function Balance(d: Doc): int {
    match d
    case Record(user) => user.coins
    case Undecodable => 0
  }

  /** The total number of coins held in the collection. */
  ghost function Supply(users: Users): int
    decreases |users|
  {
    if users == map[] then 0
    else
      var k :| k in users;
      Balance(users[k]) + Supply(users - {k})
  }

  /** The supply is any one account's balance plus the supply of the others. */
  lemma {:induction false} SupplyRemove(users: Users, k: string)
    requires k in users
    ensures Supply(users) == Balance(users[k]) + Supply(users - {k})
    decreases |users|
  {
    var k0 :| k0 in users && Supply(users) == Balance(users[k0]) + Supply(users - {k0});
    if k0 != k {
      SupplyRemove(users - {k0}, k);
      SupplyRemove(users - {k}, k0);
      assert users - {k0} - {k} == users - {k} - {k0};
    }
  }

  /** Writing one document changes the supply by the difference of its balances. */
  lemma SupplyUpdate(users: Users, k: string, d: Doc)
    ensures Supply(users[k := d]) == Supply(users) - (if k in users then Balance(users[k]) else 0) + Balance(d)
  {
    SupplyRemove(users[k := d], k);
    assert users[k := d] - {k} == users - {k};
    if k in users {
      SupplyRemove(users, k);
    } else {
      assert users - {k} == users;
    }
  }

  /** GetUser touches no document but the user's own, and at most writes back what it returns. */
  lemma GetUserFrame(users: Users, userId: string, username: string, io: GetUserIo)
    ensures var s := GetUserStep(users, userId, username, io);
      s.users == users || s.users == users[userId := Record(s.value)]
  {
  }

  /** GetUser returns the stored record, or a fresh account of the user's id with the 5-coin grant. */
  lemma GetUserResult(users: Users, userId: string, username: string, io: GetUserIo)
    ensures var s := GetUserStep(users, userId, username, io);
      || (userId in users && users[userId] == Record(s.value) && s.users == users)
      || (s.value.userId == userId && s.value.coins == InitialCoins)
  {
  }

  /** A readable, decodable document is returned exactly as stored, and nothing is written. */
  lemma GetUserStored(users: Users, userId: string, username: string, io: GetUserIo)
    requires io.readOk && userId in users && users[userId].Record?
    ensures GetUserStep(users, userId, username, io) == Step(users[userId].user, users)
  {
  }

  /** A readable document that does not decode yields a default 5-coin user; nothing is written. */
  lemma GetUserUndecodable(users: Users, userId: string, username: string, io: GetUserIo)
    requires io.readOk && userId in users && users[userId].Undecodable?
    ensures GetUserStep(users, userId, username, io) == Step(User(userId, username, InitialCoins), users)
  {
  }

  /**
   * Any failed read takes the create path: the new account has the 5-coin grant and the chosen
   * name, and it is stored when (and only when) the write succeeds, replacing whatever document
   * was there. A failed write still returns the account and leaves the collection as it was.
   */
  lemma GetUserCreates(users: Users, userId: string, username: string, io: GetUserIo)
    requires !io.readOk || userId !in users
    ensures var s := GetUserStep(users, userId, username, io);
      && s.value == User(userId, NewUsername(userId, username, io.slackName), InitialCoins)
      && (io.writeOk ==> userId in s.users && s.users[userId] == Record(s.value))
      && (!io.writeOk ==> s.users == users)
  {
  }

  /** A transient read failure on an existing account resets it to the 5-coin grant. */
  lemma ReadFailureResetsBalance(users: Users, userId: string, username: string, io: GetUserIo)
    requires userId in users && !io.readOk && io.writeOk
    ensures Balance(GetUserStep(users, userId, username, io).users[userId]) == InitialCoins
  {
  }

  /** An account created by GetUser is found as created by the next GetUser that can read it. */
  lemma GetUserCreateThenGet(users: Users, userId: string, username: string, io1: GetUserIo, io2: GetUserIo)
    requires io1.writeOk && io2.readOk
    ensures var s1 := GetUserStep(users, userId, username, io1);
      GetUserStep(s1.users, userId, username, io2) == s1
  {
  }

  /** The chosen name for a new account: the given one, then Slack's, then the id. */
  lemma NewUsernamePreference(userId: string, username: string, slackName: Option<string>)
    ensures username != "" ==> NewUsername(userId, username, slackName) == username
    ensures username == "" && slackName.Some? ==> NewUsername(userId, username, slackName) == slackName.value
    ensures username == "" && slackName.None? ==> NewUsername(userId, username, slackName) == userId
  {
  }

  /**
   * UpdateCoins succeeds exactly when the document can be read and decoded and the write
   * succeeds; then it returns old + delta and changes only the coins of that one document.
   * On any failure nothing changes.
   */
  lemma UpdateCoinsOutcome(users: Users, userId: string, delta: int, io: UpdateIo)
    ensures var s := UpdateCoinsStep(users, userId, delta, io);
      && (s.value.Success? <==> io.readOk && userId in users && users[userId].Record? && io.writeOk)
      && (s.value.Success? ==>
            var old_user := users[userId].user;
            && s.value.value == old_user.coins + delta
            && s.users == users[userId := Record(old_user.(coins := old_user.coins + delta))])
      && (s.value.Failure? ==> s.users == users)
  {
  }

  /** A successful UpdateCoins changes the money supply by exactly delta. */
  lemma UpdateCoinsSupply(users: Users, userId: string, delta: int, io: UpdateIo)
    requires UpdateCoinsStep(users, userId, delta, io).value.Success?
    ensures Supply(UpdateCoinsStep(users, userId, delta, io).users) == Supply(users) + delta
  {
    var user := users[userId].user;
    SupplyUpdate(users, userId, Record(user.(coins := user.coins + delta)));
  }

  /** Adding delta and then -delta, both successfully, restores the collection. */
  lemma UpdateCoinsInverse(users: Users, userId: string, delta: int, io1: UpdateIo, io2: UpdateIo)
    requires UpdateCoinsStep(users, userId, delta, io1).value.Success?
    requires io2.readOk && io2.writeOk
    ensures var s1 := UpdateCoinsStep(users, userId, delta, io1);
      UpdateCoinsStep(s1.users, userId, -delta, io2) == Step(Success(users[userId].user.coins), users)
  {
    var user := users[userId].user;
    assert user.(coins := user.coins + delta).(coins := user.coins + delta - delta) == user;
    assert users[userId := Record(user.(coins := user.coins + delta))][userId := Record(user)] == users;
  }

  /** The collection, updated in place by the three operations of database.go. */
  class Store {
    var users: Users
    /** Every operation called on the store, in order. */
    ghost var calls: seq<StoreCall>

    constructor (initial: Users)
      ensures users == initial && calls == []
    {
      users := initial;
      calls := [];
    }

    /** database.GetUser: get-or-create. There is no error result: the Go code never returns one. */
    method GetUser(userId: string, username: string, io: GetUserIo) returns (user: User)
      modifies this
      ensures Step(user, users) == GetUserStep(old(users), userId, username, io)
      ensures calls == old(calls) + [GetUserCall(userId)]
    {
      calls := calls + [GetUserCall(userId)];
      if !io.readOk || userId !in users {
        // Not found or not readable: create the user.
        var actualUsername := username;
        if actualUsername == "" {
          match io.slackName {
            case Some(name) => actualUsername := name;
            case None => actualUsername := userId;
          }
        }
        user := User(userId, actualUsername, InitialCoins);
        if io.writeOk {
          users := users[userId := Record(user)];
        }
        // A failed write is only logged: the new user is returned anyway.
        return;
      }
      match users[userId] {
        case Record(stored) => user := stored;
        case Undecodable => user := User(userId, username, InitialCoins);
      }
    }

    /** database.UpdateCoins: read the balance, add delta, write it back. */
    method UpdateCoins(userId: string, delta: int, io: UpdateIo) returns (r: Result<int, StoreError>)
      modifies this
      ensures Step(r, users) == UpdateCoinsStep(old(users), userId, delta, io)
      ensures calls == old(calls) + [UpdateCoinsCall(userId, delta)]
    {
      calls := calls + [UpdateCoinsCall(userId, delta)];
      if !io.readOk || userId !in users {
        return Failure(ReadFailed);
      }
      var doc := users[userId];
      if doc.Undecodable? {
        return Failure(DecodeFailed);
      }
      var newAmount := doc.user.coins + delta;
      if !io.writeOk {
        return Failure(WriteFailed);
      }
      users := users[userId := Record(doc.user.(coins := newAmount))];
      r := Success(newAmount);
    }

    /**
     * database.GetLeaderboard: drain the ordered query, skipping documents that do not decode
     * and stopping at the first iteration error with what was gathered so far.
     */
    method GetLeaderboard(limit: int, rows: seq<Fetch>) returns (top: seq<User>, err: Option<StoreError>)
      ensures top == Gathered(rows)
      ensures err.Some? <==> HasBroken(rows)
      ensures QueryServed(users, EffectiveLimit(limit), rows) ==>
        && |top| <= EffectiveLimit(limit)
        && Descending(top)
        && (forall u | u in top :: Record(u) in users.Values)
      ensures QueryServed(users, EffectiveLimit(limit), rows) && err.None? ==>
        && HoldsHighest(users, rows, top)
        && forall k | k in users && users[k].Record? && users[k].user !in top :: |rows| == EffectiveLimit(limit)
    {
      top, err := [], None;
      var i := 0;
      while i < |rows|
        invariant 0 <= i <= |rows|
        invariant Gathered(rows) == top + Gathered(rows[i..])
        invariant forall j :: 0 <= j < i ==> !rows[j].Broken?
      {
        assert rows[i..][1..] == rows[i + 1..];
        match rows[i] {
          case Broken =>
            err := Some(IterationFailed);
            break;
          case Row(_, Undecodable) =>
          case Row(_, Record(user)) =>
            top := top + [user];
        }
        i := i + 1;
      }
      GatheredFromRows(rows);
      if QueryServed(users, EffectiveLimit(limit), rows) {
        GatheredDescending(rows);
        forall u | u in top ensures Record(u) in users.Values {
          assert u in Gathered(rows);
          var k :| 0 <= k < |rows| && RecordRow(rows[k]) && rows[k].doc.user == u;
          assert users[rows[k].id] == Record(u);
        }
        if err.None? {
          GatheredHighest(users, EffectiveLimit(limit), rows);
        }
      }
    }
  }
}

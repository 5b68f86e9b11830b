/**
 * An in-memory stand-in for the hosted database the pages talk to. The
 * four tables are sequences in insertion order; each call the pages make
 * is a function of the tables (a read) or a `Store` method (a write) that
 * takes the call's outcome, success or failure, as an explicit argument.
 */
module Backend {
  import opened Wrappers
  import opened Rows

  datatype Tables = Tables(profiles: seq<Profile>, matches: seq<Match>, messages: seq<Message>, credits: seq<Credit>)

  /** `NotSingle` is PostgREST's PGRST116: a `.single()` read matched zero rows or several. */
  datatype ReadError = NotSingle | Failed

  /** The outcome of a `.single()` read. */
  datatype Single<+T> = Found(row: T) | Error(code: ReadError)

  // ----- queries -----

  /** The rows of `s` that satisfy `keep`, in table order: an `.eq(...)` / `.neq(...)` filter. */
  function Filter<T>(s: seq<T>, keep: T -> bool): (r: seq<T>)
    ensures |r| <= |s|
    ensures forall x :: x in r ==> x in s && keep(x)
    ensures forall x :: x in s && keep(x) ==> x in r
  {
    if s == [] then []
    else if keep(s[0]) then [s[0]] + Filter(s[1..], keep)
    else Filter(s[1..], keep)
  }

  /** A row appended to a table shows up at the end of every filter it passes. */
  lemma {:induction false} FilterAppend<T>(s: seq<T>, x: T, keep: T -> bool)
    ensures Filter(s + [x], keep) == Filter(s, keep) + (if keep(x) then [x] else [])
  {
    if s == [] {
      assert s + [x] == [x] && [x][1..] == [];
    } else {
      assert (s + [x])[0] == s[0] && (s + [x])[1..] == s[1..] + [x];
      FilterAppend(s[1..], x, keep);
    }
  }

  /** Two filters that agree on every row of the table select the same rows. */
  lemma {:induction false} FilterCongruent<T>(s: seq<T>, f: T -> bool, g: T -> bool)
    requires forall x :: x in s ==> f(x) == g(x)
    ensures Filter(s, f) == Filter(s, g)
  {
    if s != [] {
      FilterCongruent(s[1..], f, g);
    }
  }

  /** A filter that no row passes selects nothing. */
  lemma {:induction false} FilterNone<T>(s: seq<T>, keep: T -> bool)
    requires forall x :: x in s ==> !keep(x)
    ensures Filter(s, keep) == []
  {
    if s != [] {
      FilterNone(s[1..], keep);
    }
  }

  /** `.limit(n)`: the first `n` rows the query yields. */
  function Take<T>(s: seq<T>, n: nat): (r: seq<T>)
    ensures |r| == if |s| <= n then |s| else n
    ensures r == s[..|r|]
  {
    if |s| <= n then s else s[..n]
  }

  /** `.single()` over the rows a query matched, when the call is `reachable`. */
  function SingleOf<T>(rows: seq<T>, reachable: bool): (r: Single<T>)
    ensures r.Found? <==> reachable && |rows| == 1
    ensures r.Found? ==> r.row in rows
  {
    if !reachable then Error(Failed)
    else if |rows| == 1 then Found(rows[0])
    else Error(NotSingle)
  }

  function ProfilesOf(ps: seq<Profile>, uid: Id): seq<Profile> {
    Filter(ps, (p: Profile) => p.userId == uid)
  }

  /** `.eq('is_fake_profile', true)` */
  function FakeProfiles(ps: seq<Profile>): seq<Profile> {
    Filter(ps, (p: Profile) => p.isFake == Some(true))
  }

  function CreditsOf(cs: seq<Credit>, uid: Id): seq<Credit> {
    Filter(cs, (c: Credit) => c.userId == uid)
  }

  function MatchesOf(ms: seq<Match>, uid: Id): seq<Match> {
    Filter(ms, (m: Match) => m.userId == uid)
  }

  function MessagesOf(msgs: seq<Message>, matchId: Id): seq<Message> {
    Filter(msgs, (m: Message) => m.matchId == matchId)
  }

  /** `from('credits').select('balance').eq('user_id', uid).single()` */
  function ReadBalance(cs: seq<Credit>, uid: Id, reachable: bool): (r: Single<int>)
    ensures r.Found? <==> reachable && |CreditsOf(cs, uid)| == 1
    ensures r.Found? ==> exists c :: c in cs && c.userId == uid && c.balance == r.row
  {
    match SingleOf(CreditsOf(cs, uid), reachable)
    case Found(c) => Found(c.balance)
    case Error(e) => Error(e)
  }

  /** Messages in strictly increasing `created_at` order. */
  ghost predicate Ascending(msgs: seq<Message>) {
    forall i, j :: 0 <= i < j < |msgs| ==> msgs[i].createdAt < msgs[j].createdAt
  }

  lemma {:induction false} FilterAscending(msgs: seq<Message>, keep: Message -> bool)
    requires Ascending(msgs)
    ensures Ascending(Filter(msgs, keep))
  {
    if msgs != [] {
      FilterAscending(msgs[1..], keep);
      var r := Filter(msgs[1..], keep);
      forall j | 0 <= j < |r| ensures msgs[0].createdAt < r[j].createdAt {
        assert r[j] in msgs[1..];
      }
    }
  }

  /**
   * `.eq('match_id', id).order('created_at', { ascending: true })` on a
   * table whose rows were written in clock order: the result is the
   * conversation in ascending time, and nothing else.
   */
  lemma ConversationInTimeOrder(msgs: seq<Message>, matchId: Id)
    requires Ascending(msgs)
    ensures Ascending(MessagesOf(msgs, matchId))
    ensures forall m :: m in MessagesOf(msgs, matchId) <==> m in msgs && m.matchId == matchId
  {
    FilterAscending(msgs, (m: Message) => m.matchId == matchId);
  }

  // ----- credits -----

  /** `update({ balance: b }).eq('user_id', uid)`: every row of `uid` gets balance `b`. */
  function SetBalance(cs: seq<Credit>, uid: Id, b: int): (r: seq<Credit>)
    ensures |r| == |cs|
    ensures forall i :: 0 <= i < |cs| ==>
      r[i] == if cs[i].userId == uid then cs[i].(balance := b) else cs[i]
  {
    if cs == [] then []
    else [if cs[0].userId == uid then cs[0].(balance := b) else cs[0]] + SetBalance(cs[1..], uid, b)
  }

  /** The update touches no other user's rows. */
  lemma {:induction false} SetBalanceKeepsOthers(cs: seq<Credit>, uid: Id, b: int, other: Id)
    requires other != uid
    ensures CreditsOf(SetBalance(cs, uid, b), other) == CreditsOf(cs, other)
  {
    if cs != [] {
      SetBalanceKeepsOthers(cs[1..], uid, b, other);
    }
  }

  /** An update of a user with no row changes nothing: it does not create one. */
  lemma {:induction false} SetBalanceWithoutRow(cs: seq<Credit>, uid: Id, b: int)
    requires CreditsOf(cs, uid) == []
    ensures SetBalance(cs, uid, b) == cs
  {
    if cs != [] {
      assert cs[0] !in CreditsOf(cs, uid);
      SetBalanceWithoutRow(cs[1..], uid, b);
    }
  }

  /** With one row for the user, reading the balance back gives exactly what was written. */
  lemma {:induction false} SetBalanceReadBack(cs: seq<Credit>, uid: Id, b: int)
    requires |CreditsOf(cs, uid)| == 1
    ensures CreditsOf(SetBalance(cs, uid, b), uid) == [CreditsOf(cs, uid)[0].(balance := b)]
    ensures ReadBalance(SetBalance(cs, uid, b), uid, true) == Found(b)
  {
    if cs[0].userId == uid {
      SetBalanceWithoutRow(cs[1..], uid, b);
    } else {
      SetBalanceReadBack(cs[1..], uid, b);
    }
  }

  /** The sum of all balances (`reduce((sum, c) => sum + c.balance, 0)`). */
  function TotalBalance(cs: seq<Credit>): (r: int)
    ensures (forall c :: c in cs ==> c.balance >= 0) ==> r >= 0
  {
    if cs == [] then 0 else cs[0].balance + TotalBalance(cs[1..])
  }

  /** Rewriting one user's only row moves the total by exactly the change of that row. */
  lemma {:induction false} TotalAfterSetBalance(cs: seq<Credit>, uid: Id, b: int)
    requires |CreditsOf(cs, uid)| == 1
    ensures TotalBalance(SetBalance(cs, uid, b)) == TotalBalance(cs) - CreditsOf(cs, uid)[0].balance + b
  {
    if cs[0].userId == uid {
      SetBalanceWithoutRow(cs[1..], uid, b);
    } else {
      TotalAfterSetBalance(cs[1..], uid, b);
    }
  }

  // ----- profiles -----

  /** The columns an upsert writes into an existing row; the rest (id, picture, flags) stay. */
  function ApplyPayload(p: Profile, pl: ProfilePayload, age: int): Profile {
    p.(name := pl.name, age := age, gender := pl.gender, seekingGender := pl.seekingGender,
       location := Some(pl.location), bio := Some(pl.bio), interests := Some(pl.interests))
  }

  /**
   * The row an upsert inserts when the user has none. Columns the payload
   * omits take the database defaults, taken here to be absent for the
   * picture and video and `false` for the two flags.
   */
  function InsertedProfile(pl: ProfilePayload, age: int, id: Id, now: nat): Profile {
    Profile(id, pl.userId, pl.name, age, pl.gender, pl.seekingGender, Some(pl.location), Some(pl.bio),
            Some(pl.interests), None, None, Some(false), Some(false), now)
  }

  function UpdateProfiles(ps: seq<Profile>, pl: ProfilePayload, age: int): (r: seq<Profile>)
    ensures |r| == |ps|
    ensures forall i :: 0 <= i < |ps| ==>
      r[i] == if ps[i].userId == pl.userId then ApplyPayload(ps[i], pl, age) else ps[i]
  {
    if ps == [] then []
    else [if ps[0].userId == pl.userId then ApplyPayload(ps[0], pl, age) else ps[0]]
         + UpdateProfiles(ps[1..], pl, age)
  }

  /** `upsert(payload, { onConflict: 'user_id' })` with the parsed age. */
  function UpsertedProfiles(ps: seq<Profile>, pl: ProfilePayload, age: int, id: Id, now: nat): seq<Profile> {
    if ProfilesOf(ps, pl.userId) == [] then ps + [InsertedProfile(pl, age, id, now)]
    else UpdateProfiles(ps, pl, age)
  }

  lemma {:induction false} UpdateKeepsOthers(ps: seq<Profile>, pl: ProfilePayload, age: int, other: Id)
    requires other != pl.userId
    ensures ProfilesOf(UpdateProfiles(ps, pl, age), other) == ProfilesOf(ps, other)
  {
    if ps != [] {
      UpdateKeepsOthers(ps[1..], pl, age, other);
    }
  }

  lemma {:induction false} UpdateWithoutRow(ps: seq<Profile>, pl: ProfilePayload, age: int)
    requires ProfilesOf(ps, pl.userId) == []
    ensures UpdateProfiles(ps, pl, age) == ps
  {
    if ps != [] {
      assert ps[0] !in ProfilesOf(ps, pl.userId);
      UpdateWithoutRow(ps[1..], pl, age);
    }
  }

  lemma {:induction false} UpdateOwnRow(ps: seq<Profile>, pl: ProfilePayload, age: int)
    requires |ProfilesOf(ps, pl.userId)| == 1
    ensures ProfilesOf(UpdateProfiles(ps, pl, age), pl.userId)
         == [ApplyPayload(ProfilesOf(ps, pl.userId)[0], pl, age)]
  {
    if ps[0].userId == pl.userId {
      UpdateWithoutRow(ps[1..], pl, age);
    } else {
      UpdateOwnRow(ps[1..], pl, age);
    }
  }

  /** The upsert is keyed on `user_id`: no other user's profiles change. */
  lemma UpsertKeepsOthers(ps: seq<Profile>, pl: ProfilePayload, age: int, id: Id, now: nat, other: Id)
    requires other != pl.userId
    ensures ProfilesOf(UpsertedProfiles(ps, pl, age, id, now), other) == ProfilesOf(ps, other)
  {
    if ProfilesOf(ps, pl.userId) == [] {
      FilterAppend(ps, InsertedProfile(pl, age, id, now), (p: Profile) => p.userId == other);
    } else {
      UpdateKeepsOthers(ps, pl, age, other);
    }
  }

  /**
   * After the upsert the user has exactly one profile (given at most one
   * before): the old row with the payload's columns written over it, or a
   * new row when there was none.
   */
  lemma UpsertOwnRow(ps: seq<Profile>, pl: ProfilePayload, age: int, id: Id, now: nat)
    requires |ProfilesOf(ps, pl.userId)| <= 1
    ensures ProfilesOf(UpsertedProfiles(ps, pl, age, id, now), pl.userId)
         == if ProfilesOf(ps, pl.userId) == [] then [InsertedProfile(pl, age, id, now)]
            else [ApplyPayload(ProfilesOf(ps, pl.userId)[0], pl, age)]
  {
    if ProfilesOf(ps, pl.userId) == [] {
      FilterAppend(ps, InsertedProfile(pl, age, id, now), (p: Profile) => p.userId == pl.userId);
    } else {
      UpdateOwnRow(ps, pl, age);
    }
  }

  /** Rows of a multi-row insert as stored: ids `base`, `base + 1`, ..., one shared creation time. */
  function Materialize(rows: seq<NewProfile>, base: Id, now: nat): (r: seq<Profile>)
    ensures |r| == |rows|
    ensures forall i :: 0 <= i < |rows| ==>
      r[i].id == base + i && r[i].userId == rows[i].userId && r[i].isFake == Some(rows[i].isFake)
  {
    seq(|rows|, i requires 0 <= i < |rows| =>
      var np := rows[i];
      Profile(base + i, np.userId, np.name, np.age, np.gender, np.seekingGender, Some(np.location),
              Some(np.bio), Some(np.interests), Some(np.pictureUrl), None, Some(false), Some(np.isFake), now))
  }

  // ----- the store -----

  /**
   * Every row of every table has an id below `bound`: ids handed out from
   * `bound` on are fresh, as the database's generated primary keys are.
   */
  ghost predicate IdsBelow(t: Tables, bound: Id) {
    && (forall p :: p in t.profiles ==> p.id < bound)
    && (forall m :: m in t.matches ==> m.id < bound)
    && (forall m :: m in t.messages ==> m.id < bound)
    && (forall c :: c in t.credits ==> c.id < bound)
  }

  class Store {
    var tables: Tables
    /** Supply of fresh server-generated row ids (`id` columns). */
    var nextId: Id
    /** Supply of `created_at` values; every insert and upsert takes the current value and advances it. */
    var clock: nat

    ghost predicate Valid()
      reads this
    {
      && Ascending(tables.messages)
      && (forall m :: m in tables.messages ==> m.createdAt < clock)
      && IdsBelow(tables, nextId)
    }

    constructor (t: Tables, firstId: Id, now: nat)
      requires Ascending(t.messages) && forall m :: m in t.messages ==> m.createdAt < now
      requires IdsBelow(t, firstId)
      ensures Valid() && tables == t && nextId == firstId && clock == now
    {
      tables, nextId, clock := t, firstId, now;
    }

    /** `from('messages').insert({...})` */
    method InsertMessage(matchId: Id, senderId: Id, content: string, isAdminReply: Option<bool>, ok: bool)
      requires Valid()
      modifies this
      ensures Valid()
      ensures ok ==> tables == old(tables).(messages := old(tables.messages)
                       + [Message(old(nextId), matchId, senderId, content, old(clock), isAdminReply)])
      ensures forall m :: m in old(tables.messages) ==> m.id != old(nextId)
      ensures ok ==> nextId == old(nextId) + 1 && clock == old(clock) + 1
      ensures !ok ==> tables == old(tables) && nextId == old(nextId) && clock == old(clock)
    {
      if ok {
        var m := Message(nextId, matchId, senderId, content, clock, isAdminReply);
        tables := tables.(messages := tables.messages + [m]);
        nextId, clock := nextId + 1, clock + 1;
      }
    }

    /** `from('matches').insert({ user_id, matched_profile_id })` */
    method InsertMatch(userId: Id, profileId: Id, ok: bool)
      requires Valid()
      modifies this
      ensures Valid()
      ensures ok ==> tables == old(tables).(matches := old(tables.matches)
                       + [Match(old(nextId), userId, profileId, old(clock))])
      ensures forall m :: m in old(tables.matches) ==> m.id != old(nextId)
      ensures ok ==> nextId == old(nextId) + 1 && clock == old(clock) + 1
      ensures !ok ==> tables == old(tables) && nextId == old(nextId) && clock == old(clock)
    {
      if ok {
        tables := tables.(matches := tables.matches + [Match(nextId, userId, profileId, clock)]);
        nextId, clock := nextId + 1, clock + 1;
      }
    }

    /**
     * `from('credits').update({ balance }).eq('user_id', uid)`. A `None`
     * balance is JavaScript `NaN`, sent as `null`: the NOT NULL column
     * refuses it, unless the filter matches no row and nothing is checked.
     */
    method UpdateBalance(uid: Id, balance: Option<int>, ok: bool) returns (success: bool)
      requires Valid()
      modifies this
      ensures Valid()
      ensures success <==> ok && (balance.Some? || CreditsOf(old(tables.credits), uid) == [])
      ensures success && balance.Some?
        ==> tables == old(tables).(credits := SetBalance(old(tables.credits), uid, balance.value))
      ensures !(success && balance.Some?) ==> tables == old(tables)
      ensures nextId == old(nextId) && clock == old(clock)
    {
      success := ok && (balance.Some? || CreditsOf(tables.credits, uid) == []);
      if success && balance.Some? {
        tables := tables.(credits := SetBalance(tables.credits, uid, balance.value));
      }
    }

    /**
     * `from('profiles').upsert(payload, { onConflict: 'user_id' })`. A
     * `None` age (NaN, sent as `null`) violates the NOT NULL `age` column.
     */
    method UpsertProfile(pl: ProfilePayload, ok: bool) returns (success: bool)
      requires Valid()
      modifies this
      ensures Valid()
      ensures success <==> ok && pl.age.Some?
      ensures success ==> tables == old(tables).(profiles :=
        UpsertedProfiles(old(tables.profiles), pl, pl.age.value, old(nextId), old(clock)))
      ensures success ==> nextId == old(nextId) + 1 && clock == old(clock) + 1
      ensures !success ==> tables == old(tables) && nextId == old(nextId) && clock == old(clock)
    {
      success := ok && pl.age.Some?;
      if success {
        tables := tables.(profiles := UpsertedProfiles(tables.profiles, pl, pl.age.value, nextId, clock));
        nextId, clock := nextId + 1, clock + 1;
      }
    }

    /** `from('profiles').insert(rows)`: all rows in one statement, or none. */
    method InsertProfiles(rows: seq<NewProfile>, ok: bool)
      requires Valid()
      modifies this
      ensures Valid()
      ensures ok ==> tables == old(tables).(profiles := old(tables.profiles) + Materialize(rows, old(nextId), old(clock)))
      ensures forall p, q :: p in old(tables.profiles) && q in Materialize(rows, old(nextId), old(clock)) ==> p.id != q.id
      ensures ok ==> nextId == old(nextId) + |rows| && clock == old(clock) + 1
      ensures !ok ==> tables == old(tables) && nextId == old(nextId) && clock == old(clock)
    {
      if ok {
        tables := tables.(profiles := tables.profiles + Materialize(rows, nextId, clock));
        nextId, clock := nextId + |rows|, clock + 1;
      }
    }
  }
}

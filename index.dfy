/**
 * The home page (src/pages/Index.tsx): the three dashboard counters, the
 * featured seed profiles, and the welcome card for users without matches.
 * Every read is a query on the tables; its outcome (reachable or not) is a
 * parameter.
 */
module IndexPage {
  import opened Wrappers
  import opened Rows
  import opened Backend

  /** The `stats` state: matches, messages and credits counters. */
  datatype Stats = Stats(matches: int, messages: int, credits: int)

  /** Whether each of the four reads of `fetchStats` reached the backend. */
  datatype StatsReads = StatsReads(countOk: bool, idsOk: bool, messagesOk: bool, creditsOk: bool)

  /** `matches.map(m => m.id)` */
  function MatchIds(ms: seq<Match>): (r: seq<Id>)
    ensures |r| == |ms|
    ensures forall k :: k in ms ==> k.id in r
    ensures forall x :: x in r ==> exists k :: k in ms && k.id == x
  {
    if ms == [] then [] else [ms[0].id] + MatchIds(ms[1..])
  }

  /** A message belongs to one of `uid`'s conversations. */
  ghost predicate InConversationOf(t: Tables, uid: Id, m: Message) {
    exists k :: k in t.matches && k.userId == uid && k.id == m.matchId
  }

  /**
   * `fetchStats`: the match count (0 when the count read fails), the count
   * of messages whose match is one of the user's (0 without a query when
   * the user has no matches, and 0 when either read fails), and the
   * balance read with `.single()` (0 when it is not exactly one row).
   */
  function FetchStats(t: Tables, uid: Id, got: StatsReads): (r: Stats)
    ensures got.countOk ==> r.matches == |MatchesOf(t.matches, uid)|
    ensures !got.countOk ==> r.matches == 0
    ensures r.matches >= 0 && r.messages >= 0
    ensures r.matches <= |t.matches| && r.messages <= |t.messages|
    ensures MatchesOf(t.matches, uid) == [] ==> r.messages == 0
    ensures r.credits != 0 ==> exists c :: c in t.credits && c.userId == uid && c.balance == r.credits
  {
    var ids := MatchIds(MatchesOf(t.matches, uid));
    var matches := if got.countOk then |MatchesOf(t.matches, uid)| else 0;
    var messages :=
      if got.idsOk && |ids| > 0 && got.messagesOk
      then |Filter(t.messages, (m: Message) => m.matchId in ids)|
      else 0;
    var credits := match ReadBalance(t.credits, uid, got.creditsOk)
      case Found(b) => b
      case Error(_) => 0;
    Stats(matches, messages, credits)
  }

  /** The welcome card is rendered exactly when the matches counter is 0. */
  function ShowWelcome(s: Stats): (r: bool)
    ensures r <==> s.matches == 0
  {
    s.matches == 0
  }

  /**
   * The messages counter, both reads succeeding, is the number of messages
   * in the user's own conversations.
   */
  lemma MessagesStatCountsOwnConversations(t: Tables, uid: Id, got: StatsReads)
    requires got.idsOk && got.messagesOk
    ensures FetchStats(t, uid, got).messages
      == |Filter(t.messages, (m: Message) => InConversationOf(t, uid, m))|
  {
    var mine := MatchesOf(t.matches, uid);
    var ids := MatchIds(mine);
    var inIds := (m: Message) => m.matchId in ids;
    var inConv := (m: Message) => InConversationOf(t, uid, m);
    if ids != [] {
      forall x | x in t.messages
        ensures inIds(x) == inConv(x)
      {
        if inIds(x) {
          var k :| k in mine && k.id == x.matchId;
          assert k in t.matches && k.userId == uid;
        }
        if inConv(x) {
          var k :| k in t.matches && k.userId == uid && k.id == x.matchId;
          assert k in mine;
        }
      }
      FilterCongruent(t.messages, inIds, inConv);
    } else {
      forall x | x in t.messages
        ensures !inConv(x)
      {
        forall k | k in t.matches && k.id == x.matchId
          ensures k.userId != uid
        {
          if k.userId == uid {
            assert false;
          }
        }
      }
      FilterNone(t.messages, inConv);
    }
  }

  /**
   * With the count read succeeding, the welcome card is shown exactly when
   * the user has no match row; with it failing, the counter reads 0 and the
   * card is shown.
   */
  lemma WelcomeIffNoMatches(t: Tables, uid: Id, got: StatsReads)
    ensures ShowWelcome(FetchStats(t, uid, got))
      <==> !got.countOk || forall k :: k in t.matches ==> k.userId != uid
  {
    var mine := MatchesOf(t.matches, uid);
    if got.countOk {
      if mine != [] {
        assert mine[0] in mine;
      } else {
        forall k | k in t.matches
          ensures k.userId != uid
        {
          if k.userId == uid {
            assert false;
          }
        }
      }
    }
  }

  /**
   * The credits counter: the balance of the user's one credits row when
   * the read reaches it, 0 otherwise (no row, several rows, or a failed
   * read).
   */
  lemma CreditsStatIsBalance(t: Tables, uid: Id, got: StatsReads)
    ensures got.creditsOk && |CreditsOf(t.credits, uid)| == 1
      ==> FetchStats(t, uid, got).credits == CreditsOf(t.credits, uid)[0].balance
    ensures CreditsOf(t.credits, uid) == [] ==> FetchStats(t, uid, got).credits == 0
  {
  }

  /**
   * `fetchProfiles`: at most five seed profiles, in table order; an empty
   * list when the read fails.
   */
  function Featured(ps: seq<Profile>, ok: bool): (r: seq<Profile>)
    ensures |r| <= 5
    ensures forall p :: p in r ==> p in ps && p.isFake == Some(true)
    ensures ok ==> |r| == if |FakeProfiles(ps)| <= 5 then |FakeProfiles(ps)| else 5
    ensures ok ==> r == FakeProfiles(ps)[..|r|]
    ensures !ok ==> r == []
  {
    if ok then Take(FakeProfiles(ps), 5) else []
  }
}

/**
 * The swipe page (src/pages/Discover.tsx): up to ten candidates of the
 * gender the user seeks, a cursor over them, and a "like" that records a
 * match.
 */
module DiscoverPage {
  import opened Wrappers
  import opened Rows
  import opened Backend

  const CandidateLimit: nat := 10

  predicate Eligible(p: Profile, seeking: string, me: Id) {
    p.gender == seeking && p.userId != me
  }

  /**
   * `.eq('gender', seeking).neq('user_id', me).limit(10)`: the first ten
   * eligible profiles. Seed profiles are not told apart.
   */
  function Candidates(ps: seq<Profile>, seeking: string, me: Id): (r: seq<Profile>)
    ensures |r| <= CandidateLimit
    ensures forall p :: p in r ==> p in ps && p.gender == seeking && p.userId != me
    ensures |r| == if |Filter(ps, (p: Profile) => Eligible(p, seeking, me))| <= CandidateLimit
                   then |Filter(ps, (p: Profile) => Eligible(p, seeking, me))| else CandidateLimit
    ensures r == Filter(ps, (p: Profile) => Eligible(p, seeking, me))[..|r|]
  {
    Take(Filter(ps, (p: Profile) => Eligible(p, seeking, me)), CandidateLimit)
  }

  /** When at most ten profiles qualify, every one of them is offered, seed or not. */
  lemma CandidatesComplete(ps: seq<Profile>, seeking: string, me: Id, p: Profile)
    requires |Filter(ps, (q: Profile) => Eligible(q, seeking, me))| <= CandidateLimit
    requires p in ps && p.gender == seeking && p.userId != me
    ensures p in Candidates(ps, seeking, me)
  {
  }

  /** The `matches` rows of one (user, profile) pair. */
  function PairRows(ms: seq<Match>, uid: Id, profileId: Id): seq<Match> {
    Filter(ms, (m: Match) => m.userId == uid && m.matchedProfileId == profileId)
  }

  /** A like is recorded whatever is already there: repeated likes of one profile pile up. */
  lemma LikeIsNeverDeduplicated(ms: seq<Match>, uid: Id, profileId: Id, id: Id, now: nat)
    ensures |PairRows(ms + [Match(id, uid, profileId, now)], uid, profileId)| == |PairRows(ms, uid, profileId)| + 1
  {
    FilterAppend(ms, Match(id, uid, profileId, now), (m: Match) => m.userId == uid && m.matchedProfileId == profileId);
  }

  class Page {
    const user: Option<Id>
    var profiles: seq<Profile>
    var currentIndex: nat
    var loading: bool

    constructor (user: Option<Id>)
      ensures this.user == user && profiles == [] && currentIndex == 0 && loading
    {
      this.user := user;
      profiles, currentIndex, loading := [], 0, true;
    }

    /**
     * `fetchProfiles`: read the user's own `seeking_gender` (`.single()`),
     * then the candidates. A failed or empty preference read, or a failed
     * candidate query, leaves the list as it was; `loading` ends on every
     * path.
     */
    method FetchProfiles(store: Store, ownReadOk: bool, queryOk: bool)
      requires user.Some?
      modifies this`profiles, this`loading
      ensures !loading
      ensures profiles == match SingleOf(ProfilesOf(store.tables.profiles, user.value), ownReadOk)
        case Found(me) =>
          if me.seekingGender != "" && queryOk then Candidates(store.tables.profiles, me.seekingGender, user.value)
          else old(profiles)
        case Error(_) => old(profiles)
    {
      var own := SingleOf(ProfilesOf(store.tables.profiles, user.value), ownReadOk);
      if own.Found? && own.row.seekingGender != "" && queryOk {
        profiles := Candidates(store.tables.profiles, own.row.seekingGender, user.value);
      }
      loading := false;
    }

    /**
     * `handleSwipe`: past the end of the list or without a user nothing
     * happens; otherwise a like inserts one match row for the current
     * profile (no reciprocity or duplicate check) and the cursor moves on
     * whether or not that insert succeeded.
     */
    method HandleSwipe(store: Store, liked: bool, insertOk: bool)
      requires store.Valid()
      modifies this`currentIndex, store
      ensures store.Valid()
      ensures old(currentIndex) >= |profiles| || user.None? ==>
        currentIndex == old(currentIndex) && store.tables == old(store.tables)
      ensures old(currentIndex) < |profiles| && user.Some? ==>
        && currentIndex == old(currentIndex) + 1
        && store.tables == if liked && insertOk
             then old(store.tables).(matches := old(store.tables.matches)
                    + [Match(old(store.nextId), user.value, profiles[old(currentIndex)].id, old(store.clock))])
             else old(store.tables)
      ensures old(currentIndex) < |profiles| && user.Some? && liked && insertOk
        ==> store.nextId == old(store.nextId) + 1 && store.clock == old(store.clock) + 1
      ensures !(old(currentIndex) < |profiles| && user.Some? && liked && insertOk)
        ==> store.nextId == old(store.nextId) && store.clock == old(store.clock)
    {
      if currentIndex >= |profiles| || user.None? {
        return;
      }
      if liked {
        store.InsertMatch(user.value, profiles[currentIndex].id, insertOk);
      }
      currentIndex := currentIndex + 1;
    }
  }
}

/**
 * The operator dashboard (src/pages/Admin.tsx): the admin gate, the
 * totals, the per-user table and the credit top-up.
 */
module AdminPage {
  import opened Wrappers
  import opened Rows
  import opened Text
  import opened Backend

  /** `profile?.is_admin || false` over the `.single()` read of the user's profile. */
  function AdminFlag(own: Single<Profile>): (r: bool)
    ensures r <==> own.Found? && own.row.isAdmin == Some(true)
  {
    match own
    case Found(p) => p.isAdmin.GetOr(false)
    case Error(_) => false
  }

  /** The gate lets a user in only when their single profile row says `is_admin = true`. */
  lemma AdminGateClosedByDefault(ps: seq<Profile>, uid: Id, reachable: bool)
    ensures AdminFlag(SingleOf(ProfilesOf(ps, uid), reachable))
        <==> reachable && |ProfilesOf(ps, uid)| == 1 && ProfilesOf(ps, uid)[0].isAdmin == Some(true)
  {
  }

  datatype View = Spinner | RedirectHome | Dashboard

  /**
   * What the page renders: the spinner while loading, then a redirect once
   * the flag is known to be false. While the flag is still unknown (`null`)
   * the dashboard is rendered.
   */
  function ViewOf(loading: bool, isAdmin: Option<bool>): (v: View)
    ensures v == RedirectHome <==> !loading && isAdmin == Some(false)
    ensures v == Dashboard <==> !loading && isAdmin != Some(false)
  {
    if loading then Spinner
    else if isAdmin == Some(false) then RedirectHome
    else Dashboard
  }

  /** `.eq('is_fake_profile', false)`: a `null` flag does not match. */
  function RealProfiles(ps: seq<Profile>): seq<Profile> {
    Filter(ps, (p: Profile) => p.isFake == Some(false))
  }

  const PlaceholderEmail: string := "user@example.com"

  datatype UserStats = UserStats(id: Id, userId: Id, name: string, email: string, credits: int,
                                 matches: nat, messages: nat, createdAt: nat)

  datatype Totals = Totals(totalUsers: nat, totalMessages: nat, totalCredits: int)

  /** The outcomes of the dashboard's four list and count queries. */
  datatype DashboardReads = DashboardReads(users: bool, userCount: bool, messageCount: bool, credits: bool)

  /** `reduce((sum, credit) => sum + credit.balance, acc)`: a left fold from `acc`. */
  function ReduceBalances(acc: int, cs: seq<Credit>): int
    decreases cs
  {
    if cs == [] then acc else ReduceBalances(acc + cs[0].balance, cs[1..])
  }

  /** The fold the page runs adds up the same total as `TotalBalance`, whatever it starts from. */
  lemma {:induction false} ReduceIsTotal(acc: int, cs: seq<Credit>)
    ensures ReduceBalances(acc, cs) == acc + TotalBalance(cs)
    decreases cs
  {
    if cs != [] {
      ReduceIsTotal(acc + cs[0].balance, cs[1..]);
    }
  }

  /** The totals card: each count, or 0 when its query failed. */
  function TotalsOf(t: Tables, net: DashboardReads): (r: Totals)
    ensures net.credits ==> r.totalCredits == TotalBalance(t.credits)
    ensures !net.credits ==> r.totalCredits == 0
    ensures r.totalUsers == (if net.userCount then |RealProfiles(t.profiles)| else 0)
    ensures r.totalMessages == (if net.messageCount then |t.messages| else 0)
  {
    ReduceIsTotal(0, t.credits);
    Totals(if net.userCount then |RealProfiles(t.profiles)| else 0,
           if net.messageCount then |t.messages| else 0,
           if net.credits then ReduceBalances(0, t.credits) else 0)
  }

  /** `currentCredits?.balance || 0` plus `parseInt(amount)`; `None` is NaN. */
  function TopUp(current: Single<int>, amount: Option<int>): (r: Option<int>)
    ensures r.Some? <==> amount.Some?
    ensures r.Some? ==> r.value == (if current.Found? then current.row else 0) + amount.value
  {
    match amount
    case None => None
    case Some(n) => Some((if current.Found? then current.row else 0) + n)
  }

  /**
   * A top-up of a user with one credits row adds the amount to that row,
   * to nobody else's, and raises the total by exactly the amount.
   */
  lemma TopUpAddsAmount(cs: seq<Credit>, uid: Id, amount: int, other: Id)
    requires |CreditsOf(cs, uid)| == 1
    ensures var b := TopUp(ReadBalance(cs, uid, true), Some(amount)).value;
      && b == CreditsOf(cs, uid)[0].balance + amount
      && ReadBalance(SetBalance(cs, uid, b), uid, true) == Found(CreditsOf(cs, uid)[0].balance + amount)
      && TotalBalance(SetBalance(cs, uid, b)) == TotalBalance(cs) + amount
      && (other != uid ==> CreditsOf(SetBalance(cs, uid, b), other) == CreditsOf(cs, other))
  {
    var b := TopUp(ReadBalance(cs, uid, true), Some(amount)).value;
    SetBalanceReadBack(cs, uid, b);
    TotalAfterSetBalance(cs, uid, b);
    if other != uid {
      SetBalanceKeepsOthers(cs, uid, b, other);
    }
  }

  /** A user with no credits row counts as 0, and the update creates no row for them. */
  lemma TopUpWithoutRowCreatesNothing(cs: seq<Credit>, uid: Id, amount: int)
    requires CreditsOf(cs, uid) == []
    ensures TopUp(ReadBalance(cs, uid, true), Some(amount)) == Some(amount)
    ensures SetBalance(cs, uid, amount) == cs
  {
  }

  class Page {
    const user: Option<Id>
    var isAdmin: Option<bool>
    var users: seq<UserStats>
    var totals: Totals
    var selectedUserId: Option<Id>
    var creditAmount: string
    var loading: bool

    constructor (user: Option<Id>)
      ensures this.user == user && isAdmin == None && users == [] && totals == Totals(0, 0, 0)
      ensures selectedUserId == None && creditAmount == "" && loading
    {
      this.user := user;
      isAdmin, users, totals := None, [], Totals(0, 0, 0);
      selectedUserId, creditAmount, loading := None, "", true;
    }

    /** `checkAdminStatus` */
    method CheckAdminStatus(store: Store, reachable: bool)
      requires user.Some?
      modifies this`isAdmin
      ensures isAdmin == Some(AdminFlag(SingleOf(ProfilesOf(store.tables.profiles, user.value), reachable)))
    {
      isAdmin := Some(AdminFlag(SingleOf(ProfilesOf(store.tables.profiles, user.value), reachable)));
    }

    /**
     * The per-user loop of `fetchDashboardData`: one row per real (non-seed) profile,
     * in order, with that user's balance (0 when the read fails or finds
     * no single row), and matches and messages always 0. `readOk(i)` is
     * the outcome of the i-th balance read.
     */
    static method CollectUserStats(store: Store, usersData: seq<Profile>, readOk: nat -> bool)
      returns (rows: seq<UserStats>)
      ensures |rows| == |usersData|
      ensures forall i :: 0 <= i < |rows| ==>
        && rows[i].id == usersData[i].id && rows[i].userId == usersData[i].userId
        && rows[i].name == usersData[i].name && rows[i].createdAt == usersData[i].createdAt
        && rows[i].email == PlaceholderEmail
        && rows[i].credits == (match ReadBalance(store.tables.credits, usersData[i].userId, readOk(i))
                               case Found(b) => b
                               case Error(_) => 0)
        && rows[i].matches == 0 && rows[i].messages == 0
    {
      rows := [];
      var i := 0;
      while i < |usersData|
        invariant 0 <= i <= |usersData| && |rows| == i
        invariant forall k :: 0 <= k < i ==>
          && rows[k].id == usersData[k].id && rows[k].userId == usersData[k].userId
          && rows[k].name == usersData[k].name && rows[k].createdAt == usersData[k].createdAt
          && rows[k].email == PlaceholderEmail
          && rows[k].credits == (match ReadBalance(store.tables.credits, usersData[k].userId, readOk(k))
                                 case Found(b) => b
                                 case Error(_) => 0)
          && rows[k].matches == 0 && rows[k].messages == 0
      {
        var u := usersData[i];
        var balance := ReadBalance(store.tables.credits, u.userId, readOk(i));
        rows := rows + [UserStats(u.id, u.userId, u.name, PlaceholderEmail,
                                  if balance.Found? then balance.row else 0, 0, 0, u.createdAt)];
        i := i + 1;
      }
    }

    /**
     * `fetchDashboardData` (revenue aside): the totals, then the user table
     * when the user list was read; `loading` ends false.
     */
    method FetchDashboardData(store: Store, net: DashboardReads, readOk: nat -> bool)
      modifies this`totals, this`users, this`loading
      ensures !loading
      ensures totals == TotalsOf(store.tables, net)
      ensures !net.users ==> users == old(users)
      ensures net.users ==> |users| == |RealProfiles(store.tables.profiles)|
      ensures net.users && net.userCount ==> totals.totalUsers == |users|
      ensures net.users ==> forall i :: 0 <= i < |users| ==>
        && users[i].userId == RealProfiles(store.tables.profiles)[i].userId
        && RealProfiles(store.tables.profiles)[i].isFake == Some(false)
        && users[i].matches == 0 && users[i].messages == 0
        && users[i].credits == (match ReadBalance(store.tables.credits, users[i].userId, readOk(i))
                                case Found(b) => b
                                case Error(_) => 0)
    {
      loading := true;
      totals := TotalsOf(store.tables, net);
      if net.users {
        var genuine := RealProfiles(store.tables.profiles);
        users := CollectUserStats(store, genuine, readOk);
        forall i | 0 <= i < |genuine| ensures genuine[i].isFake == Some(false) {
          assert genuine[i] in genuine;
        }
      }
      loading := false;
    }

    /**
     * `addCredits`: with no user selected or no amount typed nothing
     * happens; otherwise read the balance afresh, add the amount, and write
     * the sum to the selected user's row. The form is cleared on success
     * and kept on failure.
     */
    method AddCredits(store: Store, readOk: bool, updateOk: bool) returns (success: bool)
      requires store.Valid()
      modifies this`selectedUserId, this`creditAmount, store
      ensures store.Valid()
      ensures old(selectedUserId).None? || old(creditAmount) == "" ==>
        && !success && store.tables == old(store.tables)
        && selectedUserId == old(selectedUserId) && creditAmount == old(creditAmount)
      ensures old(selectedUserId).Some? && old(creditAmount) != "" ==>
        var uid := old(selectedUserId).value;
        var b := TopUp(ReadBalance(old(store.tables.credits), uid, readOk), ParseInt(old(creditAmount)));
        && (success <==> updateOk && (b.Some? || CreditsOf(old(store.tables.credits), uid) == []))
        && store.tables == (if success && b.Some? then old(store.tables).(credits := SetBalance(old(store.tables.credits), uid, b.value))
                            else old(store.tables))
        && (success ==> selectedUserId == None && creditAmount == "")
        && (!success ==> selectedUserId == old(selectedUserId) && creditAmount == old(creditAmount))
      ensures store.nextId == old(store.nextId) && store.clock == old(store.clock)
    {
      if selectedUserId.None? || creditAmount == "" {
        return false;
      }
      var uid := selectedUserId.value;
      var b := TopUp(ReadBalance(store.tables.credits, uid, readOk), ParseInt(creditAmount));
      success := store.UpdateBalance(uid, b, updateOk);
      if success {
        selectedUserId, creditAmount := None, "";
      }
    }
  }
}

// The admin dashboard's list logic: the search and status filters of the
// users and lawyers tables and the statistics of the overview. Optional
// fields (`u.fullName?.…`) are `Option`s; rendering is left out.
module AdminDashboard {
  import opened Wrappers
  import opened Strings
  import opened Seqs
  import opened Accounts

  /** A user as `/api/admin/users` lists it. */
  datatype UserRow = UserRow(
    fullName: Option<string>,
    email: Option<string>,
    phone: Option<string>,
    isPremium: bool,
    deletionRequested: bool,
    chatHistory: Option<seq<ChatEntry>>)

  /** A lawyer as `/api/admin/lawyers` lists it. */
  datatype LawyerRow = LawyerRow(
    fullName: Option<string>,
    email: Option<string>,
    phone: Option<string>,
    isApproved: bool,
    isVerified: bool,
    deletionRequested: bool)

  /** The lawyers-table tab: `'all'`, `'pending'`, or anything else (the approved lawyers). */
  datatype StatusFilter = All | PendingTab | OtherTab

  // --------------------------------------------------------------- the search

  /**
   * The search text matches a row: case-insensitively in its name or email,
   * or verbatim in its phone number; a missing field matches nothing.
   */
  predicate TextMatches(fullName: Option<string>, email: Option<string>, phone: Option<string>, filter: string)
  {
    || (fullName.Some? && Contains(Lower(fullName.value), Lower(filter)))
    || (email.Some? && Contains(Lower(email.value), Lower(filter)))
    || (phone.Some? && Contains(phone.value, filter))
  }

  predicate UserMatches(u: UserRow, filter: string)
  {
    TextMatches(u.fullName, u.email, u.phone, filter)
  }

  /** The tab condition: everyone, the unapproved lawyers, or the approved ones. */
  predicate StatusMatches(l: LawyerRow, status: StatusFilter)
  {
    match status
    case All => true
    case PendingTab => !l.isApproved
    case OtherTab => l.isApproved
  }

  predicate LawyerMatches(l: LawyerRow, filter: string, status: StatusFilter)
  {
    TextMatches(l.fullName, l.email, l.phone, filter) && StatusMatches(l, status)
  }

  /** The rows `renderUsersTable(filter)` shows. */
  function FilterUsers(users: seq<UserRow>, filter: string): seq<UserRow>
  {
    Filter(users, (u: UserRow) => UserMatches(u, filter))
  }

  /** The rows `renderLawyersTable(filter, status)` shows. */
  function FilterLawyers(lawyers: seq<LawyerRow>, filter: string, status: StatusFilter): seq<LawyerRow>
  {
    Filter(lawyers, (l: LawyerRow) => LawyerMatches(l, filter, status))
  }

  /**
   * A user is shown exactly when it is loaded and matches the search; the
   * table keeps the loaded order.
   */
  lemma FilterUsersSpec(users: seq<UserRow>, filter: string)
    ensures forall u :: u in FilterUsers(users, filter) <==> u in users && UserMatches(u, filter)
    ensures IsSubsequence(FilterUsers(users, filter), users)
  {
    FilterIsSubsequence(users, (u: UserRow) => UserMatches(u, filter));
  }

  /** A lawyer is shown exactly when it is loaded, matches the search and the tab; the order is kept. */
  lemma FilterLawyersSpec(lawyers: seq<LawyerRow>, filter: string, status: StatusFilter)
    ensures forall l :: l in FilterLawyers(lawyers, filter, status) <==>
      l in lawyers && TextMatches(l.fullName, l.email, l.phone, filter) && StatusMatches(l, status)
    ensures IsSubsequence(FilterLawyers(lawyers, filter, status), lawyers)
  {
    FilterIsSubsequence(lawyers, (l: LawyerRow) => LawyerMatches(l, filter, status));
  }

  /** The empty search matches every row with a name: `includes('')` is true. */
  lemma EmptySearchMatchesNamed(fullName: Option<string>, email: Option<string>, phone: Option<string>)
    requires fullName.Some?
    ensures TextMatches(fullName, email, phone, "")
  {
    ContainsEmpty(Lower(fullName.value));
  }

  /** With no search text the users table shows every loaded user that has a name. */
  lemma EmptySearchShowsAllUsers(users: seq<UserRow>)
    requires forall i :: 0 <= i < |users| ==> users[i].fullName.Some?
    ensures FilterUsers(users, "") == users
  {
    forall i | 0 <= i < |users|
      ensures UserMatches(users[i], "")
    {
      EmptySearchMatchesNamed(users[i].fullName, users[i].email, users[i].phone);
    }
    FilterAll(users, (u: UserRow) => UserMatches(u, ""));
  }

  /** The pending and the other tab split the all tab, whatever the search text. */
  lemma {:induction false} TabsPartition(lawyers: seq<LawyerRow>, filter: string)
    ensures |FilterLawyers(lawyers, filter, PendingTab)| + |FilterLawyers(lawyers, filter, OtherTab)|
      == |FilterLawyers(lawyers, filter, All)|
  {
    if lawyers != [] {
      TabsPartition(lawyers[1..], filter);
    }
  }

  // --------------------------------------------------------------- statistics

  /** `u.chatHistory?.length || 0`. */
  function QueryCount(u: UserRow): nat
  {
    if u.chatHistory.Some? then |u.chatHistory.value| else 0
  }

  /** `usersList.reduce((acc, u) => acc + (u.chatHistory?.length || 0), 0)`. */
  function TotalQueries(users: seq<UserRow>): nat
  {
    if users == [] then 0 else TotalQueries(users[..|users| - 1]) + QueryCount(users[|users| - 1])
  }

  /** The total distributes over concatenation of user lists. */
  lemma {:induction false} TotalQueriesAppend(a: seq<UserRow>, b: seq<UserRow>)
    ensures TotalQueries(a + b) == TotalQueries(a) + TotalQueries(b)
  {
    if b != [] {
      assert (a + b)[..|a + b| - 1] == a + b[..|b| - 1];
      TotalQueriesAppend(a, b[..|b| - 1]);
    } else {
      assert a + b == a;
    }
  }

  /** Every user's history is counted: the total is at least each user's count, and zero exactly when no user has any entry. */
  lemma {:induction false} TotalQueriesBounds(users: seq<UserRow>)
    ensures forall i :: 0 <= i < |users| ==> QueryCount(users[i]) <= TotalQueries(users)
    ensures TotalQueries(users) == 0 <==> forall i :: 0 <= i < |users| ==> QueryCount(users[i]) == 0
  {
    if users != [] {
      var init := users[..|users| - 1];
      TotalQueriesBounds(init);
      assert forall i :: 0 <= i < |init| ==> init[i] == users[i];
    }
  }

  /** An entry of the deletion-requests list: a user or a lawyer. */
  datatype Requester = UserRequest(user: UserRow) | LawyerRequest(lawyer: LawyerRow)

  /** The overview figures of `loadStats`. */
  datatype Stats = Stats(
    totalUsers: nat,
    totalLawyers: nat,
    pendingLawyers: nat,
    premiumUsers: nat,
    deletionRequests: nat,
    totalQueries: nat,
    recentUsers: seq<UserRow>,
    deletionList: seq<Requester>)

  /** `usersList.slice(0, 5)`. */
  function RecentUsers(users: seq<UserRow>): (r: seq<UserRow>)
    ensures |r| == if |users| < 5 then |users| else 5
    ensures forall i :: 0 <= i < |r| ==> r[i] == users[i]
  {
    if |users| < 5 then users else users[..5]
  }

  /** What `/api/admin/pending-lawyers` returns: verified, not yet approved. */
  function ServerPending(lawyers: seq<LawyerRow>): seq<LawyerRow>
  {
    Filter(lawyers, (l: LawyerRow) => !l.isApproved && l.isVerified)
  }

  function Flagged(users: seq<UserRow>): seq<UserRow>
  {
    Filter(users, (u: UserRow) => u.deletionRequested)
  }

  function FlaggedLawyers(lawyers: seq<LawyerRow>): seq<LawyerRow>
  {
    Filter(lawyers, (l: LawyerRow) => l.deletionRequested)
  }

  /** `loadStats` over the three fetched lists. */
  function LoadStats(users: seq<UserRow>, lawyers: seq<LawyerRow>, pending: seq<LawyerRow>): Stats
  {
    var flaggedUsers := Flagged(users);
    var flaggedLawyers := FlaggedLawyers(lawyers);
    Stats(
      |users|,
      |Filter(lawyers, (l: LawyerRow) => l.isApproved)|,
      |pending|,
      |Filter(users, (u: UserRow) => u.isPremium)|,
      |flaggedUsers| + |flaggedLawyers|,
      TotalQueries(users),
      RecentUsers(users),
      seq(|flaggedUsers|, i requires 0 <= i < |flaggedUsers| => UserRequest(flaggedUsers[i])) +
      seq(|flaggedLawyers|, i requires 0 <= i < |flaggedLawyers| => LawyerRequest(flaggedLawyers[i])))
  }

  /**
   * "Total lawyers" is the size of the approved tab with no search, and with
   * the pending tab it makes up all lawyers.
   */
  lemma LawyerFiguresAgreeWithTabs(users: seq<UserRow>, lawyers: seq<LawyerRow>, pending: seq<LawyerRow>)
    requires forall i :: 0 <= i < |lawyers| ==> lawyers[i].fullName.Some?
    ensures LoadStats(users, lawyers, pending).totalLawyers == |FilterLawyers(lawyers, "", OtherTab)|
    ensures LoadStats(users, lawyers, pending).totalLawyers + |FilterLawyers(lawyers, "", PendingTab)| == |lawyers|
  {
    forall i | 0 <= i < |lawyers|
      ensures TextMatches(lawyers[i].fullName, lawyers[i].email, lawyers[i].phone, "")
    {
      EmptySearchMatchesNamed(lawyers[i].fullName, lawyers[i].email, lawyers[i].phone);
    }
    FilterSame(lawyers, (l: LawyerRow) => l.isApproved, (l: LawyerRow) => LawyerMatches(l, "", OtherTab));
    FilterAll(lawyers, (l: LawyerRow) => LawyerMatches(l, "", All));
    TabsPartition(lawyers, "");
  }

  /**
   * The deletion figure is the length of the deletion list, which holds
   * exactly the flagged users and then the flagged lawyers; the premium users
   * are at most all users.
   */
  lemma DeletionFiguresAgree(users: seq<UserRow>, lawyers: seq<LawyerRow>, pending: seq<LawyerRow>)
    ensures var st := LoadStats(users, lawyers, pending);
      && st.deletionRequests == |st.deletionList|
      && (forall u :: UserRequest(u) in st.deletionList <==> u in users && u.deletionRequested)
      && (forall l :: LawyerRequest(l) in st.deletionList <==> l in lawyers && l.deletionRequested)
      && st.premiumUsers <= st.totalUsers
  {
    var st := LoadStats(users, lawyers, pending);
    var fu := Flagged(users);
    var fl := FlaggedLawyers(lawyers);
    var left := seq(|fu|, i requires 0 <= i < |fu| => UserRequest(fu[i]));
    var right := seq(|fl|, i requires 0 <= i < |fl| => LawyerRequest(fl[i]));
    assert st.deletionList == left + right;
    forall u
      ensures UserRequest(u) in st.deletionList <==> u in users && u.deletionRequested
    {
      if UserRequest(u) in st.deletionList {
        assert UserRequest(u) in left;
        var i :| 0 <= i < |left| && left[i] == UserRequest(u);
      }
      if u in users && u.deletionRequested {
        assert u in fu;
        var i :| 0 <= i < |fu| && fu[i] == u;
        assert left[i] == UserRequest(u);
      }
    }
    forall l
      ensures LawyerRequest(l) in st.deletionList <==> l in lawyers && l.deletionRequested
    {
      if LawyerRequest(l) in st.deletionList {
        assert LawyerRequest(l) in right;
        var i :| 0 <= i < |right| && right[i] == LawyerRequest(l);
      }
      if l in lawyers && l.deletionRequested {
        assert l in fl;
        var i :| 0 <= i < |fl| && fl[i] == l;
        assert right[i] == LawyerRequest(l);
      }
    }
  }

  /**
   * When the pending list is the server's (verified and unapproved), its
   * every entry is on the pending tab, so the pending figure never exceeds
   * the pending tab with no search.
   */
  lemma {:induction false} PendingWithinPendingTab(lawyers: seq<LawyerRow>)
    requires forall i :: 0 <= i < |lawyers| ==> lawyers[i].fullName.Some?
    ensures |ServerPending(lawyers)| <= |FilterLawyers(lawyers, "", PendingTab)|
  {
    if lawyers != [] {
      PendingWithinPendingTab(lawyers[1..]);
      EmptySearchMatchesNamed(lawyers[0].fullName, lawyers[0].email, lawyers[0].phone);
    }
  }

  /** Recent users are the first five loaded users, or all of them when there are fewer. */
  lemma RecentUsersSpec(users: seq<UserRow>)
    ensures |users| <= 5 ==> RecentUsers(users) == users
    ensures |users| > 5 ==> |RecentUsers(users)| == 5 && users == RecentUsers(users) + users[5..]
  {
  }
}

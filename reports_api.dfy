// GET /api/reports: which of the stored reports a caller is shown, and in
// which order. The session lookup, the identity-provider request and the
// database are inputs; each step that can throw has its own failing input.

module ReportsApi {
  import opened Wrappers
  import opened Strings

  /** A stored report, reduced to the fields the visibility rule reads.
      `isDeleted` is absent (None) on reports that were never flagged. */
  datatype Report = Report(id: string, userId: string, isDeleted: Option<bool>, createdAt: int)

  /** What the session lookup gave: it threw, or a user id that may be missing. */
  datatype Session = SessionThrew | Session(userId: Option<string>)

  /** The identity-provider request for the user's record. */
  datatype Lookup =
    | LookupThrew               // the request or reading its body threw
    | LookupNotOk               // the response status was not ok
    | LookupOk(role: Option<string>)  // the record, with the role from its public metadata

  /** The database: unreachable, or reachable with its reports; `queriesFail`
      says whether a query on it throws. */
  datatype Database = Unreachable | Reachable(reports: seq<Report>, queriesFail: bool)

  datatype Body = ErrorBody(error: string) | ReportList(reports: seq<Report>)

  datatype Response = Response(status: int, body: Body)

  /** The query the handler builds: the user's reports, and for non-admins
      only those whose `isDeleted` is false or absent. */
  datatype Query = Query(userId: string, liveOnly: bool)

  /** The admin flag: only a successful lookup whose role is exactly "admin". */
  function IsAdmin(lookup: Lookup): (r: bool)
    ensures r ==> lookup.LookupOk?
  {
    lookup.LookupOk? && lookup.role == Some("admin")
  }

  function QueryFor(userId: string, isAdmin: bool): (q: Query)
    ensures q.userId == userId && q.liveOnly == !isAdmin
  {
    Query(userId, !isAdmin)
  }

  /** Whether a stored report matches the query document. */
  predicate Matches(q: Query, r: Report) {
    r.userId == q.userId && (!q.liveOnly || r.isDeleted == Some(false) || r.isDeleted == None)
  }

  /** `Matches` as the test handed to `Filter`. */
  function MatchesTest(q: Query): Report -> bool {
    r => Matches(q, r)
  }

  /** The safety filter's test: `isDeleted !== true`. */
  predicate NotDeleted(r: Report) {
    r.isDeleted != Some(true)
  }

  /** `filter`, keeping the order of the kept elements. */
  function Filter(p: Report -> bool, s: seq<Report>): (r: seq<Report>)
    ensures |r| <= |s|
    ensures forall x :: x in r ==> x in s && p(x)
  {
    if s == [] then []
    else if p(s[0]) then [s[0]] + Filter(p, s[1..])
    else Filter(p, s[1..])
  }

  /** Newest first. */
  predicate SortedNewestFirst(s: seq<Report>) {
    forall i, j :: 0 <= i < j < |s| ==> s[i].createdAt >= s[j].createdAt
  }

  /** Puts `x` in front of the first report not newer than it. */
  function Insert(x: Report, s: seq<Report>): (r: seq<Report>)
    ensures |r| == |s| + 1
  {
    if s == [] || x.createdAt >= s[0].createdAt then [x] + s
    else [s[0]] + Insert(x, s[1..])
  }

  /** The database's `sort({ createdAt: -1 })`, as a stable insertion sort. */
  function SortNewestFirst(s: seq<Report>): (r: seq<Report>)
    ensures |r| == |s|
  {
    if s == [] then [] else Insert(s[0], SortNewestFirst(s[1..]))
  }

  /** `find(query).sort({ createdAt: -1 })`. */
  function Find(q: Query, store: seq<Report>): seq<Report> {
    SortNewestFirst(Filter(MatchesTest(q), store))
  }

  /** The whole handler. */
  function GetReports(db: Database, session: Session, lookup: Lookup): (resp: Response)
    ensures resp.status == 200 || resp == Response(401, ErrorBody("Unauthorized"))
    ensures resp.status == 200 ==> resp.body.ReportList?
  {
    if db.Unreachable? || session.SessionThrew? then Response(200, ReportList([]))
    else if !Truthy(session.userId) then Response(401, ErrorBody("Unauthorized"))
    else if lookup.LookupThrew? || db.queriesFail then Response(200, ReportList([]))
    else
      var userId := session.userId.value;
      var isAdmin := IsAdmin(lookup);
      var reports := Find(QueryFor(userId, isAdmin), db.reports);
      var shown := if isAdmin then reports else Filter(NotDeleted, reports);
      Response(200, ReportList(shown))
  }

  /** The reports shown on a response, or none for an error. */
  function Shown(resp: Response): seq<Report> {
    if resp.body.ReportList? then resp.body.reports else []
  }
}

module ReportsApiProperties {
  import opened Wrappers
  import opened Strings
  import opened ReportsApi

  // ---------------------------------------------------------------------
  // Filter and sort.
  // ---------------------------------------------------------------------

  /** A report is kept by the filter as often as it occurs, or not at all. */
  lemma {:induction false} FilterCount(p: Report -> bool, s: seq<Report>, x: Report)
    ensures multiset(Filter(p, s))[x] == if p(x) then multiset(s)[x] else 0
  {
    if s != [] {
      FilterCount(p, s[1..], x);
      assert s == [s[0]] + s[1..];
    }
  }

  /** Filtering keeps the relative order, so a sorted list stays sorted. */
  lemma {:induction false} FilterKeepsSorted(p: Report -> bool, s: seq<Report>)
    requires SortedNewestFirst(s)
    ensures SortedNewestFirst(Filter(p, s))
  {
    if s != [] {
      FilterKeepsSorted(p, s[1..]);
      if p(s[0]) {
        var t := Filter(p, s[1..]);
        var r := [s[0]] + t;
        forall i, j | 0 <= i < j < |r| ensures r[i].createdAt >= r[j].createdAt {
          if i == 0 {
            assert r[j] in t;
            assert r[j] in s[1..];
          } else {
            assert r[i] == t[i - 1] && r[j] == t[j - 1];
          }
        }
      }
    }
  }

  /** Two tests that agree everywhere filter alike. */
  lemma {:induction false} FilterSameTest(p: Report -> bool, p': Report -> bool, s: seq<Report>)
    requires forall x :: p(x) == p'(x)
    ensures Filter(p, s) == Filter(p', s)
  {
    if s != [] {
      FilterSameTest(p, p', s[1..]);
    }
  }

  /** A filter whose test every element already passes changes nothing. */
  lemma {:induction false} FilterAllPass(p: Report -> bool, s: seq<Report>)
    requires forall x :: x in s ==> p(x)
    ensures Filter(p, s) == s
  {
    if s != [] {
      assert s[0] in s;
      FilterAllPass(p, s[1..]);
      assert [s[0]] + s[1..] == s;
    }
  }

  lemma {:induction false} InsertPermutes(x: Report, s: seq<Report>)
    ensures multiset(Insert(x, s)) == multiset{x} + multiset(s)
  {
    if !(s == [] || x.createdAt >= s[0].createdAt) {
      InsertPermutes(x, s[1..]);
      assert s == [s[0]] + s[1..];
    }
  }

  lemma {:induction false} InsertSorted(x: Report, s: seq<Report>)
    requires SortedNewestFirst(s)
    ensures SortedNewestFirst(Insert(x, s))
    ensures forall y :: y in Insert(x, s) ==> y == x || y in s
  {
    if !(s == [] || x.createdAt >= s[0].createdAt) {
      InsertSorted(x, s[1..]);
      InsertPermutes(x, s[1..]);
      var t := Insert(x, s[1..]);
      forall y | y in t ensures s[0].createdAt >= y.createdAt {
        assert y == x || y in s[1..];
      }
    }
  }

  /** Sorting puts the newest first and only reorders. */
  lemma {:induction false} SortSortsAndPermutes(s: seq<Report>)
    ensures SortedNewestFirst(SortNewestFirst(s))
    ensures multiset(SortNewestFirst(s)) == multiset(s)
  {
    if s != [] {
      SortSortsAndPermutes(s[1..]);
      InsertSorted(s[0], SortNewestFirst(s[1..]));
      InsertPermutes(s[0], SortNewestFirst(s[1..]));
      assert s == [s[0]] + s[1..];
    }
  }

  // ---------------------------------------------------------------------
  // The handler.
  // ---------------------------------------------------------------------

  /** The reports of `u` a caller with the admin flag `admin` may see. */
  predicate Visible(u: string, admin: bool, r: Report) {
    r.userId == u && (admin || r.isDeleted != Some(true))
  }

  function VisibleTest(u: string, admin: bool): Report -> bool {
    r => Visible(u, admin, r)
  }

  /** The query the handler builds selects exactly the visible reports. */
  lemma QueryMatchesVisible(u: string, admin: bool, x: Report)
    ensures Matches(QueryFor(u, admin), x) == Visible(u, admin, x)
  {
    if x.isDeleted.Some? {
      if x.isDeleted.value {
        assert x.isDeleted == Some(true);
      } else {
        assert x.isDeleted == Some(false);
      }
    }
  }

  /** A request without a user id, once the database is reached, is refused. */
  lemma NoUserUnauthorized(reports: seq<Report>, queriesFail: bool, userId: Option<string>, lookup: Lookup)
    requires !Truthy(userId)
    ensures GetReports(Reachable(reports, queriesFail), Session(userId), lookup)
         == Response(401, ErrorBody("Unauthorized"))
  {
  }

  /** A failed or not-ok identity lookup treats the caller as non-admin:
      the response is that for a record without the admin role. */
  lemma FailedLookupIsNonAdmin(db: Database, session: Session)
    ensures !IsAdmin(LookupNotOk)
    ensures GetReports(db, session, LookupNotOk) == GetReports(db, session, LookupOk(None))
  {
  }

  /** Every failure past the session check yields an empty list with status 200;
      before it, only an unreachable database or a failed session lookup. */
  lemma FailuresGiveEmptyList(db: Database, session: Session, lookup: Lookup)
    requires db.Unreachable? || session.SessionThrew?
          || (Truthy(session.userId) && (lookup.LookupThrew? || db.queriesFail))
    ensures GetReports(db, session, lookup) == Response(200, ReportList([]))
  {
  }

  /** The non-admin query already drops every report flagged deleted, so the
      safety filter after it removes nothing. */
  lemma SafetyFilterRedundant(u: string, store: seq<Report>)
    ensures Filter(NotDeleted, Find(QueryFor(u, false), store)) == Find(QueryFor(u, false), store)
  {
    var q := QueryFor(u, false);
    var m := Filter(MatchesTest(q), store);
    SortSortsAndPermutes(m);
    assert Find(q, store) == SortNewestFirst(m);
    forall x | x in Find(q, store) ensures NotDeleted(x) {
      assert x in multiset(m);
      assert MatchesTest(q)(x);
    }
    FilterAllPass(NotDeleted, Find(q, store));
  }

  /** The successful response shows, newest first, exactly the visible
      reports of the caller, each as often as it is stored: for an admin all
      of their reports, deleted or not; for anyone else those whose
      `isDeleted` is false or absent. */
  lemma ShownAreExactlyVisible(reports: seq<Report>, u: string, lookup: Lookup)
    requires u != "" && !lookup.LookupThrew?
    ensures var shown := Shown(GetReports(Reachable(reports, false), Session(Some(u)), lookup));
      && shown == SortNewestFirst(Filter(VisibleTest(u, IsAdmin(lookup)), reports))
      && SortedNewestFirst(shown)
      && multiset(shown) == multiset(Filter(VisibleTest(u, IsAdmin(lookup)), reports))
  {
    var admin := IsAdmin(lookup);
    var q := QueryFor(u, admin);
    forall x ensures MatchesTest(q)(x) == VisibleTest(u, admin)(x) {
      assert MatchesTest(q)(x) == Matches(q, x);
      assert VisibleTest(u, admin)(x) == Visible(u, admin, x);
      QueryMatchesVisible(u, admin, x);
    }
    FilterSameTest(MatchesTest(q), VisibleTest(u, admin), reports);
    if !admin {
      SafetyFilterRedundant(u, reports);
    }
    SortSortsAndPermutes(Filter(VisibleTest(u, admin), reports));
  }

  /** Every shown report belongs to the caller. */
  lemma ShownBelongToCaller(db: Database, u: string, lookup: Lookup)
    ensures forall r :: r in Shown(GetReports(db, Session(Some(u)), lookup)) ==> r.userId == u
  {
    var shown := Shown(GetReports(db, Session(Some(u)), lookup));
    if db.Reachable? && u != "" && !lookup.LookupThrew? && !db.queriesFail {
      ShownAreExactlyVisible(db.reports, u, lookup);
      forall r | r in shown ensures r.userId == u {
        assert r in multiset(Filter(VisibleTest(u, IsAdmin(lookup)), db.reports));
        assert VisibleTest(u, IsAdmin(lookup))(r);
      }
    }
  }

  /** A non-admin never sees a report flagged deleted, and sees every report
      of theirs that is not flagged. */
  lemma NonAdminSeesLiveOnly(reports: seq<Report>, u: string, lookup: Lookup, r: Report)
    requires u != "" && !lookup.LookupThrew? && !IsAdmin(lookup)
    requires r.userId == u
    ensures var shown := Shown(GetReports(Reachable(reports, false), Session(Some(u)), lookup));
      r in shown <==> r in reports && r.isDeleted != Some(true)
  {
    ShownAreExactlyVisible(reports, u, lookup);
    FilterCount(VisibleTest(u, false), reports, r);
  }

  /** An admin sees every report of theirs, deleted ones included. */
  lemma AdminSeesAllOwn(reports: seq<Report>, u: string, r: Report)
    requires u != "" && r.userId == u
    ensures var shown := Shown(GetReports(Reachable(reports, false), Session(Some(u)), LookupOk(Some("admin"))));
      r in shown <==> r in reports
  {
    ShownAreExactlyVisible(reports, u, LookupOk(Some("admin")));
    FilterCount(VisibleTest(u, true), reports, r);
  }
}

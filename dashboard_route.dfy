/**
 * The headquarters dashboard endpoint: five counts over the case table
 * and the five newest cases that are not cancelled.  It writes nothing.
 */
module DashboardRoute {
  import opened Wrappers
  import opened Domain
  import opened Listing
  import opened Db

  /** The response's `stats`; `assignedCount` is its `assigned` (a reserved word here). */
  datatype Stats = Stats(pending: nat, assignedCount: nat, inProgress: nat, completedToday: nat, total: nat)

  /** The cases with status `s`, as `count({ where: { status: s } })` counts them. */
  function WithStatus(cases: map<Id, Case>, s: CaseStatus): set<Id> {
    set k | k in cases && cases[k].status == s
  }

  /** The cases completed at or after `todayStart`. */
  function CompletedSince(cases: map<Id, Case>, todayStart: Time): set<Id> {
    set k | k in cases && cases[k].status == Completed
                       && cases[k].completedAt.Some? && cases[k].completedAt.value >= todayStart
  }

  function NotCancelled(c: Case): bool {
    c.status != CaseStatus.Cancelled
  }

  /** The cases that are not cancelled. */
  function Open(cases: map<Id, Case>): set<Id> {
    set k | k in cases && NotCancelled(cases[k])
  }

  /** The five counts of the dashboard. */
  function StatsOf(cases: map<Id, Case>, todayStart: Time): Stats {
    Stats(
      |WithStatus(cases, Pending)|,
      |WithStatus(cases, Assigned)|,
      |WithStatus(cases, InProgress)|,
      |CompletedSince(cases, todayStart)|,
      |Open(cases)|)
  }

  lemma DisjointUnionSize(a: set<Id>, b: set<Id>)
    requires a !! b
    ensures |a + b| == |a| + |b|
  {
    assert a * b == {};
  }

  lemma SubsetSize(a: set<Id>, b: set<Id>)
    requires a <= b
    ensures |a| <= |b|
  {
    assert b == a + (b - a);
    DisjointUnionSize(a, b - a);
  }

  /**
   * The non-cancelled cases are exactly the pending, assigned, in-progress
   * and completed ones, so `total` is their sum and the four counts shown
   * beside it never exceed it.
   */
  lemma StatsPartition(cases: map<Id, Case>, todayStart: Time)
    ensures var s := StatsOf(cases, todayStart);
            s.total == s.pending + s.assignedCount + s.inProgress + |WithStatus(cases, Completed)|
            && s.completedToday <= |WithStatus(cases, Completed)|
            && s.pending + s.assignedCount + s.inProgress + s.completedToday <= s.total
  {
    var p := WithStatus(cases, Pending);
    var a := WithStatus(cases, Assigned);
    var i := WithStatus(cases, InProgress);
    var c := WithStatus(cases, Completed);
    DisjointUnionSize(p, a);
    DisjointUnionSize(p + a, i);
    DisjointUnionSize(p + a + i, c);
    assert Open(cases) == p + a + i + c;
    SubsetSize(CompletedSince(cases, todayStart), c);
  }

  /** The first `n` entries of `s`, or all of them. */
  function Take<T>(s: seq<T>, n: nat): (r: seq<T>)
    ensures |r| <= n && r <= s
    ensures |r| == if |s| <= n then |s| else n
  {
    if |s| <= n then s else s[..n]
  }

  /**
   * GET: 401 unless headquarters; 500 when one of the queries raises,
   * which nothing catches; otherwise the counts and at most five
   * non-cancelled cases, newest first, such that every other
   * non-cancelled case is no newer than the fifth.
   */
  method Get(db: Database, session: Option<Session>, todayStart: Time, fault: bool)
    returns (code: int, stats: Stats, recent: seq<Case>)
    requires db.Valid()
    ensures code == if !IsHeadquarters(session) then 401 else if fault then 500 else 200
    ensures code == 200 ==> stats == StatsOf(db.cases, todayStart)
    ensures code != 200 ==> recent == []
    ensures |recent| <= 5 && Distinct(recent) && NewestFirst(recent, CaseCreatedAt)
    ensures forall c :: c in recent ==> c in db.cases.Values && c.status != CaseStatus.Cancelled
    ensures code == 200 ==>
              forall c :: c in db.cases.Values && c.status != CaseStatus.Cancelled && c !in recent ==>
                |recent| == 5 && c.createdAt <= recent[4].createdAt
  {
    if !IsHeadquarters(session) {
      return 401, Stats(0, 0, 0, 0, 0), [];
    }
    if fault {
      return 500, Stats(0, 0, 0, 0, 0), [];
    }
    stats := StatsOf(db.cases, todayStart);
    KeyedIsInjective(db.cases, CaseId);
    var open := FindMany(db.cases, NotCancelled, CaseCreatedAt);
    recent := Take(open, 5);
    assert forall j :: 0 <= j < |recent| ==> recent[j] == open[j];
    forall c | c in recent
      ensures c in db.cases.Values && c.status != CaseStatus.Cancelled
    {
      var j :| 0 <= j < |recent| && recent[j] == c;
      assert open[j] == c;
      assert NotCancelled(c);
    }
    forall c | c in db.cases.Values && c.status != CaseStatus.Cancelled && c !in recent
      ensures |recent| == 5 && c.createdAt <= recent[4].createdAt
    {
      assert c in open;
      var j :| 0 <= j < |open| && open[j] == c;
      assert 5 <= j;
      assert recent[4] == open[4];
      assert CaseCreatedAt(open[4]) >= CaseCreatedAt(open[j]);
    }
    code := 200;
  }
}

/**
 * The end-customer case list: the customer is named by a LINE user id
 * given in the query string, not by a session, and sees a summary of the
 * cases whose client is that user, newest first.
 */
module LiffCasesRoute {
  import opened Wrappers
  import opened Domain
  import opened Listing
  import opened Db

  /** The fields the list exposes: id, title, status, schedule and address. */
  datatype CaseSummary = CaseSummary(
    id: Id,
    title: string,
    status: CaseStatus,
    scheduledAt: Option<string>,
    address: Option<string>)

  function Summary(c: Case): (s: CaseSummary)
    ensures s.id == c.id && s.title == c.title && s.status == c.status
    ensures s.scheduledAt == c.scheduledAt && s.address == c.address
  {
    CaseSummary(c.id, c.title, c.status, c.scheduledAt, c.address)
  }

  /**
   * GET: 400 without a LINE user id; an empty list when no user has that
   * id; otherwise the summaries of that user's cases, newest first.  No
   * session is consulted: the result depends only on the id supplied.
   */
  method List(db: Database, lineUserId: Option<string>, fault: bool)
    returns (code: int, out: seq<CaseSummary>, ghost rows: seq<Case>)
    requires db.Valid()
    ensures !Truthy(lineUserId) ==> code == 400
    ensures Truthy(lineUserId) ==> code == if fault then 500 else 200
    ensures code != 200 ==> out == []
    ensures |out| == |rows| && forall i :: 0 <= i < |rows| ==> out[i] == Summary(rows[i])
    ensures Distinct(rows) && NewestFirst(rows, CaseCreatedAt)
    ensures code == 200 ==>
              forall c :: c in rows <==>
                c in db.cases.Values &&
                exists k :: k in db.users && db.users[k].lineUserId == lineUserId && c.clientId == Some(k)
  {
    if !Truthy(lineUserId) {
      return 400, [], [];
    }
    if fault {
      return 500, [], [];
    }
    var user := FindFirst(db.users, (u: User) => u.lineUserId == lineUserId);
    if user.None? {
      return 200, [], [];
    }
    var uid := user.value.id;
    KeyedIsInjective(db.cases, CaseId);
    var found := FindMany(db.cases, (c: Case) => c.clientId == Some(uid), CaseCreatedAt);
    rows := found;
    out := seq(|found|, i requires 0 <= i < |found| => Summary(found[i]));
    code := 200;
  }
}

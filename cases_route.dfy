/**
 * The case collection endpoint: the list of cases a caller may see,
 * optionally narrowed to one status, and the creation of a case by
 * headquarters in status PENDING.
 */
module CasesRoute {
  import opened Wrappers
  import opened Domain
  import opened Listing
  import opened Db

  /**
   * The handyman a caller's listing is restricted to: a HANDYMAN sees only
   * the cases assigned to their own id.  An unset id adds no condition,
   * as an `undefined` filter value does in the query.
   */
  function HandymanScope(session: Session): (scope: Option<Id>)
    ensures scope.Some? <==> session.role == Some(Handyman) && session.dbId.Some?
    ensures scope.Some? ==> scope.value == session.dbId.value
  {
    if session.role == Some(Handyman) && session.dbId.Some? then session.dbId else None
  }

  /** A case passes the listing's filter. */
  predicate Listed(scope: Option<Id>, status: Option<CaseStatus>, c: Case) {
    (scope.Some? ==> c.handymanId == scope) && (status.Some? ==> c.status == status.value)
  }

  /**
   * GET: 401 without a session.  A non-empty status parameter must name a
   * status (the query fails with 500 otherwise) and narrows the list to
   * it; the result is every listed case once, newest first.
   */
  method List(db: Database, session: Option<Session>, status: Option<string>, fault: bool)
    returns (code: int, r: seq<Case>)
    requires db.Valid()
    ensures session.None? ==> code == 401
    ensures session.Some? ==>
              code == if fault || (Truthy(status) && ParseCaseStatus(status.value).None?) then 500 else 200
    ensures code != 200 ==> r == []
    ensures code == 200 ==>
              var wanted := if Truthy(status) then ParseCaseStatus(status.value) else None;
              forall c :: c in r <==> c in db.cases.Values && Listed(HandymanScope(session.value), wanted, c)
    ensures Distinct(r) && NewestFirst(r, CaseCreatedAt)
  {
    if session.None? {
      return 401, [];
    }
    var wanted: Option<CaseStatus> := None;
    if Truthy(status) {
      wanted := ParseCaseStatus(status.value);
      if wanted.None? {
        return 500, [];
      }
    }
    if fault {
      return 500, [];
    }
    var scope := HandymanScope(session.value);
    KeyedIsInjective(db.cases, CaseId);
    r := FindMany(db.cases, (c: Case) => Listed(scope, wanted, c), CaseCreatedAt);
    code := 200;
  }

  /** The JSON body of a creation request; every field may be missing. */
  datatype CaseRequest = CaseRequest(
    title: Option<string>,
    description: Option<string>,
    address: Option<string>,
    scheduledAt: Option<string>,
    handymanId: Option<Id>)

  /** The record inserted for a request with a title and a description. */
  function NewCase(id: Id, req: CaseRequest, now: Time): Case
    requires Truthy(req.title) && Truthy(req.description)
  {
    Case(
      id := id,
      title := req.title.value,
      description := req.description.value,
      address := req.address,
      scheduledAt := if Truthy(req.scheduledAt) then req.scheduledAt else None,
      status := Pending,
      handymanId := req.handymanId,
      clientId := None,
      completedAt := None,
      createdAt := now)
  }

  /**
   * POST: 401 unless headquarters, 400 without a title or a description,
   * 500 when the insert fails, otherwise 201 with one new case.
   */
  method Create(db: Database, session: Option<Session>, req: CaseRequest, id: Id, now: Time, fault: bool)
    returns (code: int)
    requires db.Valid() && id !in db.cases
    modifies db`cases
    ensures db.Valid()
    ensures !IsHeadquarters(session) ==> code == 401
    ensures IsHeadquarters(session) && !(Truthy(req.title) && Truthy(req.description)) ==> code == 400
    ensures IsHeadquarters(session) && Truthy(req.title) && Truthy(req.description) ==>
              code == if fault then 500 else 201
    ensures code == 201 ==> db.cases == old(db.cases)[id := NewCase(id, req, now)]
    ensures code != 201 ==> db.cases == old(db.cases)
  {
    if !IsHeadquarters(session) {
      return 401;
    }
    if !Truthy(req.title) || !Truthy(req.description) {
      return 400;
    }
    if fault {
      return 500;
    }
    db.cases := db.cases[id := NewCase(id, req, now)];
    code := 201;
  }

  /**
   * A new case is PENDING whether or not a handyman is named, has no
   * completion time, keeps an absent address or handyman absent, and has
   * a schedule only when a non-empty one was given.
   */
  lemma NewCaseIsPending(id: Id, req: CaseRequest, now: Time)
    requires Truthy(req.title) && Truthy(req.description)
    ensures NewCase(id, req, now).status == Pending
    ensures NewCase(id, req, now).completedAt.None?
    ensures req.address.None? ==> NewCase(id, req, now).address.None?
    ensures req.handymanId.None? ==> NewCase(id, req, now).handymanId.None?
    ensures NewCase(id, req, now).scheduledAt.Some? <==> Truthy(req.scheduledAt)
  {
  }
}

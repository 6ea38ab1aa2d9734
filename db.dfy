/**
 * The database the request handlers share: one table of cases, one of
 * invoices (each with its line items) and one of users.  Each table maps
 * a record's identifier to the record.
 */
module Db {
  import opened Wrappers
  import opened Domain
  import opened Listing

  /** Every record is stored under its own identifier. */
  ghost predicate Keyed<V>(m: map<Id, V>, id: V -> Id) {
    forall k :: k in m ==> id(m[k]) == k
  }

  lemma KeyedIsInjective<V>(m: map<Id, V>, id: V -> Id)
    requires Keyed(m, id)
    ensures Injective(m)
  {
    forall a, b | a in m && b in m && a != b ensures m[a] != m[b] {
      assert id(m[a]) == a && id(m[b]) == b;
    }
  }

  function CaseId(c: Case): Id { c.id }
  function InvoiceId(inv: Invoice): Id { inv.id }
  function UserId(u: User): Id { u.id }

  /** Every invoice refers to a stored case (the schema's required relation). */
  ghost predicate CasesExist(invoices: map<Id, Invoice>, cases: map<Id, Case>) {
    forall k :: k in invoices ==> invoices[k].caseId in cases
  }

  /** No two users share a Cognito subject or a LINE user id (unique columns). */
  ghost predicate UniqueIdentities(users: map<Id, User>) {
    && (forall a, b ::
          a in users && b in users && users[a].cognitoId.Some? && users[a].cognitoId == users[b].cognitoId
          ==> a == b)
    && (forall a, b ::
          a in users && b in users && users[a].lineUserId.Some? && users[a].lineUserId == users[b].lineUserId
          ==> a == b)
  }

  class Database {
    var cases: map<Id, Case>
    var invoices: map<Id, Invoice>
    var users: map<Id, User>

    ghost predicate Valid()
      reads this
    {
      && Keyed(cases, CaseId)
      && Keyed(invoices, InvoiceId)
      && Keyed(users, UserId)
      && CasesExist(invoices, cases)
      && UniqueIdentities(users)
    }

    constructor ()
      ensures Valid()
      ensures cases == map[] && invoices == map[] && users == map[]
    {
      cases, invoices, users := map[], map[], map[];
    }
  }
}

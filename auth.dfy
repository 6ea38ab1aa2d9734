/**
 * Sign-in: the token callback finds the user behind a Cognito or LINE
 * login, creating one on first login with the role the provider implies
 * (Cognito: HEADQUARTERS, LINE: HANDYMAN), and records the user's role
 * and id in the token; the session callback copies both to the session.
 */
module Auth {
  import opened Wrappers
  import opened Domain
  import opened Listing
  import opened Db

  /** The provider of the login that issued a token (present only at sign-in). */
  datatype Account = Account(provider: string)

  datatype Token = Token(
    sub: string,
    email: Option<string>,
    name: Option<string>,
    role: Option<Role>,
    dbId: Option<Id>)

  const DefaultStaffName: string := "本部スタッフ"
  const DefaultHandymanName: string := "便利屋ユーザー"

  /** The user a first Cognito login creates. */
  function NewCognitoUser(id: Id, token: Token): User {
    User(id, Some(token.sub), None, token.email, token.name.GetOr(DefaultStaffName), Headquarters)
  }

  /** The user a first LINE login creates. */
  function NewLineUser(id: Id, token: Token): User {
    User(id, None, Some(token.sub), None, token.name.GetOr(DefaultHandymanName), Handyman)
  }

  /**
   * A first Cognito login makes a HEADQUARTERS user and a first LINE login
   * a HANDYMAN, each holding the subject as its identity and falling back
   * to its default display name.
   */
  lemma FirstLoginRoles(id: Id, token: Token)
    ensures NewCognitoUser(id, token).role == Headquarters && NewCognitoUser(id, token).cognitoId == Some(token.sub)
    ensures NewLineUser(id, token).role == Handyman && NewLineUser(id, token).lineUserId == Some(token.sub)
    ensures token.name.None? ==>
              NewCognitoUser(id, token).name == "本部スタッフ" && NewLineUser(id, token).name == "便利屋ユーザー"
    ensures token.name.Some? ==>
              NewCognitoUser(id, token).name == token.name.value && NewLineUser(id, token).name == token.name.value
  {
  }

  /** The token once it names `u`. */
  function Signed(token: Token, u: User): (t: Token) {
    token.(role := Some(u.role), dbId := Some(u.id))
  }

  /** Some user already has Cognito subject `sub`. */
  ghost predicate CognitoKnown(users: map<Id, User>, sub: string) {
    exists k :: k in users && users[k].cognitoId == Some(sub)
  }

  /** Some user already has LINE user id `sub`. */
  ghost predicate LineKnown(users: map<Id, User>, sub: string) {
    exists k :: k in users && users[k].lineUserId == Some(sub)
  }

  /**
   * The `jwt` callback.  Without an account (any call after sign-in) or
   * for another provider, the token comes back unchanged.  For Cognito
   * (LINE) the user with that Cognito subject (LINE user id) is looked
   * up; if there is none one is created; the token then carries that
   * user's role and id.  An existing user's stored role is never changed.
   * When the lookup or the insert raises (`fault`), the callback raises
   * and the sign-in is aborted: the result is none and no user is stored.
   */
  method Jwt(db: Database, token: Token, account: Option<Account>, newId: Id, fault: bool)
    returns (t: Option<Token>)
    requires db.Valid() && newId !in db.users
    modifies db`users
    ensures db.Valid()
    ensures account.None? || account.value.provider !in {"cognito", "line"} ==>
              t == Some(token) && db.users == old(db.users)
    ensures account.Some? && account.value.provider in {"cognito", "line"} && fault ==>
              t.None? && db.users == old(db.users)
    ensures account == Some(Account("cognito")) && !fault && CognitoKnown(old(db.users), token.sub) ==>
              db.users == old(db.users)
              && forall k :: k in old(db.users) && old(db.users)[k].cognitoId == Some(token.sub) ==>
                   t == Some(Signed(token, old(db.users)[k]))
    ensures account == Some(Account("cognito")) && !fault && !CognitoKnown(old(db.users), token.sub) ==>
              db.users == old(db.users)[newId := NewCognitoUser(newId, token)]
              && t == Some(Signed(token, NewCognitoUser(newId, token)))
    ensures account == Some(Account("line")) && !fault && LineKnown(old(db.users), token.sub) ==>
              db.users == old(db.users)
              && forall k :: k in old(db.users) && old(db.users)[k].lineUserId == Some(token.sub) ==>
                   t == Some(Signed(token, old(db.users)[k]))
    ensures account == Some(Account("line")) && !fault && !LineKnown(old(db.users), token.sub) ==>
              db.users == old(db.users)[newId := NewLineUser(newId, token)]
              && t == Some(Signed(token, NewLineUser(newId, token)))
    ensures account == Some(Account("cognito")) && !fault ==>
              t.Some? && t.value.dbId.Some? && t.value.dbId.value in db.users
              && db.users[t.value.dbId.value].cognitoId == Some(token.sub)
              && t.value.role == Some(db.users[t.value.dbId.value].role)
    ensures account == Some(Account("line")) && !fault ==>
              t.Some? && t.value.dbId.Some? && t.value.dbId.value in db.users
              && db.users[t.value.dbId.value].lineUserId == Some(token.sub)
              && t.value.role == Some(db.users[t.value.dbId.value].role)
  {
    if account.None? || account.value.provider !in {"cognito", "line"} {
      return Some(token);
    }
    if fault {
      return None;
    }
    var user: Option<User>;
    if account.value.provider == "cognito" {
      user := FindFirst(db.users, (u: User) => u.cognitoId == Some(token.sub));
      if user.None? {
        var created := NewCognitoUser(newId, token);
        db.users := db.users[newId := created];
        user := Some(created);
      }
    } else {
      user := FindFirst(db.users, (u: User) => u.lineUserId == Some(token.sub));
      if user.None? {
        var created := NewLineUser(newId, token);
        db.users := db.users[newId := created];
        user := Some(created);
      }
    }
    t := Some(Signed(token, user.value));
  }

  /** The `session` callback: the session's role and id are the token's. */
  function SessionOf(token: Token): (s: Session)
    ensures s.role == token.role && s.dbId == token.dbId
  {
    Session(token.role, token.dbId)
  }

  /** A signed token yields a session with both a role and an id, and the role is the user's. */
  lemma SignedSessionNamesUser(token: Token, u: User)
    ensures SessionOf(Signed(token, u)) == Session(Some(u.role), Some(u.id))
  {
  }
}

/** The checks `require_auth` makes before a protected handler runs: the header scheme, the
    token, the user the token names, and the roles the route allows. Token decoding is a
    library call, so the tokens that decode and have not expired are given as a map from
    token to the claims it carries. */
module Auth {
  import opened Wrappers
  import opened Text
  import opened Schema

  /** The payload of a valid token. */
  datatype Claims = Claims(userId: int, role: string)

  /** Either the handler runs for this user, with the role stored for the user, or the
      request is refused. */
  datatype Decision = Proceed(userId: int, role: string) | Reject(error: HttpError)

  const BearerPrefix := "Bearer "

  /** `auth_header.replace('Bearer ', '')`: removes every occurrence, not only the first. */
  function BearerToken(header: string): string
  {
    ReplaceAll(header, BearerPrefix, "")
  }

  /** The decision for an `Authorization` header (empty when the header is absent) on a
      route that allows `allowedRoles` (every role when empty). */
  function Authorize(header: string, valid: map<string, Claims>, users: seq<User>, allowedRoles: seq<string>)
    : (d: Decision)
    ensures d.Proceed? ==> StartsWith(header, BearerPrefix) && BearerToken(header) in valid
    ensures d.Proceed? ==> d.userId == valid[BearerToken(header)].userId
    ensures d.Proceed? ==> UserById(users, d.userId).Some? && UserById(users, d.userId).value.isActive
    ensures d.Proceed? ==> d.role == users[d.userId - 1].role
    ensures d.Proceed? ==> |allowedRoles| == 0 || d.role in allowedRoles
    ensures d.Reject? ==> d.error.status == 401 || d.error.status == 403
    ensures StartsWith(header, BearerPrefix) && BearerToken(header) !in valid ==>
              d == Reject(HttpError(401, "Invalid or expired token"))
    ensures StartsWith(header, BearerPrefix) && BearerToken(header) in valid
            && (UserById(users, valid[BearerToken(header)].userId).None?
                || !UserById(users, valid[BearerToken(header)].userId).value.isActive) ==>
              d == Reject(HttpError(401, "User not found or inactive"))
    ensures d.Reject? && d.error.status == 403 ==>
              d.error.message == "Insufficient permissions" && |allowedRoles| > 0
              && StartsWith(header, BearerPrefix) && BearerToken(header) in valid
              && UserById(users, valid[BearerToken(header)].userId).Some?
              && UserById(users, valid[BearerToken(header)].userId).value.role !in allowedRoles
  {
    if !StartsWith(header, BearerPrefix) then Reject(HttpError(401, "Invalid authorization header"))
    else
      var token := BearerToken(header);
      if token !in valid then Reject(HttpError(401, "Invalid or expired token"))
      else
        var user := UserById(users, valid[token].userId);
        if user.None? || !user.value.isActive then Reject(HttpError(401, "User not found or inactive"))
        else if |allowedRoles| > 0 && user.value.role !in allowedRoles then
          Reject(HttpError(403, "Insufficient permissions"))
        else Proceed(valid[token].userId, user.value.role)
  }

  /** The converse of Authorize's guarantees: every request that passes all four checks runs. */
  lemma AuthorizeComplete(header: string, valid: map<string, Claims>, users: seq<User>, allowedRoles: seq<string>)
    requires StartsWith(header, BearerPrefix) && BearerToken(header) in valid
    requires var u := UserById(users, valid[BearerToken(header)].userId);
             u.Some? && u.value.isActive && (|allowedRoles| == 0 || u.value.role in allowedRoles)
    ensures Authorize(header, valid, users, allowedRoles)
              == Proceed(valid[BearerToken(header)].userId, users[valid[BearerToken(header)].userId - 1].role)
  {
  }

  /** A header without the scheme is refused before any token or user is looked at. */
  lemma HeaderCheckedFirst(header: string, valid: map<string, Claims>, users: seq<User>, allowedRoles: seq<string>)
    requires !StartsWith(header, BearerPrefix)
    ensures Authorize(header, valid, users, allowedRoles) == Reject(HttpError(401, "Invalid authorization header"))
  {
  }

  /** 403 is only ever answered to an authenticated, active user whose stored role the route
      does not allow; every other refusal is a 401. */
  lemma ForbiddenOnlyAfterAuthentication(
    header: string, valid: map<string, Claims>, users: seq<User>, allowedRoles: seq<string>)
    requires Authorize(header, valid, users, allowedRoles).Reject?
    ensures var d := Authorize(header, valid, users, allowedRoles);
            d.error.status == 403 <==>
              StartsWith(header, BearerPrefix) && BearerToken(header) in valid
              && UserById(users, valid[BearerToken(header)].userId).Some?
              && users[valid[BearerToken(header)].userId - 1].isActive
              && |allowedRoles| > 0 && users[valid[BearerToken(header)].userId - 1].role !in allowedRoles
  {
  }

  /** The role written into the token plays no part: only the user id is read from it. */
  lemma TokenRoleIgnored(
    header: string, valid: map<string, Claims>, token: string, role: string, users: seq<User>, allowedRoles: seq<string>)
    requires token in valid
    ensures Authorize(header, valid[token := Claims(valid[token].userId, role)], users, allowedRoles)
              == Authorize(header, valid, users, allowedRoles)
  {
  }

  /** A well-formed header `Bearer <t>` yields the token `t`. */
  lemma StandardHeader(t: string)
    requires !Contains(t, BearerPrefix)
    ensures StartsWith(BearerPrefix + t, BearerPrefix)
    ensures BearerToken(BearerPrefix + t) == t
  {
    RemovePrefix(BearerPrefix, t);
  }

  /** Because every occurrence of the prefix is removed, a doubled scheme
      `Bearer Bearer <t>` still yields `t`. */
  lemma {:induction false} DoubledPrefixAccepted(t: string)
    requires !Contains(t, BearerPrefix)
    ensures BearerToken(BearerPrefix + BearerPrefix + t) == t
  {
    var p := BearerPrefix;
    var s := p + p + t;
    assert StartsWith(s, p) && Find(s, p) == Some(0);
    assert s[..0] == [] && s[|p|..] == p + t;
    assert StartsWith(p + t, p) && Find(p + t, p) == Some(0);
    assert (p + t)[..0] == [] && (p + t)[|p|..] == t;
    assert Find(t, p).None? && Split(t, p) == [t];
    assert Split(p + t, p) == [[], t];
    assert Split(s, p) == [[], [], t];
    assert Join([[], [], t], "") == Join([[], t], "") == Join([t], "");
  }
}

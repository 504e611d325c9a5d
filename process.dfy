/**
 * The storefront redemption request: validate the token, log the customer
 * in, then mark the record used; if the login raises, mark it failed.
 */
module LoginProcess {
  import opened Wrappers
  import opened AuditLogModel
  import opened TokenLifecycle
  import Config
  import Php

  const HOME: string := "/"

  const MSG_DISABLED: string := "Login as Customer feature is disabled."
  const MSG_INVALID_REQUEST: string := "Invalid login request."
  const MSG_LINK_INVALID: string := "Login link has expired or is invalid."
  const MSG_LOGGED_IN: string := "You have been logged in successfully."
  const MSG_LOGIN_ERROR: string := "An error occurred while logging you in."

  /**
   * The clock reading of the request and how its collaborators behave: the
   * token lookup query, the save that expires a late token, the customer
   * login, and the save that marks the record used or failed.
   */
  datatype RequestEnv = RequestEnv(now: int, queryOk: bool, expireSaveOk: bool, loginOk: bool, markSaveOk: bool)

  /** Where the request redirects, the message it shows, and the customer now logged in, if any. */
  datatype Response = Response(path: string, message: string, session: Option<int>)

  /** `(int)$auditLog->getCustomerId()`. */
  function CustomerIdOf(d: LogData): int {
    if d.customerId.Some? then d.customerId.value else 0
  }

  /**
   * The redemption request as a function of the audit table. A customer
   * session is established exactly when the feature is on, a truthy token is
   * given, validation returns a record and the login succeeds; it is the
   * record's customer, and the request then goes to the redirect page.
   * Every other outcome goes to `/`.
   */
  function Redeem(t: Table, hash: string -> string, cfg: Config.ScopeConfig, tokenParam: Option<string>, env: RequestEnv)
    : (r: (Response, Table))
    requires t.Valid()
    ensures r.1.Valid()
    ensures !Config.IsEnabled(cfg) ==> r == (Response(HOME, MSG_DISABLED, None), t)
    ensures Config.IsEnabled(cfg) && !Php.Truthy(tokenParam) ==> r == (Response(HOME, MSG_INVALID_REQUEST, None), t)
    ensures Config.IsEnabled(cfg) && Php.Truthy(tokenParam) && !env.queryOk ==>
              r == (Response(HOME, MSG_LOGIN_ERROR, None), t)
    ensures Config.IsEnabled(cfg) && Php.Truthy(tokenParam) && env.queryOk ==>
              var found := Validate(t, hash, tokenParam.value, env.now, env.expireSaveOk).0;
              && (found.None? ==> r == (Response(HOME, MSG_LINK_INVALID, None), Validate(t, hash, tokenParam.value, env.now, env.expireSaveOk).1))
              && (found.Some? && env.loginOk ==>
                    && r.0 == Response(Config.GetRedirectPage(cfg), MSG_LOGGED_IN, Some(CustomerIdOf(found.value)))
                    && r.1 == MarkUsed(t, found.value, env.now, env.markSaveOk).0)
              && (found.Some? && !env.loginOk ==>
                    && r.0 == Response(HOME, MSG_LOGIN_ERROR, None)
                    && r.1 == MarkFailed(t, found.value, env.markSaveOk).0)
    ensures r.0.session.None? ==> r.0.path == HOME
  {
    if !Config.IsEnabled(cfg) then (Response(HOME, MSG_DISABLED, None), t)
    else if !Php.Truthy(tokenParam) then (Response(HOME, MSG_INVALID_REQUEST, None), t)
    else if !env.queryOk then (Response(HOME, MSG_LOGIN_ERROR, None), t)
    else
      var validated := Validate(t, hash, tokenParam.value, env.now, env.expireSaveOk);
      match validated.0
      case None => (Response(HOME, MSG_LINK_INVALID, None), validated.1)
      case Some(record) =>
        if env.loginOk then
          (Response(Config.GetRedirectPage(cfg), MSG_LOGGED_IN, Some(CustomerIdOf(record))),
           MarkUsed(validated.1, record, env.now, env.markSaveOk).0)
        else
          (Response(HOME, MSG_LOGIN_ERROR, None), MarkFailed(validated.1, record, env.markSaveOk).0)
  }

  /**
   * At most one row changes; it was PENDING and ends terminal. No row is
   * added or removed.
   */
  predicate ResolvesAtMostOnePending(before: Table, after: Table) {
    && before.nextId == after.nextId
    && before.rows.Keys == after.rows.Keys
    && (forall i, j ::
          (i in before.rows && j in before.rows && after.rows[i] != before.rows[i] && after.rows[j] != before.rows[j])
          ==> i == j)
    && (forall id :: id in before.rows && after.rows[id] != before.rows[id] ==>
          before.rows[id].status == Some(STATUS_PENDING) && IsTerminal(after.rows[id].status))
  }

  /** A changed row that is SUCCESS afterwards. */
  predicate MarkedSuccess(before: Table, after: Table) {
    exists id :: id in before.rows && id in after.rows && after.rows[id] != before.rows[id]
                 && after.rows[id].status == Some(STATUS_SUCCESS)
  }

  /** A changed row that is FAILED afterwards. */
  predicate MarkedFailed(before: Table, after: Table) {
    exists id :: id in before.rows && id in after.rows && after.rows[id] != before.rows[id]
                 && after.rows[id].status == Some(STATUS_FAILED)
  }

  /**
   * A redemption request resolves at most one PENDING record; it marks a
   * record SUCCESS only when the login succeeded and a session was
   * established, and FAILED only when the login raised.
   */
  lemma RedeemResolvesAtMostOnePending(
    t: Table, hash: string -> string, cfg: Config.ScopeConfig, tokenParam: Option<string>, env: RequestEnv)
    requires t.Valid()
    ensures ResolvesAtMostOnePending(t, Redeem(t, hash, cfg, tokenParam, env).1)
    ensures MarkedSuccess(t, Redeem(t, hash, cfg, tokenParam, env).1) ==>
              env.loginOk && Redeem(t, hash, cfg, tokenParam, env).0.session.Some?
    ensures MarkedFailed(t, Redeem(t, hash, cfg, tokenParam, env).1) ==>
              !env.loginOk && Redeem(t, hash, cfg, tokenParam, env).0.session.None?
  {
    if Config.IsEnabled(cfg) && Php.Truthy(tokenParam) && env.queryOk {
      var validated := Validate(t, hash, tokenParam.value, env.now, env.expireSaveOk);
      if validated.0.None? {
        RedeemUnmatched(t, hash, cfg, tokenParam.value, env);
      } else {
        RedeemMatched(t, hash, cfg, tokenParam.value, env);
      }
    }
  }

  /** An unmatched or expired token only expires PENDING rows and marks none. */
  lemma RedeemUnmatched(t: Table, hash: string -> string, cfg: Config.ScopeConfig, token: string, env: RequestEnv)
    requires t.Valid() && Config.IsEnabled(cfg) && Php.Truthy(Some(token)) && env.queryOk
    requires Validate(t, hash, token, env.now, env.expireSaveOk).0.None?
    ensures ResolvesAtMostOnePending(t, Redeem(t, hash, cfg, Some(token), env).1)
    ensures !MarkedSuccess(t, Redeem(t, hash, cfg, Some(token), env).1)
    ensures !MarkedFailed(t, Redeem(t, hash, cfg, Some(token), env).1)
  {
    ValidateOnlyExpiresPending(t, hash, token, env.now, env.expireSaveOk);
  }

  /** A matched token has its row, and only its row, marked as the login went. */
  lemma RedeemMatched(t: Table, hash: string -> string, cfg: Config.ScopeConfig, token: string, env: RequestEnv)
    requires t.Valid() && Config.IsEnabled(cfg) && Php.Truthy(Some(token)) && env.queryOk
    requires Validate(t, hash, token, env.now, env.expireSaveOk).0.Some?
    ensures ResolvesAtMostOnePending(t, Redeem(t, hash, cfg, Some(token), env).1)
    ensures MarkedSuccess(t, Redeem(t, hash, cfg, Some(token), env).1) ==> env.loginOk
    ensures MarkedFailed(t, Redeem(t, hash, cfg, Some(token), env).1) ==> !env.loginOk
  {
    var id := FirstPending(t, hash(token)).value;
    var after := Redeem(t, hash, cfg, Some(token), env).1;
    assert Validate(t, hash, token, env.now, env.expireSaveOk).0.value == t.rows[id];
    MarkResolvesOnly(t, id, env.now, env.loginOk, env.markSaveOk);
    assert after == (if env.loginOk then MarkUsed(t, t.rows[id], env.now, env.markSaveOk).0
                     else MarkFailed(t, t.rows[id], env.markSaveOk).0);
    ResolvesOnly(t, after, id, if env.loginOk then STATUS_SUCCESS else STATUS_FAILED);
  }

  /**
   * A table that differs from `before` at most in the PENDING row `id`, which
   * takes the terminal status `status`, resolves at most one PENDING row, and
   * any row it marks SUCCESS or FAILED is marked with `status`.
   */
  lemma ResolvesOnly(before: Table, after: Table, id: nat, status: string)
    requires id in before.rows && before.rows[id].status == Some(STATUS_PENDING)
    requires status == STATUS_SUCCESS || status == STATUS_FAILED
    requires after.nextId == before.nextId && after.rows.Keys == before.rows.Keys
    requires forall j :: j in before.rows && j != id ==> after.rows[j] == before.rows[j]
    requires after.rows[id] == before.rows[id] || after.rows[id].status == Some(status)
    ensures ResolvesAtMostOnePending(before, after)
    ensures MarkedSuccess(before, after) ==> status == STATUS_SUCCESS
    ensures MarkedFailed(before, after) ==> status == STATUS_FAILED
  {
  }

  /**
   * Marking the stored PENDING record `id` used or failed changes its row
   * only, and only to SUCCESS or FAILED respectively.
   */
  lemma MarkResolvesOnly(t: Table, id: nat, now: int, loginOk: bool, saveOk: bool)
    requires t.Valid() && id in t.rows && t.rows[id].status == Some(STATUS_PENDING)
    ensures
      var after := if loginOk then MarkUsed(t, t.rows[id], now, saveOk).0 else MarkFailed(t, t.rows[id], saveOk).0;
      && after.nextId == t.nextId && after.rows.Keys == t.rows.Keys
      && (forall j :: j in t.rows && j != id ==> after.rows[j] == t.rows[j])
      && (after.rows[id] == t.rows[id]
          || after.rows[id].status == Some(if loginOk then STATUS_SUCCESS else STATUS_FAILED))
  {
  }

  /**
   * A token already redeemed successfully is rejected by every later request:
   * no session, redirect to `/`. Assumes at most one PENDING row carries the
   * token's hash when it is first redeemed.
   */
  lemma RedeemedTokenRejected(
    t: Table, hash: string -> string, cfg: Config.ScopeConfig, token: string, first: RequestEnv, second: RequestEnv)
    requires t.Valid()
    requires forall i, j ::
               (i in t.rows && j in t.rows && PendingWith(t.rows[i], hash(token)) && PendingWith(t.rows[j], hash(token)))
               ==> i == j
    requires first.markSaveOk
    requires Redeem(t, hash, cfg, Some(token), first).0.session.Some?
    ensures
      var t1 := Redeem(t, hash, cfg, Some(token), first).1;
      Redeem(t1, hash, cfg, Some(token), second).0 == Response(HOME, if second.queryOk then MSG_LINK_INVALID else MSG_LOGIN_ERROR, None)
  {
  }

  /**
   * When the save that marks a redeemed token used fails, the failure is
   * swallowed and the table is left as it was: the token stays PENDING, and
   * every later successful request with it up to its expiry logs the same
   * customer in again.
   */
  lemma FailedMarkLeavesTokenLive(
    t: Table, hash: string -> string, cfg: Config.ScopeConfig, token: string, first: RequestEnv, second: RequestEnv)
    requires t.Valid()
    requires !first.markSaveOk
    requires Redeem(t, hash, cfg, Some(token), first).0.session.Some?
    requires second.queryOk && second.loginOk
    requires second.now <= t.rows[FirstPending(t, hash(token)).value].expiresAt.value
    ensures Redeem(t, hash, cfg, Some(token), first).1 == t
    ensures Redeem(Redeem(t, hash, cfg, Some(token), first).1, hash, cfg, Some(token), second).0
            == Redeem(t, hash, cfg, Some(token), first).0
  {
  }

  /** `execute` of the storefront login controller. */
  method Execute(svc: TokenService, cfg: Config.ScopeConfig, tokenParam: Option<string>, env: RequestEnv)
    returns (resp: Response)
    requires svc.table.Valid()
    modifies svc
    ensures svc.table.Valid()
    ensures (resp, svc.table) == Redeem(old(svc.table), svc.hash, cfg, tokenParam, env)
  {
    if !Config.IsEnabled(cfg) {
      return Response(HOME, MSG_DISABLED, None);
    }
    if !Php.Truthy(tokenParam) {
      return Response(HOME, MSG_INVALID_REQUEST, None);
    }
    var auditLog, raised := svc.ValidateToken(tokenParam.value, env.now, env.queryOk, env.expireSaveOk);
    if raised {
      // caught before `$auditLog` was assigned: nothing to mark
      return Response(HOME, MSG_LOGIN_ERROR, None);
    }
    if auditLog == null {
      return Response(HOME, MSG_LINK_INVALID, None);
    }
    var customerId := if auditLog.GetCustomerId().Some? then auditLog.GetCustomerId().value else 0;
    if !env.loginOk {
      // the login raised after a record was obtained
      svc.MarkTokenAsFailed(auditLog, env.markSaveOk);
      return Response(HOME, MSG_LOGIN_ERROR, None);
    }
    svc.MarkTokenAsUsed(auditLog, env.now, env.markSaveOk);
    return Response(Config.GetRedirectPage(cfg), MSG_LOGGED_IN, Some(customerId));
  }
}

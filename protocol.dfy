/**
 * The two requests together: the admin's generate request issues a token
 * and hands back the storefront URL; redeeming the token taken from that
 * URL within its lifetime logs the customer in, and any later redemption of
 * the same URL is refused.
 */
module LoginProtocol {
  import opened Wrappers
  import opened Platform
  import opened TokenLifecycle
  import Config
  import Php
  import LoginGenerate
  import LoginProcess

  /** The `token` query parameter of a redemption URL built on this base URL. */
  function TokenParam(url: string, baseUrl: string): string
    requires |baseUrl| + |LoginGenerate.PROCESS_PATH| <= |url|
  {
    url[|baseUrl| + |LoginGenerate.PROCESS_PATH|..]
  }

  /**
   * A link generated for an existing customer by an identified admin, on a
   * known website, redeemed within the configured lifetime with the
   * collaborators succeeding, logs in exactly that customer and sends them to
   * the redirect page; a second redemption of the same link is refused.
   * Assumes no PENDING row already carried the new token's hash.
   */
  lemma GeneratedLinkLogsInOnce(
    t: Table, hash: string -> string, cfg: Config.ScopeConfig, req: LoginGenerate.AdminRequest,
    customers: map<int, Customer>, stores: LoginGenerate.StoreManager, random: RandomBlock, now: int,
    redeem: LoginProcess.RequestEnv, again: LoginProcess.RequestEnv)
    requires t.Valid()
    requires Config.IsEnabled(cfg)
    requires Php.IntCast(req.customerIdParam) != 0 && Php.IntCast(req.customerIdParam) in customers
    requires req.admin.Some? && req.admin.value.id != 0
    requires LoginGenerate.ChooseStore(Php.IntCast(req.websiteIdParam), stores).Ok?
    requires forall id :: id in t.rows ==> !PendingWith(t.rows[id], hash(BinToHex(random)))
    requires redeem.now <= now + Config.GetTokenLifetime(cfg) * 60
    requires redeem.queryOk && redeem.loginOk && redeem.markSaveOk
    ensures
      var customerId := Php.IntCast(req.customerIdParam);
      var baseUrl := LoginGenerate.ChooseStore(Php.IntCast(req.websiteIdParam), stores).value.baseUrl;
      var (resp, t1) := LoginGenerate.Generated(t, hash, cfg, req, customers, stores, random, now, true);
      && resp.error == None
      && resp.redirect.ToUrl?
      && |baseUrl| + |LoginGenerate.PROCESS_PATH| <= |resp.redirect.url|
      && var token := TokenParam(resp.redirect.url, baseUrl);
      && var (first, t2) := LoginProcess.Redeem(t1, hash, cfg, Some(token), redeem);
      && first == LoginProcess.Response(Config.GetRedirectPage(cfg), LoginProcess.MSG_LOGGED_IN, Some(customerId))
      && LoginProcess.Redeem(t2, hash, cfg, Some(token), again).0.session == None
  {
  }
}

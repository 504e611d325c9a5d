/**
 * The admin request that issues a token and redirects the admin to the
 * storefront redemption URL of the chosen website.
 */
module LoginGenerate {
  import opened Wrappers
  import opened Platform
  import opened TokenLifecycle
  import Config
  import Php

  const CUSTOMER_GRID: string := "customer/index/index"
  const CUSTOMER_EDIT: string := "customer/index/edit"
  const PROCESS_PATH: string := "loginascustomer/login/process?token="

  const MSG_DISABLED: string := "Login as Customer feature is disabled."
  const MSG_CUSTOMER_ID_REQUIRED: string := "Customer ID is required."

  /** A redirect to an admin route with parameters, or to an absolute URL. */
  datatype Redirect = ToPath(path: string, params: seq<(string, int)>) | ToUrl(url: string)

  /** The redirect and the error message added to the admin session, if any. */
  datatype Response = Response(redirect: Redirect, error: Option<string>)

  /**
   * The store manager: the current store, the default store of each known
   * website, and the message its not-found exception carries for an unknown
   * website id.
   */
  datatype StoreManager = StoreManager(current: Store, defaultStores: map<int, Store>, notFound: int -> string)

  /**
   * The admin request: its `customer_id` and `website_id` parameters, the
   * admin user of the session and the admin's remote address.
   */
  datatype AdminRequest = AdminRequest(
    customerIdParam: Option<string>,
    websiteIdParam: Option<string>,
    admin: Option<AdminUser>,
    remoteAddress: Option<string>)

  /** The store whose base URL starts the login URL: the website's default store, or the current store for website 0. */
  function ChooseStore(websiteId: int, stores: StoreManager): (r: Result<Store>)
    ensures websiteId == 0 ==> r == Ok(stores.current)
    ensures websiteId != 0 && websiteId in stores.defaultStores ==> r == Ok(stores.defaultStores[websiteId])
    ensures websiteId != 0 && websiteId !in stores.defaultStores ==> r == Err(stores.notFound(websiteId))
  {
    if websiteId != 0 then
      if websiteId in stores.defaultStores then Ok(stores.defaultStores[websiteId])
      else Err(stores.notFound(websiteId))
    else Ok(stores.current)
  }

  /** The storefront URL that redeems a token. */
  function LoginUrl(baseUrl: string, token: string): (url: string)
    ensures |url| == |baseUrl| + |PROCESS_PATH| + |token|
    ensures url[..|baseUrl|] == baseUrl
    ensures url[|baseUrl|..|baseUrl| + |PROCESS_PATH|] == PROCESS_PATH
    ensures url[|baseUrl| + |PROCESS_PATH|..] == token
  {
    baseUrl + PROCESS_PATH + token
  }

  /** What `generateToken` is given by this request. */
  function ContextOf(req: AdminRequest, customers: map<int, Customer>, stores: StoreManager): IssueContext {
    IssueContext(customers, req.admin, req.remoteAddress, stores.current.id)
  }

  /**
   * The generate request as a function of the audit table. The feature
   * switch and a zero customer id send the admin back to the grid with
   * nothing issued; otherwise a token is issued and, when the store is
   * found, the admin is sent to that store's redemption URL for the token;
   * every failure returns to the customer's edit page with its message.
   */
  function Generated(t: Table, hash: string -> string, cfg: Config.ScopeConfig, req: AdminRequest,
                     customers: map<int, Customer>, stores: StoreManager, random: RandomBlock, now: int, saveOk: bool)
    : (r: (Response, Table))
    requires t.Valid()
    ensures r.1.Valid()
    ensures !Config.IsEnabled(cfg) ==> r == (Response(ToPath(CUSTOMER_GRID, []), Some(MSG_DISABLED)), t)
    ensures Config.IsEnabled(cfg) && Php.IntCast(req.customerIdParam) == 0 ==>
              r == (Response(ToPath(CUSTOMER_GRID, []), Some(MSG_CUSTOMER_ID_REQUIRED)), t)
    ensures Config.IsEnabled(cfg) && Php.IntCast(req.customerIdParam) != 0 ==>
              var customerId := Php.IntCast(req.customerIdParam);
              var (issued, t1) := Issue(t, hash, customerId, ContextOf(req, customers, stores), random, now,
                                        Config.GetTokenLifetime(cfg), saveOk);
              var store := ChooseStore(Php.IntCast(req.websiteIdParam), stores);
              && r.1 == t1
              && (issued.Err? ==> r.0 == Response(ToPath(CUSTOMER_EDIT, [("id", customerId)]), Some(issued.message)))
              && (issued.Ok? && store.Err? ==> r.0 == Response(ToPath(CUSTOMER_EDIT, [("id", customerId)]), Some(store.message)))
              && (issued.Ok? && store.Ok? ==> r.0 == Response(ToUrl(LoginUrl(store.value.baseUrl, issued.value.token)), None))
  {
    if !Config.IsEnabled(cfg) then (Response(ToPath(CUSTOMER_GRID, []), Some(MSG_DISABLED)), t)
    else
      var customerId := Php.IntCast(req.customerIdParam);
      if customerId == 0 then (Response(ToPath(CUSTOMER_GRID, []), Some(MSG_CUSTOMER_ID_REQUIRED)), t)
      else
        var back := ToPath(CUSTOMER_EDIT, [("id", customerId)]);
        var (issued, t1) := Issue(t, hash, customerId, ContextOf(req, customers, stores), random, now,
                                  Config.GetTokenLifetime(cfg), saveOk);
        match issued
        case Err(message) => (Response(back, Some(message)), t1)
        case Ok(tokenData) =>
          match ChooseStore(Php.IntCast(req.websiteIdParam), stores)
          case Err(message) => (Response(back, Some(message)), t1)
          case Ok(store) => (Response(ToUrl(LoginUrl(store.baseUrl, tokenData.token)), None), t1)
  }

  /**
   * An unknown website id is only looked up after the token is issued: the
   * admin gets the store manager's error, yet a new PENDING row remains,
   * whose token nobody received.
   */
  lemma UnknownWebsiteLeavesPendingRow(t: Table, hash: string -> string, cfg: Config.ScopeConfig, req: AdminRequest,
                                       customers: map<int, Customer>, stores: StoreManager, random: RandomBlock, now: int)
    requires t.Valid()
    requires Config.IsEnabled(cfg)
    requires Php.IntCast(req.customerIdParam) in customers
    requires Php.IntCast(req.customerIdParam) != 0
    requires req.admin.Some? && req.admin.value.id != 0
    requires Php.IntCast(req.websiteIdParam) != 0 && Php.IntCast(req.websiteIdParam) !in stores.defaultStores
    ensures
      var (resp, t1) := Generated(t, hash, cfg, req, customers, stores, random, now, true);
      && resp.redirect.ToPath? && resp.error == Some(stores.notFound(Php.IntCast(req.websiteIdParam)))
      && exists id: nat :: id !in t.rows && id in t1.rows && t1.rows == t.rows[id := t1.rows[id]]
                           && t1.rows[id].status == Some(AuditLogModel.STATUS_PENDING)
  {
    var customerId := Php.IntCast(req.customerIdParam);
    var ctx := ContextOf(req, customers, stores);
    var lifetime := Config.GetTokenLifetime(cfg);
    var issued := Issue(t, hash, customerId, ctx, random, now, lifetime, true);
    assert issued.0.Ok?;
    var id := issued.0.value.logId;
    assert ChooseStore(Php.IntCast(req.websiteIdParam), stores).Err?;
    var r := Generated(t, hash, cfg, req, customers, stores, random, now, true);
    assert r.1 == issued.1;
    assert id !in t.rows && r.1.rows == t.rows[id := r.1.rows[id]];
  }

  /** `execute` of the admin generate controller. */
  method Execute(svc: TokenService, cfg: Config.ScopeConfig, req: AdminRequest, customers: map<int, Customer>,
                 stores: StoreManager, random: RandomBlock, now: int, saveOk: bool)
    returns (resp: Response)
    requires svc.table.Valid()
    requires svc.config == cfg
    modifies svc
    ensures svc.table.Valid()
    ensures (resp, svc.table) == Generated(old(svc.table), svc.hash, cfg, req, customers, stores, random, now, saveOk)
  {
    if !Config.IsEnabled(cfg) {
      return Response(ToPath(CUSTOMER_GRID, []), Some(MSG_DISABLED));
    }
    var customerId := Php.IntCast(req.customerIdParam);
    if customerId == 0 {
      return Response(ToPath(CUSTOMER_GRID, []), Some(MSG_CUSTOMER_ID_REQUIRED));
    }
    var websiteId := Php.IntCast(req.websiteIdParam);

    var tokenData := svc.GenerateToken(customerId, ContextOf(req, customers, stores), random, now, saveOk);
    if tokenData.Err? {
      return Response(ToPath(CUSTOMER_EDIT, [("id", customerId)]), Some(tokenData.message));
    }
    var store: Store;
    if websiteId != 0 {
      if websiteId !in stores.defaultStores {
        return Response(ToPath(CUSTOMER_EDIT, [("id", customerId)]), Some(stores.notFound(websiteId)));
      }
      store := stores.defaultStores[websiteId];
    } else {
      store := stores.current;
    }
    var baseUrl := store.baseUrl;
    var loginUrl := baseUrl + PROCESS_PATH + tokenData.value.token;
    return Response(ToUrl(loginUrl), None);
  }
}

/**
 * The module's configuration getters. A configuration scope is a map from
 * path to stored string; a path with no entry reads as null.
 */
module Config {
  import opened Wrappers
  import Php

  const XML_PATH_ENABLED: string := "ashokkumar_loginascustomer/general/enabled"
  const XML_PATH_TOKEN_LIFETIME: string := "ashokkumar_loginascustomer/general/token_lifetime"
  const XML_PATH_REDIRECT_PAGE: string := "ashokkumar_loginascustomer/general/redirect_page"
  const XML_PATH_AUDIT_ENABLED: string := "ashokkumar_loginascustomer/general/audit_enabled"
  const XML_PATH_SHARE_SCOPE: string := "customer/account_share/scope"

  const DEFAULT_TOKEN_LIFETIME: int := 5
  const DEFAULT_REDIRECT_PAGE: string := "customer/account"

  /**
   * The values seen at the current store scope (the module's own settings)
   * and at the default scope (the customer account-sharing setting).
   */
  datatype ScopeConfig = ScopeConfig(storeScope: map<string, string>, defaultScope: map<string, string>)

  function Lookup(scope: map<string, string>, path: string): Option<string> {
    if path in scope then Some(scope[path]) else None
  }

  /** `isSetFlag` of the enabled path at store scope: unset, empty and "0" mean off. */
  predicate IsEnabled(cfg: ScopeConfig)
    ensures IsEnabled(cfg) <==> XML_PATH_ENABLED in cfg.storeScope && cfg.storeScope[XML_PATH_ENABLED] !in {"", "0"}
  {
    Php.Truthy(Lookup(cfg.storeScope, XML_PATH_ENABLED))
  }

  /** `isSetFlag` of the audit path at store scope: unset, empty and "0" mean off. */
  predicate IsAuditEnabled(cfg: ScopeConfig)
    ensures IsAuditEnabled(cfg) <==> XML_PATH_AUDIT_ENABLED in cfg.storeScope && cfg.storeScope[XML_PATH_AUDIT_ENABLED] !in {"", "0"}
  {
    Php.Truthy(Lookup(cfg.storeScope, XML_PATH_AUDIT_ENABLED))
  }

  /** Token lifetime in minutes: the stored value cast to int, or 5 when it is falsy. */
  function GetTokenLifetime(cfg: ScopeConfig): (minutes: int)
    ensures !Php.Truthy(Lookup(cfg.storeScope, XML_PATH_TOKEN_LIFETIME)) ==> minutes == DEFAULT_TOKEN_LIFETIME
    ensures Php.Truthy(Lookup(cfg.storeScope, XML_PATH_TOKEN_LIFETIME)) ==>
              minutes == Php.IntCast(Lookup(cfg.storeScope, XML_PATH_TOKEN_LIFETIME))
  {
    var value := Lookup(cfg.storeScope, XML_PATH_TOKEN_LIFETIME);
    if Php.Truthy(value) then Php.IntCast(value) else DEFAULT_TOKEN_LIFETIME
  }

  /** Path to redirect to after login: the stored value, or `customer/account` when it is falsy. */
  function GetRedirectPage(cfg: ScopeConfig): (page: string)
    ensures Php.Truthy(Some(page))
    ensures Php.Truthy(Lookup(cfg.storeScope, XML_PATH_REDIRECT_PAGE)) ==>
              page == cfg.storeScope[XML_PATH_REDIRECT_PAGE]
    ensures !Php.Truthy(Lookup(cfg.storeScope, XML_PATH_REDIRECT_PAGE)) ==> page == DEFAULT_REDIRECT_PAGE
  {
    var value := Lookup(cfg.storeScope, XML_PATH_REDIRECT_PAGE);
    if Php.Truthy(value) then value.value else DEFAULT_REDIRECT_PAGE
  }

  /** Customer accounts are shared globally when the share scope casts to 0 ("0" = global, "1" = per website). */
  predicate IsWebsiteShareEnabled(cfg: ScopeConfig)
    ensures XML_PATH_SHARE_SCOPE !in cfg.defaultScope ==> IsWebsiteShareEnabled(cfg)
    ensures IsWebsiteShareEnabled(cfg) <==>
              XML_PATH_SHARE_SCOPE !in cfg.defaultScope || Php.StringToInt(cfg.defaultScope[XML_PATH_SHARE_SCOPE]) == 0
  {
    Php.IntCast(Lookup(cfg.defaultScope, XML_PATH_SHARE_SCOPE)) == 0
  }

  /** A configured lifetime of n minutes is used as is; "0" is falsy and falls back to the default. */
  lemma ConfiguredLifetime(cfg: ScopeConfig, n: int)
    requires Lookup(cfg.storeScope, XML_PATH_TOKEN_LIFETIME) == Some(Php.IntToString(n))
    ensures GetTokenLifetime(cfg) == if n == 0 then DEFAULT_TOKEN_LIFETIME else n
  {
    Php.IntToStringRoundTrip(n);
    Php.IntToStringRoundTrip(0);
    assert Php.IntToString(0) == "0";
  }

  /** Unset, "0" and any value that casts to 0 mean global sharing; "1" means per-website accounts. */
  lemma ShareScopeSettings(cfg: ScopeConfig)
    ensures XML_PATH_SHARE_SCOPE !in cfg.defaultScope ==> IsWebsiteShareEnabled(cfg)
    ensures Lookup(cfg.defaultScope, XML_PATH_SHARE_SCOPE) == Some("0") ==> IsWebsiteShareEnabled(cfg)
    ensures Lookup(cfg.defaultScope, XML_PATH_SHARE_SCOPE) == Some("1") ==> !IsWebsiteShareEnabled(cfg)
  {
    Php.IntToStringRoundTrip(0);
    Php.IntToStringRoundTrip(1);
    assert Php.IntToString(0) == "0" && Php.IntToString(1) == "1";
  }

  /** Each flag reads its own path only: writing any other path leaves it as it was. */
  lemma FlagsReadOwnPath(cfg: ScopeConfig, path: string, value: string)
    ensures path != XML_PATH_ENABLED ==>
              IsEnabled(cfg.(storeScope := cfg.storeScope[path := value])) == IsEnabled(cfg)
    ensures path != XML_PATH_AUDIT_ENABLED ==>
              IsAuditEnabled(cfg.(storeScope := cfg.storeScope[path := value])) == IsAuditEnabled(cfg)
  {
  }
}

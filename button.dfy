/**
 * The "Login as Customer" button of the admin customer edit page: none when
 * the customer id is 0, the admin lacks the login permission or the feature
 * is off; a plain button for a single listed website; a split button with
 * one option per website when several are listed.
 */
module LoginAsCustomerButton {
  import opened Wrappers
  import opened Platform
  import Php
  import Config
  import WebsiteScope

  const LABEL: string := "Login as Customer"
  const CSS_CLASS: string := "login-as-customer"
  const SPLIT_BUTTON_CLASS: string := "Magento\\Ui\\Component\\Control\\SplitButton"
  const SORT_ORDER: int := 60

  /** A drop-down entry: the website name, and the URL its click opens in a new window. */
  datatype ButtonOption = ButtonOption(text: string, opens: Url)

  /** The button data array; `NoButton` is the empty array. */
  datatype ButtonData =
    | NoButton
    | Simple(text: string, cssClass: string, opens: Url, sortOrder: int)
    | Split(text: string, cssClass: string, className: string, options: seq<ButtonOption>, sortOrder: int)

  /** What the edit page sees of the shop for one request. */
  datatype PageContext = PageContext(
    customerIdParam: Option<string>,        // the customer id of the page
    allowed: bool,                          // the admin holds the login permission
    customers: map<int, Customer>,          // the customer repository
    allWebsites: Option<seq<Website>>)      // the store manager's websites; None when it raised

  /**
   * `getCustomerWebsites` of the button: the websites listed for the
   * customer's own website id, and none when the customer does not exist or
   * the store manager raised.
   */
  function ListedWebsites(customerId: int, customers: map<int, Customer>, allWebsites: Option<seq<Website>>, cfg: Config.ScopeConfig)
    : seq<(int, string)>
  {
    if customerId !in customers || allWebsites.None? then []
    else WebsiteScope.CustomerWebsites(allWebsites.value, Some(customers[customerId].websiteId), Config.IsWebsiteShareEnabled(cfg))
  }

  /** `getWebsiteOptions`: one entry per listed website, in order. */
  function WebsiteOptions(customerId: int, websites: seq<(int, string)>): (options: seq<ButtonOption>)
    ensures |options| == |websites|
    ensures forall i :: 0 <= i < |websites| ==>
              options[i].text == websites[i].1 && options[i].opens == WebsiteScope.GenerateUrl(customerId, websites[i].0)
  {
    seq(|websites|, i requires 0 <= i < |websites| => ButtonOption(websites[i].1, WebsiteScope.GenerateUrl(customerId, websites[i].0)))
  }

  /**
   * `getButtonData`. A button is shown exactly when the customer id is
   * non-zero, the admin is allowed, the feature is on and at least one
   * website is listed; it is a split button exactly when several are.
   */
  function ButtonFor(page: PageContext, cfg: Config.ScopeConfig): (b: ButtonData)
    ensures
      var customerId := Php.IntCast(page.customerIdParam);
      var ws := ListedWebsites(customerId, page.customers, page.allWebsites, cfg);
      && (b != NoButton <==> customerId != 0 && page.allowed && Config.IsEnabled(cfg) && |ws| >= 1)
      && (b.Split? <==> b != NoButton && |ws| > 1)
      && (b != NoButton ==> b.text == LABEL && b.cssClass == CSS_CLASS && b.sortOrder == SORT_ORDER)
      && (b.Simple? ==> b.opens == WebsiteScope.GenerateUrl(customerId, ws[0].0))
      && (b.Split? ==> b.className == SPLIT_BUTTON_CLASS && b.options == WebsiteOptions(customerId, ws))
  {
    var customerId := Php.IntCast(page.customerIdParam);
    if customerId != 0 && page.allowed && Config.IsEnabled(cfg) then
      var websites := ListedWebsites(customerId, page.customers, page.allWebsites, cfg);
      if |websites| == 1 then
        Simple(LABEL, CSS_CLASS, WebsiteScope.GenerateUrl(customerId, websites[0].0), SORT_ORDER)
      else if |websites| > 1 then
        Split(LABEL, CSS_CLASS, SPLIT_BUTTON_CLASS, WebsiteOptions(customerId, websites), SORT_ORDER)
      else NoButton
    else NoButton
  }

  /** The id of a website the customer may be logged into. */
  predicate Offered(page: PageContext, cfg: Config.ScopeConfig, customerId: int, websiteId: int) {
    && customerId in page.customers
    && page.allWebsites.Some?
    && exists i :: 0 <= i < |page.allWebsites.value| && page.allWebsites.value[i].id == websiteId
         && WebsiteScope.Eligible(page.allWebsites.value[i], Some(page.customers[customerId].websiteId), Config.IsWebsiteShareEnabled(cfg))
  }

  /** The URL generates a token for this customer on an offered website other than the admin website. */
  predicate OpensOffered(page: PageContext, cfg: Config.ScopeConfig, customerId: int, u: Url) {
    && u.route == WebsiteScope.GENERATE_ROUTE
    && |u.params| == 2
    && u.params[0] == ("customer_id", customerId)
    && u.params[1].0 == "website_id"
    && u.params[1].1 != 0
    && Offered(page, cfg, customerId, u.params[1].1)
  }

  /**
   * Every URL the button opens generates a token for the page's customer on
   * an eligible website, never the admin website.
   */
  lemma ButtonOpensEligibleWebsites(page: PageContext, cfg: Config.ScopeConfig)
    ensures
      var b := ButtonFor(page, cfg);
      var customerId := Php.IntCast(page.customerIdParam);
      && (b.Simple? ==> OpensOffered(page, cfg, customerId, b.opens))
      && (b.Split? ==> forall i :: 0 <= i < |b.options| ==> OpensOffered(page, cfg, customerId, b.options[i].opens))
  {
    var customerId := Php.IntCast(page.customerIdParam);
    var ws := ListedWebsites(customerId, page.customers, page.allWebsites, cfg);
    forall i | 0 <= i < |ws|
      ensures ws[i].0 != 0 && Offered(page, cfg, customerId, ws[i].0)
    {
      Php.GetStoredKey(ws, i);
      WebsiteScope.ListedIffEligible(page.allWebsites.value, Some(page.customers[customerId].websiteId),
                                     Config.IsWebsiteShareEnabled(cfg), ws[i].0);
    }
  }

  /**
   * With per-website customer accounts there is never a split button, and a
   * plain button opens the customer's own website.
   */
  lemma PerWebsiteButton(page: PageContext, cfg: Config.ScopeConfig)
    requires !Config.IsWebsiteShareEnabled(cfg)
    ensures
      var b := ButtonFor(page, cfg);
      var customerId := Php.IntCast(page.customerIdParam);
      && !b.Split?
      && (b.Simple? ==> b.opens == WebsiteScope.GenerateUrl(customerId, page.customers[customerId].websiteId))
  {
    var customerId := Php.IntCast(page.customerIdParam);
    if customerId in page.customers && page.allWebsites.Some? {
      WebsiteScope.PerWebsiteListsOwnOnly(page.allWebsites.value, Some(page.customers[customerId].websiteId));
    }
  }

  /** `getCustomerWebsites` of the button. */
  method GetCustomerWebsites(customerId: int, customers: map<int, Customer>, allWebsites: Option<seq<Website>>, cfg: Config.ScopeConfig)
    returns (websites: seq<(int, string)>)
    ensures websites == ListedWebsites(customerId, customers, allWebsites, cfg)
  {
    websites := [];
    if customerId !in customers {
      // the repository raised: no websites
      return;
    }
    var customerWebsiteId := customers[customerId].websiteId;
    if allWebsites.None? {
      return;
    }
    var all := allWebsites.value;
    for i := 0 to |all|
      invariant websites == WebsiteScope.CustomerWebsites(all[..i], Some(customerWebsiteId), Config.IsWebsiteShareEnabled(cfg))
    {
      assert all[..i + 1][..i] == all[..i];
      var website := all[i];
      if website.id == 0 {
        continue;
      }
      if website.id == customerWebsiteId || Config.IsWebsiteShareEnabled(cfg) {
        websites := Php.Put(websites, website.id, website.name);
      }
    }
    assert all[..|all|] == all;
  }

  /** `getWebsiteOptions`. */
  method GetWebsiteOptions(customerId: int, websites: seq<(int, string)>) returns (options: seq<ButtonOption>)
    ensures options == WebsiteOptions(customerId, websites)
  {
    options := [];
    for i := 0 to |websites|
      invariant options == WebsiteOptions(customerId, websites[..i])
    {
      var (websiteId, websiteName) := websites[i];
      options := options + [ButtonOption(websiteName, WebsiteScope.GenerateUrl(customerId, websiteId))];
    }
    assert websites[..|websites|] == websites;
  }

  /** `getButtonData`. */
  method GetButtonData(page: PageContext, cfg: Config.ScopeConfig) returns (data: ButtonData)
    ensures data == ButtonFor(page, cfg)
  {
    var customerId := Php.IntCast(page.customerIdParam);
    data := NoButton;
    var isAllowed := customerId != 0 && page.allowed;
    var isEnabled := Config.IsEnabled(cfg);
    if isAllowed && isEnabled {
      var websites := GetCustomerWebsites(customerId, page.customers, page.allWebsites, cfg);
      if |websites| == 1 {
        var websiteId := websites[0].0;
        data := Simple(LABEL, CSS_CLASS, WebsiteScope.GenerateUrl(customerId, websiteId), SORT_ORDER);
      } else if |websites| > 1 {
        var options := GetWebsiteOptions(customerId, websites);
        data := Split(LABEL, CSS_CLASS, SPLIT_BUTTON_CLASS, options, SORT_ORDER);
      }
    }
  }
}

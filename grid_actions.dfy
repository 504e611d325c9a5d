/**
 * The after-plugin on the customer grid's actions column: each row with an
 * entity id gets a "Login as Customer" action per website the admin may log
 * the customer into — one plain action for a single website, one indexed
 * action per website otherwise.
 */
module CustomerGridActions {
  import opened Wrappers
  import opened Platform
  import Php
  import Config
  import WebsiteScope

  const SINGLE_KEY: string := "login_as_customer"
  const INDEXED_KEY_PREFIX: string := "login_as_customer_"
  const LABEL: string := "Login as Customer"
  const TARGET: string := "_blank"

  /** One entry of a row's actions column. */
  datatype Action = Action(href: Url, text: string, target: Option<string>, hidden: Option<bool>)

  /**
   * A grid row: its `entity_id` and `website_id` fields (None when absent or
   * null) and its action columns, keyed by column name.
   */
  datatype GridItem = GridItem(entityId: Option<string>, websiteId: Option<string>, columns: map<string, seq<(string, Action)>>)

  /** The data source; `items` is None when `data.items` is not set. */
  datatype DataSource = DataSource(items: Option<seq<GridItem>>)

  /** The key of the i-th website-specific action. */
  function IndexedKey(i: nat): string {
    INDEXED_KEY_PREFIX + Php.IntToString(i)
  }

  lemma IndexedKeysDistinct(i: nat, j: nat)
    requires i != j
    ensures IndexedKey(i) != IndexedKey(j)
    ensures IndexedKey(i) != SINGLE_KEY
  {
    if IndexedKey(i) == IndexedKey(j) {
      var p := |INDEXED_KEY_PREFIX|;
      assert Php.IntToString(i) == IndexedKey(i)[p..];
      assert Php.IntToString(j) == IndexedKey(j)[p..];
      Php.IntToStringInjective(i, j);
    }
    assert |IndexedKey(i)| > |SINGLE_KEY|;
  }

  /** The label of the action for one website among several. */
  function SiteLabel(name: string): string {
    LABEL + " (" + name + ")"
  }

  /** The actions a row receives for its listed websites, in assignment order. */
  function LoginActions(customerId: int, websites: seq<(int, string)>): (actions: seq<(string, Action)>)
    ensures |websites| != 1 ==> |actions| == |websites|
    ensures Php.DistinctKeys(actions)
  {
    if |websites| == 1 then
      [(SINGLE_KEY, Action(WebsiteScope.GenerateUrl(customerId, websites[0].0), LABEL, Some(TARGET), Some(false)))]
    else
      var actions := seq(|websites|, i requires 0 <= i < |websites| =>
        (IndexedKey(i), Action(WebsiteScope.GenerateUrl(customerId, websites[i].0), SiteLabel(websites[i].1), Some(TARGET), None)));
      assert Php.DistinctKeys(actions) by {
        forall i, j | 0 <= i < j < |actions| ensures actions[i].0 != actions[j].0 {
          IndexedKeysDistinct(i, j);
        }
      }
      actions
  }

  /** A row's actions column, empty when it has none yet. */
  function Column(item: GridItem, column: string): seq<(string, Action)> {
    if column in item.columns then item.columns[column] else []
  }

  /** The row after its login actions are assigned; it is untouched when no website is listed. */
  function WithLoginActions(item: GridItem, column: string, customerId: int, websites: seq<(int, string)>): GridItem {
    if |websites| == 0 then item
    else item.(columns := item.columns[column := Php.PutAll(Column(item, column), LoginActions(customerId, websites))])
  }

  /** `(int)$item['website_id']` when it is set, otherwise null. */
  function CustomerWebsiteId(item: GridItem): Option<int> {
    if item.websiteId.Some? then Some(Php.IntCast(item.websiteId)) else None
  }

  /** `getCustomerWebsites`, where None stands for a store manager that raised. */
  function ListedWebsites(allWebsites: Option<seq<Website>>, customerWebsiteId: Option<int>, cfg: Config.ScopeConfig)
    : seq<(int, string)>
  {
    if allWebsites.None? then []
    else WebsiteScope.CustomerWebsites(allWebsites.value, customerWebsiteId, Config.IsWebsiteShareEnabled(cfg))
  }

  /** What the plugin does to one row. */
  function DecorateItem(item: GridItem, column: string, cfg: Config.ScopeConfig, allWebsites: Option<seq<Website>>): (r: GridItem)
    ensures item.entityId.None? ==> r == item
    ensures r.entityId == item.entityId && r.websiteId == item.websiteId
  {
    if item.entityId.None? then item
    else WithLoginActions(item, column, Php.IntCast(item.entityId), ListedWebsites(allWebsites, CustomerWebsiteId(item), cfg))
  }

  /**
   * What the plugin returns: the data source unchanged when the feature is
   * off or the admin lacks the login permission, otherwise every row
   * decorated, in place and in order.
   */
  function Decorated(result: DataSource, column: string, cfg: Config.ScopeConfig, allowed: bool, allWebsites: Option<seq<Website>>)
    : (r: DataSource)
    ensures !Config.IsEnabled(cfg) || !allowed || result.items.None? ==> r == result
    ensures r.items.Some? <==> result.items.Some?
    ensures r.items.Some? ==> |r.items.value| == |result.items.value|
    ensures r.items.Some? ==> forall i :: 0 <= i < |r.items.value| ==>
              r.items.value[i].entityId == result.items.value[i].entityId
              && r.items.value[i].websiteId == result.items.value[i].websiteId
    ensures r.items.Some? ==> forall i :: 0 <= i < |r.items.value| && result.items.value[i].entityId.None? ==>
              r.items.value[i] == result.items.value[i]
    ensures Config.IsEnabled(cfg) && allowed && result.items.Some? ==> forall i :: 0 <= i < |r.items.value| ==>
              r.items.value[i] == DecorateItem(result.items.value[i], column, cfg, allWebsites)
  {
    if !Config.IsEnabled(cfg) || !allowed || result.items.None? then result
    else
      var items := result.items.value;
      DataSource(Some(seq(|items|, i requires 0 <= i < |items| => DecorateItem(items[i], column, cfg, allWebsites))))
  }

  /**
   * The effect on one row with an entity id: a single listed website yields
   * the plain action, several yield one indexed action each, labelled with
   * the website name and pointing at that website; every other key of the
   * column and every other column keep their contents.
   */
  lemma DecorateItemActions(item: GridItem, column: string, cfg: Config.ScopeConfig, allWebsites: Option<seq<Website>>)
    requires item.entityId.Some?
    ensures
      var after := DecorateItem(item, column, cfg, allWebsites);
      var customerId := Php.IntCast(item.entityId);
      var ws := ListedWebsites(allWebsites, CustomerWebsiteId(item), cfg);
      && (|ws| == 0 ==> after == item)
      && (|ws| == 1 ==>
            Php.Get(after.columns[column], SINGLE_KEY)
            == Some(Action(WebsiteScope.GenerateUrl(customerId, ws[0].0), LABEL, Some(TARGET), Some(false))))
      && (|ws| > 1 ==> forall i :: 0 <= i < |ws| ==>
            Php.Get(after.columns[column], IndexedKey(i))
            == Some(Action(WebsiteScope.GenerateUrl(customerId, ws[i].0), SiteLabel(ws[i].1), Some(TARGET), None)))
      && (|ws| > 0 ==> forall k :: (forall i :: 0 <= i < |LoginActions(customerId, ws)| ==> LoginActions(customerId, ws)[i].0 != k) ==>
            Php.Get(after.columns[column], k) == Php.Get(Column(item, column), k))
      && (forall c :: c in item.columns && c != column ==> c in after.columns && after.columns[c] == item.columns[c])
      && after.entityId == item.entityId && after.websiteId == item.websiteId
  {
    var customerId := Php.IntCast(item.entityId);
    var ws := ListedWebsites(allWebsites, CustomerWebsiteId(item), cfg);
    var actions := LoginActions(customerId, ws);
    Php.GetPutAll(Column(item, column), actions);
    if |ws| > 1 {
      forall i | 0 <= i < |ws|
        ensures actions[i] == (IndexedKey(i), Action(WebsiteScope.GenerateUrl(customerId, ws[i].0), SiteLabel(ws[i].1), Some(TARGET), None))
      {
      }
    }
  }

  /** `getCustomerWebsites` of the plugin. */
  method GetCustomerWebsites(allWebsites: Option<seq<Website>>, customerWebsiteId: Option<int>, cfg: Config.ScopeConfig)
    returns (websites: seq<(int, string)>)
    ensures websites == ListedWebsites(allWebsites, customerWebsiteId, cfg)
  {
    websites := [];
    if allWebsites.None? {
      // the store manager raised: the error is swallowed
      return;
    }
    var all := allWebsites.value;
    for i := 0 to |all|
      invariant websites == WebsiteScope.CustomerWebsites(all[..i], customerWebsiteId, Config.IsWebsiteShareEnabled(cfg))
    {
      assert all[..i + 1][..i] == all[..i];
      var website := all[i];
      if website.id == 0 {
        continue;
      }
      if Config.IsWebsiteShareEnabled(cfg) || Some(website.id) == customerWebsiteId {
        websites := Php.Put(websites, website.id, website.name);
      }
    }
    assert all[..|all|] == all;
  }

  /** The body of the per-row branch: one plain action, or one action per website under an indexed key. */
  method AddLoginActions(item: GridItem, column: string, customerId: int, websites: seq<(int, string)>)
    returns (updated: GridItem)
    ensures updated == WithLoginActions(item, column, customerId, websites)
  {
    updated := item;
    if |websites| == 1 {
      var websiteId := websites[0].0;
      var action := Action(WebsiteScope.GenerateUrl(customerId, websiteId), LABEL, Some(TARGET), Some(false));
      assert LoginActions(customerId, websites) == [(SINGLE_KEY, action)];
      assert Php.PutAll(Column(item, column), [(SINGLE_KEY, action)]) == Php.Put(Column(item, column), SINGLE_KEY, action) by {
        assert [(SINGLE_KEY, action)][..0] == [];
      }
      updated := item.(columns := item.columns[column := Php.Put(Column(item, column), SINGLE_KEY, action)]);
    } else if |websites| > 1 {
      var actions: seq<Action> := [];
      for i := 0 to |websites|
        invariant |actions| == i
        invariant forall j :: 0 <= j < i ==>
                    actions[j] == Action(WebsiteScope.GenerateUrl(customerId, websites[j].0), SiteLabel(websites[j].1), Some(TARGET), None)
      {
        var (websiteId, websiteName) := websites[i];
        actions := actions + [Action(WebsiteScope.GenerateUrl(customerId, websiteId), SiteLabel(websiteName), Some(TARGET), None)];
      }
      ghost var entries := LoginActions(customerId, websites);
      var col := Column(item, column);
      var actionIndex := 0;
      while actionIndex < |actions|
        invariant 0 <= actionIndex <= |actions|
        invariant col == Php.PutAll(Column(item, column), entries[..actionIndex])
      {
        assert entries[..actionIndex + 1][..actionIndex] == entries[..actionIndex];
        col := Php.Put(col, IndexedKey(actionIndex), actions[actionIndex]);
        actionIndex := actionIndex + 1;
      }
      assert entries[..|actions|] == entries;
      updated := item.(columns := item.columns[column := col]);
    }
  }

  /** `afterPrepareDataSource`: decorates every row of the data source in place. */
  method AfterPrepareDataSource(result: DataSource, column: string, cfg: Config.ScopeConfig, allowed: bool,
                                allWebsites: Option<seq<Website>>)
    returns (r: DataSource)
    ensures r == Decorated(result, column, cfg, allowed, allWebsites)
  {
    if !Config.IsEnabled(cfg) || !allowed {
      return result;
    }
    if result.items.None? {
      return result;
    }
    var items := result.items.value;
    var i := 0;
    while i < |items|
      invariant 0 <= i <= |items| == |result.items.value|
      invariant forall j :: 0 <= j < i ==> items[j] == DecorateItem(result.items.value[j], column, cfg, allWebsites)
      invariant forall j :: i <= j < |items| ==> items[j] == result.items.value[j]
    {
      var item := items[i];
      if item.entityId.Some? {
        var customerId := Php.IntCast(item.entityId);
        var customerWebsiteId := if item.websiteId.Some? then Some(Php.IntCast(item.websiteId)) else None;
        var websites := GetCustomerWebsites(allWebsites, customerWebsiteId, cfg);
        item := AddLoginActions(item, column, customerId, websites);
      }
      items := items[i := item];
      i := i + 1;
    }
    r := DataSource(Some(items));
    assert r.items.value == Decorated(result, column, cfg, allowed, allWebsites).items.value;
  }
}

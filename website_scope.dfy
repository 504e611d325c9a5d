/**
 * Which websites an admin may log a customer into, shared by the customer
 * grid action and the customer edit-page button: every website except the
 * admin website (id 0) when customer accounts are shared globally, and only
 * the customer's own website otherwise. The result is a PHP array keyed by
 * website id, in the store manager's order, mapping to the website name.
 */
module WebsiteScope {
  import opened Wrappers
  import opened Platform
  import Php

  const GENERATE_ROUTE: string := "loginascustomer/login/generate"

  /** A website is listed when it is not the admin website and sharing is global or it is the customer's. */
  predicate Eligible(w: Website, customerWebsiteId: Option<int>, share: bool) {
    w.id != 0 && (share || customerWebsiteId == Some(w.id))
  }

  /** The `[website_id => name]` array built by the loop over all websites. */
  function CustomerWebsites(all: seq<Website>, customerWebsiteId: Option<int>, share: bool): (ws: seq<(int, string)>)
    ensures |ws| <= |all|
    decreases |all|
  {
    if all == [] then []
    else
      var w := all[|all| - 1];
      var prev := CustomerWebsites(all[..|all| - 1], customerWebsiteId, share);
      if Eligible(w, customerWebsiteId, share) then Php.Put(prev, w.id, w.name) else prev
  }

  /** No two websites share an id, as in the store manager's list. */
  predicate DistinctIds(all: seq<Website>) {
    forall i, j :: 0 <= i < j < |all| ==> all[i].id != all[j].id
  }

  /** The eligible websites in the store manager's order, each as its id and name. */
  function EligibleEntries(all: seq<Website>, customerWebsiteId: Option<int>, share: bool): seq<(int, string)>
    decreases |all|
  {
    if all == [] then []
    else
      var w := all[|all| - 1];
      EligibleEntries(all[..|all| - 1], customerWebsiteId, share)
        + (if Eligible(w, customerWebsiteId, share) then [(w.id, w.name)] else [])
  }

  /** The admin URL that generates a token for this customer and website. */
  function GenerateUrl(customerId: int, websiteId: int): (u: Url)
    ensures u.route == GENERATE_ROUTE
    ensures u.params == [("customer_id", customerId), ("website_id", websiteId)]
  {
    Url(GENERATE_ROUTE, [("customer_id", customerId), ("website_id", websiteId)])
  }

  /**
   * A website id is a key of the result exactly when some eligible website
   * has it; in particular the admin website is never offered.
   */
  lemma {:induction false} ListedIffEligible(all: seq<Website>, customerWebsiteId: Option<int>, share: bool, id: int)
    ensures Php.Get(CustomerWebsites(all, customerWebsiteId, share), id).Some?
            <==> exists i :: 0 <= i < |all| && all[i].id == id && Eligible(all[i], customerWebsiteId, share)
    ensures Php.Get(CustomerWebsites(all, customerWebsiteId, share), 0).None?
    decreases |all|
  {
    if all != [] {
      var n := |all| - 1;
      var init := all[..n];
      ListedIffEligible(init, customerWebsiteId, share, id);
      ListedIffEligible(init, customerWebsiteId, share, 0);
      assert forall i :: 0 <= i < n ==> init[i] == all[i];
      if exists i :: 0 <= i < |all| && all[i].id == id && Eligible(all[i], customerWebsiteId, share) {
        var i :| 0 <= i < |all| && all[i].id == id && Eligible(all[i], customerWebsiteId, share);
        if i < n {
          assert init[i].id == id && Eligible(init[i], customerWebsiteId, share);
        }
      }
    }
  }

  /**
   * When website ids are distinct the array lists exactly the eligible
   * websites, in the store manager's order, each mapped to its name.
   */
  lemma {:induction false} CustomerWebsitesIsFilter(all: seq<Website>, customerWebsiteId: Option<int>, share: bool)
    requires DistinctIds(all)
    ensures CustomerWebsites(all, customerWebsiteId, share) == EligibleEntries(all, customerWebsiteId, share)
    decreases |all|
  {
    if all != [] {
      var n := |all| - 1;
      var init := all[..n];
      var w := all[n];
      assert DistinctIds(init) by {
        forall i, j | 0 <= i < j < |init| ensures init[i].id != init[j].id {
          assert init[i] == all[i] && init[j] == all[j];
        }
      }
      CustomerWebsitesIsFilter(init, customerWebsiteId, share);
      if Eligible(w, customerWebsiteId, share) {
        ListedIffEligible(init, customerWebsiteId, share, w.id);
        assert forall i :: 0 <= i < n ==> init[i].id != w.id by {
          forall i | 0 <= i < n ensures init[i].id != w.id {
            assert init[i] == all[i];
          }
        }
      }
    }
  }

  /**
   * With per-website accounts at most one website is listed, and it is the
   * customer's own.
   */
  lemma {:induction false} PerWebsiteListsOwnOnly(all: seq<Website>, customerWebsiteId: Option<int>)
    ensures var ws := CustomerWebsites(all, customerWebsiteId, false);
            |ws| <= 1 && (|ws| == 1 ==> customerWebsiteId.Some? && ws[0].0 == customerWebsiteId.value)
    decreases |all|
  {
    if all != [] {
      PerWebsiteListsOwnOnly(all[..|all| - 1], customerWebsiteId);
    }
  }

  /** With global sharing every website except the admin website is listed. */
  lemma GlobalListsAllButAdmin(all: seq<Website>, customerWebsiteId: Option<int>, i: int)
    requires 0 <= i < |all| && all[i].id != 0
    ensures Php.Get(CustomerWebsites(all, customerWebsiteId, true), all[i].id).Some?
  {
    ListedIffEligible(all, customerWebsiteId, true, all[i].id);
  }
}

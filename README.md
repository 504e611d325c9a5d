# Login as Customer — a Dafny model

This project models the core of a Magento 2 "Login as Customer" module. An
admin clicks a button on the customer grid or the customer edit page. That
issues a one-time login token. The admin is redirected to the storefront with
the token in the URL. Redeeming the token logs the admin in as the customer,
and the token is then spent.

The centre of the model is the token lifecycle over the audit-log table:

- `generateToken` saves a PENDING row. The row holds the hash of a 64-hex-digit
  secret and an expiry of `now + lifetime * 60` seconds.
- `validateToken` looks the token up among the PENDING rows by its hash. A row
  found after its expiry is marked EXPIRED; otherwise it is returned unchanged.
- `markTokenAsUsed` and `markTokenAsFailed` move the row to SUCCESS or FAILED.

The audit table is a map from entity id to row, with an auto-increment
counter. The record model is a class whose setters update its data array. The
service is a class holding the table, the hash function and the
configuration. Each service method is proved equal to a pure function of the
old table (`Issue`, `Validate`, `MarkUsed`, `MarkFailed`). The lifecycle
lemmas are stated over those functions.

Around the lifecycle sit:

- the two controllers: admin-side generation and storefront redemption;
- the configuration getters and their defaults;
- the status option list;
- the website-selection rule shared by the customer grid plugin and the
  edit-page button.

The clock, the random source, the hash function, the customer and admin
lookups, the store manager, the ACL check and the customer login are all
parameters. Each collaborator that can fail has a boolean that says whether
it succeeds.

PHP semantics are written out in `php.dfy`:

- truthiness of a string-or-null;
- the `(int)` cast of a numeric string;
- integer-to-string conversion, proved to round-trip through the cast;
- ordered arrays as sequences of key/value pairs, where assigning a key
  replaces it in place or appends it.

## Model

| member | source | states |
|---|---|---|
| AuditLogModel.StatusesDistinct | Model/AuditLog.php:30-33 | the four statuses pending, success, expired, failed are pairwise distinct |
| AuditLogModel.AuditLog.constructor | Model/AuditLog.php:58-61 | a new model has an empty data array, so its entity id is null until one is assigned |
| AuditLogModel.AuditLog.Loaded | Model/AuditLog.php:58-245 | a model loaded from a row holds exactly that row's data |
| AuditLogModel.AuditLog.SetEntityId | Model/AuditLog.php:66-69 | the getter then returns the value set, and every other field is unchanged |
| AuditLogModel.AuditLog.SetAdminId | Model/AuditLog.php:82-85 | the getter then returns the value set, and every other field is unchanged |
| AuditLogModel.AuditLog.SetAdminUsername | Model/AuditLog.php:98-101 | the getter then returns the value set, and every other field is unchanged |
| AuditLogModel.AuditLog.SetCustomerId | Model/AuditLog.php:114-117 | the getter then returns the value set, and every other field is unchanged |
| AuditLogModel.AuditLog.SetCustomerEmail | Model/AuditLog.php:130-133 | the getter then returns the value set, and every other field is unchanged |
| AuditLogModel.AuditLog.SetTokenHash | Model/AuditLog.php:146-149 | the getter then returns the value set, and every other field is unchanged |
| AuditLogModel.AuditLog.SetIpAddress | Model/AuditLog.php:162-165 | the getter then returns the value set (null included), and every other field is unchanged |
| AuditLogModel.AuditLog.SetStatus | Model/AuditLog.php:178-181 | the getter then returns the status set, and every other field (`used_at` included) is unchanged |
| AuditLogModel.AuditLog.SetStoreId | Model/AuditLog.php:194-197 | the getter then returns the value set, and every other field is unchanged |
| AuditLogModel.AuditLog.SetCreatedAt | Model/AuditLog.php:210-213 | the getter then returns the value set, and every other field is unchanged |
| AuditLogModel.AuditLog.SetExpiresAt | Model/AuditLog.php:226-229 | the getter then returns the value set, and every other field is unchanged |
| AuditLogModel.AuditLog.SetUsedAt | Model/AuditLog.php:242-245 | the getter then returns the time set, and every other field (status included) is unchanged |
| StatusSource.ToOptionArray | Model/Source/Status.php:27-35 | exactly four options, in the order pending, success, expired, failed; each value is the status constant; each label is its value capitalized; the values are distinct |
| Config.IsEnabled | Model/Config.php:56-62 | the feature is on exactly when its store-scope path is set to something other than "" or "0"; an unset path means off |
| Config.IsAuditEnabled | Model/Config.php:105-111 | auditing is on exactly when its store-scope path is set to something other than "" or "0"; an unset path means off |
| Config.IsWebsiteShareEnabled | Model/Config.php:119-128 | accounts are shared globally exactly when the default-scope share setting is unset or casts to 0 |
| Config.GetTokenLifetime | Model/Config.php:71-80 | a falsy stored lifetime gives 5 minutes; any other value gives its `(int)` cast |
| Config.ConfiguredLifetime | Model/Config.php:71-80 | a stored lifetime of n minutes is used as is, except that "0" is falsy and gives the default of 5 |
| Config.GetRedirectPage | Model/Config.php:88-97 | the page is never falsy; a truthy stored page is returned as stored, and otherwise `customer/account` is used |
| Config.ShareScopeSettings | Model/Config.php:119-128 | an unset share scope or "0" means accounts are shared globally; "1" means per-website accounts |
| Config.FlagsReadOwnPath | Model/Config.php:56-112 | the enabled flag and the audit flag each read only their own path: changing any other path does not change them |
| Php.IntToStringRoundTrip | Model/Config.php:79 | the `(int)` cast of an integer's decimal string is that integer |
| Php.Put | Plugin/CustomerGridActionsPlugin.php:160 | after `$a[$k] = $v`, key k reads v and every other key reads what it did; a new key is appended and an existing one keeps its place |
| Php.GetPutAll | Plugin/CustomerGridActionsPlugin.php:124-128 | after a run of assignments with distinct keys, each key reads its own value and every other key is unchanged |
| TokenLifecycle.BinToHex | Service/TokenService.php:146 | the hex encoding has two lower-case hex digits per byte, so 32 random bytes give a 64-character token |
| TokenLifecycle.HexRoundTrip | Service/TokenService.php:146 | the hex encoding loses nothing: decoding it gives the random bytes back |
| TokenLifecycle.Persist | Service/TokenService.php:166-171 | saving a model without an id inserts it under the next auto-increment id and assigns that id; saving a model with a stored id overwrites that row; the table invariant, which includes an expiry on every PENDING row, is kept whenever the saved record is not a PENDING one without an expiry |
| TokenLifecycle.FirstPending | Service/TokenService.php:195-200 | the lookup returns a PENDING row with the token's hash and no such row has a smaller id; it finds nothing exactly when no PENDING row has that hash |
| TokenLifecycle.Issue | Service/TokenService.php:130-177 | the customer is checked before the admin, and a failed save raises; every error leaves the table unchanged; success happens exactly when all three checks pass, and then the token is the hex encoding of the 32 random bytes and exactly one new PENDING row is added, holding `hash(token)`, the token's expiry `now + lifetime * 60`, no `used_at`, and snapshots of admin id and username, customer id and email, IP and store id |
| TokenLifecycle.StoredRowDependsOnlyOnHash | Service/TokenService.php:146-164 | the table after issuance depends on the token only through its hash: two tokens with the same hash leave identical tables |
| TokenLifecycle.Validate | Service/TokenService.php:190-223 | with no PENDING row for the hash, nothing is returned and nothing changes; a row found is returned unchanged, PENDING, with an expiry and unexpired; a row with `now > expires_at` becomes EXPIRED (if its save succeeds) and nothing is returned |
| TokenLifecycle.ValidateOnlyExpiresPending | Service/TokenService.php:190-223 | validation adds and removes no row, and changes only PENDING rows, only to EXPIRED |
| TokenLifecycle.ResolvedRowNeverValidated | Service/TokenService.php:195-205 | a row that is SUCCESS, EXPIRED or FAILED is never returned, whatever token is presented |
| TokenLifecycle.UnknownTokenRejected | Service/TokenService.php:192-205 | a token whose hash no row holds is rejected, and the table is unchanged |
| TokenLifecycle.MarkUsed | Service/TokenService.php:231-241 | the model becomes SUCCESS with `used_at = now`, every other field but a newly assigned id kept; its row is overwritten when the save succeeds, and a failed save changes no row and raises nothing |
| TokenLifecycle.MarkFailed | Service/TokenService.php:249-258 | the model becomes FAILED, every other field but a newly assigned id kept; its row is overwritten when the save succeeds, and a failed save changes no row and raises nothing |
| TokenLifecycle.IssuedRowIsFirstPending | Service/TokenService.php:195-200 | when no other PENDING row shares the hash, the lookup finds the issued row |
| TokenLifecycle.IssueValidateUseValidate | Service/TokenService.php:130-258 | issue, validate within the lifetime, mark used, validate again: the first validation returns the issued PENDING row unchanged; marking it used records SUCCESS and the time; the second validation rejects the token and changes nothing |
| TokenLifecycle.IssueThenExpire | Service/TokenService.php:130-223 | issue, then validate after the expiry: the token is rejected and only its row becomes EXPIRED; a further validation rejects it and changes nothing |
| TokenLifecycle.TokenService.constructor | Service/TokenService.php:95-116 | the service holds the given table, hash function and configuration |
| TokenLifecycle.TokenService.Save | Service/TokenService.php:166-171 | a successful save persists the model as `Persist` describes; a failed save changes neither the table nor the model; the table invariant is kept unless the model is PENDING without an expiry |
| TokenLifecycle.TokenService.GenerateToken | Service/TokenService.php:130-177 | the result and the new table are exactly those of `Issue` with the configured lifetime |
| TokenLifecycle.TokenService.ValidateToken | Service/TokenService.php:190-223 | a failed lookup query raises and changes nothing; otherwise the model returned, or null, and the new table are exactly those of `Validate` |
| TokenLifecycle.TokenService.MarkTokenAsUsed | Service/TokenService.php:231-241 | the model and the table become exactly those of `MarkUsed` |
| TokenLifecycle.TokenService.MarkTokenAsFailed | Service/TokenService.php:249-258 | the model and the table become exactly those of `MarkFailed` |
| LoginProcess.Redeem | Controller/Login/Process.php:43-101 | a disabled feature or a falsy token redirects to `/` and leaves the table unchanged; a failed lookup gives the error message and marks nothing; an unmatched token gives "Login link has expired or is invalid."; a matched record logs in its customer, goes to the redirect page and leaves the table as `MarkUsed` makes it when the login succeeds, and goes to `/` with the table as `MarkFailed` makes it when the login raises; with no session the redirect is always `/` |
| LoginProcess.RedeemResolvesAtMostOnePending | Controller/Login/Process.php:59-99 | a request changes at most one row; that row was PENDING and ends SUCCESS, EXPIRED or FAILED; a row becomes SUCCESS only when the login succeeded and a session was established, and FAILED only when the login raised and no session was established |
| LoginProcess.RedeemedTokenRejected | Controller/Login/Process.php:59-67 | once a token has been redeemed successfully and the save marking it used has succeeded, every later request with it is refused with no session; when that save fails, see `FailedMarkLeavesTokenLive` |
| LoginProcess.FailedMarkLeavesTokenLive | Service/TokenService.php:231-241 | when the save marking a redeemed token used fails, the failure is swallowed and the table is unchanged, so the token stays PENDING and a later request with it, up to its expiry, logs the same customer in again |
| LoginProcess.Execute | Controller/Login/Process.php:43-101 | the response and the new table are exactly those of `Redeem`; the record is marked used only after the login, and marked failed only if the login raised |
| LoginGenerate.ChooseStore | Controller/Adminhtml/Login/Generate.php:66-71 | a non-zero website id selects that website's default store, and an unknown id raises the store manager's error; website id 0 selects the current store |
| LoginGenerate.LoginUrl | Controller/Adminhtml/Login/Generate.php:73-77 | the login URL starts with the store's base URL and ends with the token after `loginascustomer/login/process?token=` |
| LoginGenerate.Generated | Controller/Adminhtml/Login/Generate.php:44-101 | a disabled feature or a customer id that casts to 0 redirects to the customer grid with its message and issues nothing; otherwise the table is that of `Issue`, success redirects to the store's login URL for the issued token, and every error returns to `customer/index/edit` with `id = customer_id` and its message |
| LoginGenerate.UnknownWebsiteLeavesPendingRow | Controller/Adminhtml/Login/Generate.php:63-68 | an unknown website is only looked up after the token is saved, so the admin gets an error while a new PENDING row remains |
| LoginGenerate.Execute | Controller/Adminhtml/Login/Generate.php:44-101 | the response and the new table are exactly those of `Generated` |
| LoginProtocol.GeneratedLinkLogsInOnce | Controller/Adminhtml/Login/Generate.php:63-85 | a generated link redeemed within its lifetime logs in exactly the requested customer and redirects to the configured page; the same link is refused afterwards |
| WebsiteScope.GenerateUrl | Ui/Customer/Component/Control/LoginAsCustomerButton.php:186-195 | the login URL targets `loginascustomer/login/generate` with exactly `customer_id` and `website_id` |
| WebsiteScope.CustomerWebsites | Plugin/CustomerGridActionsPlugin.php:143-169 | the array never has more entries than there are websites; its contents are given by `CustomerWebsitesIsFilter` and `ListedIffEligible` |
| WebsiteScope.CustomerWebsitesIsFilter | Plugin/CustomerGridActionsPlugin.php:151-161 | with distinct website ids, the array lists exactly the eligible websites, in the store manager's order, each as its id and name |
| WebsiteScope.ListedIffEligible | Plugin/CustomerGridActionsPlugin.php:143-169 | a website id is listed exactly when some website with that id is not website 0 and either sharing is global or it is the customer's website; website 0 is never listed |
| WebsiteScope.PerWebsiteListsOwnOnly | Ui/Customer/Component/Control/LoginAsCustomerButton.php:136-146 | with per-website accounts at most one website is listed, and it is the customer's own |
| WebsiteScope.GlobalListsAllButAdmin | Plugin/CustomerGridActionsPlugin.php:151-161 | with global sharing every website except website 0 is listed |
| CustomerGridActions.IndexedKeysDistinct | Plugin/CustomerGridActionsPlugin.php:124-128 | the keys `login_as_customer_0`, `login_as_customer_1`, … are pairwise distinct and differ from `login_as_customer` |
| CustomerGridActions.LoginActions | Plugin/CustomerGridActionsPlugin.php:90-128 | one action per listed website when there are several, and the action keys are distinct |
| CustomerGridActions.Decorated | Plugin/CustomerGridActionsPlugin.php:71-135 | a disabled feature, a failed ACL check or a result without `data.items` gives the result unchanged; otherwise the rows keep their number, order, entity ids and website ids, each row is the row `DecorateItem` makes of the original, and a row without an entity id is unchanged |
| CustomerGridActions.DecorateItem | Plugin/CustomerGridActionsPlugin.php:84-130 | a row without an entity id is left as it is; no row's entity id or website id changes |
| CustomerGridActions.DecorateItemActions | Plugin/CustomerGridActionsPlugin.php:84-129 | for a row with an entity id: no listed website leaves it unchanged; one adds `login_as_customer` for that website, not hidden, in a new window; several add `login_as_customer_i` for the i-th website, labelled with its name; all other keys and columns keep their contents |
| CustomerGridActions.GetCustomerWebsites | Plugin/CustomerGridActionsPlugin.php:143-169 | the loop builds exactly the `WebsiteScope` selection, and gives none when the website lookup raises |
| CustomerGridActions.AddLoginActions | Plugin/CustomerGridActionsPlugin.php:90-129 | the row becomes exactly the row with the listed websites' actions assigned into its column |
| CustomerGridActions.AfterPrepareDataSource | Plugin/CustomerGridActionsPlugin.php:71-135 | the result is exactly `Decorated`: every row updated in place, in order |
| LoginAsCustomerButton.WebsiteOptions | Ui/Customer/Component/Control/LoginAsCustomerButton.php:162-177 | one option per listed website, in order, labelled with its name and opening that website's login URL |
| LoginAsCustomerButton.ButtonFor | Ui/Customer/Component/Control/LoginAsCustomerButton.php:81-117 | a button is shown exactly when the customer id is non-zero, the ACL check passes, the feature is on and a website is listed; it is a split button exactly when several websites are listed; label, class and sort order 60 are fixed; a plain button opens the generate URL of the one listed website, and a split button carries the split-button class and exactly `WebsiteOptions` of the listed websites |
| LoginAsCustomerButton.ButtonOpensEligibleWebsites | Ui/Customer/Component/Control/LoginAsCustomerButton.php:81-194 | every URL the button opens generates a token for the page's customer on an eligible website, never website 0 |
| LoginAsCustomerButton.PerWebsiteButton | Ui/Customer/Component/Control/LoginAsCustomerButton.php:136-146 | with per-website accounts there is never a split button, and a plain button opens the customer's own website |
| LoginAsCustomerButton.GetCustomerWebsites | Ui/Customer/Component/Control/LoginAsCustomerButton.php:125-153 | the loop builds exactly the `WebsiteScope` selection for the customer's website, and gives none when the customer does not exist or the website lookup raises |
| LoginAsCustomerButton.GetWebsiteOptions | Ui/Customer/Component/Control/LoginAsCustomerButton.php:162-177 | the loop builds exactly `WebsiteOptions` |
| LoginAsCustomerButton.GetButtonData | Ui/Customer/Component/Control/LoginAsCustomerButton.php:81-117 | the data is exactly `ButtonFor` |

## Left out

- The customer login service is one boolean: whether `loginCustomerById` returns normally. Session handling is not part of this model.
- The ORM and database layer is replaced by the map store. The "first PENDING row with this hash" query returns the row with the lowest id. Duplicate hashes are ruled out by the lemmas' preconditions instead of being resolved by the database.
- SHA-256 is an uninterpreted, deterministic function. Collision-freeness is not assumed. `random_bytes` is an input of exactly 32 bytes, and its failure is not modelled.
- A PENDING row without an expiry is excluded by the table invariant. In the source, `strtotime(null)` on such a row raises a `TypeError` under strict types, which the storefront controller does not catch. No operation of the module writes such a row.
- Timestamps are integer seconds. The date-string formatting of `expires_at` and `used_at`, `strtotime`, and the local-time versus GMT mismatch between them are not modelled. The `created_at` column default is not modelled either.
- Each redemption request reads the clock once. Validation and marking the token used see the same time.
- Concurrent requests are not modelled. `markTokenAsUsed` has no status guard, so two racing redemptions could both log in. The model claims nothing about that race.
- Logging, message translation, the message manager, JavaScript escaping of the button's `on_click`, and the URL builder's rendering are not modelled. URLs are a route plus parameters. The click handler is the URL it opens.
- Authorization checks are booleans.
- Php.IntToStringRoundTrip: the `(int)` cast covers leading whitespace, an optional sign and decimal digits. Exponent forms, hexadecimal and 64-bit overflow are not modelled.
- LoginGenerate.ChooseStore: a website whose default store is null is not modelled. In the source, dereferencing the null store raises an `Error` that the controller does not catch.
- LoginAsCustomerButton.GetCustomerWebsites: only the repository's and store manager's documented exceptions are caught. Other exceptions propagate in the source and are not modelled.
- CustomerGridActions.AfterPrepareDataSource: one website list is read for the whole request. In the source each row reads it again, so a lookup that fails for only some rows is not modelled.
- `isAuditEnabled` is modelled, but no core operation consults it. `generateToken` writes the audit row whatever the flag says, and so does the model.
- The audit grid page and module registration are not part of this model.

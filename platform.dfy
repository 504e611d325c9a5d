/**
 * What the module reads from the shop platform, as plain values: customers
 * from the customer repository, the admin user of the backend session,
 * websites and stores from the store manager, and the route-plus-parameters
 * a URL builder is asked for.
 */
module Platform {

  datatype Customer = Customer(id: int, email: string, websiteId: int)

  datatype AdminUser = AdminUser(id: int, username: string)

  datatype Website = Website(id: int, name: string)

  datatype Store = Store(id: int, baseUrl: string)

  /** A URL built by the URL builder for a route and its query parameters. */
  datatype Url = Url(route: string, params: seq<(string, int)>)
}

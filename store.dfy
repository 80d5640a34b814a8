/**
 * The records the token service reads: registered clients, users, and the two
 * queries whose code is not part of this model (`client.hasScope` and
 * `User.validateUser`, which compares password hashes), kept opaque.
 */
module Store {
  import opened Results

  datatype Client = Client(clientId: string, clientSecret: string)

  /** `enabled` is None when the attribute is null or absent. */
  datatype User = User(id: int, name: string, enabled: Option<bool>, description: Option<string>)

  datatype Directory = Directory(
    clients: map<string, Client>,            // AuthClient records by client_id
    users: map<string, User>,                // User records by name
    hasScope: (Client, string) -> bool,      // client.hasScope(scope)
    validateUser: (string, string) -> bool)  // User.validateUser(context, username, password)
  {
    /** Every record is stored under its own key. */
    ghost predicate Valid() {
      && (forall k :: k in clients ==> clients[k].clientId == k)
      && (forall k :: k in users ==> users[k].name == k)
    }
  }

  /** A stored AccessToken record; `expires` is a time in milliseconds. */
  datatype AccessToken = AccessToken(accessToken: string, expires: int)
}

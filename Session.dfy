/**
 * The host's token storage, reached through the provider's `storage` field,
 * and the result of `logout`.
 */
module Session {

  /**
   * The key `logout` removes, `companion-${this.constructor[0]}-auth-token`.
   * Indexing a class with `0` yields `undefined`, so the key is this fixed
   * text, the same for every provider class.
   */
  const AUTH_TOKEN_KEY := "companion-undefined-auth-token"

  /** A host-owned key-value store; only `removeItem` is used here. */
  class TokenStorage {
    var entries: map<string, string>

    constructor(entries: map<string, string>)
      ensures this.entries == entries
    {
      this.entries := entries;
    }

    method RemoveItem(key: string)
      modifies this
      ensures entries == old(entries) - {key}
    {
      entries := entries - {key};
    }
  }

  /** `{ success: true }` */
  datatype LogoutResult = LogoutResult(success: bool)
}

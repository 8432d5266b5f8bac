/**
 * Request authentication: the X-API-Key header is checked against the
 * fixed admin key and then against the active stored keys by hash, and an
 * endpoint's permission check admits admin keys and keys holding that
 * permission.
 */
module Auth {
  import opened Common
  import opened Store
  import opened ApiKeys

  /**
   * The admin key's default setting. The setting can be overridden from the
   * environment, so the operations take the configured admin key as a
   * parameter.
   */
  const DefaultAdminKey: string := "fk-admin-dev-key-change-me"

  /** Every permission the service knows, all of which the admin record holds. */
  const AdminPermissions: seq<string> := ["admin", "pos:read", "pos:write", "payments:read", "payments:write"]

  /**
   * The record the admin key authenticates as. It is never stored; the
   * columns it does not set are at their unset values.
   */
  const AdminRecord: ApiKey := ApiKey(0, "admin", "admin", "Admin", None, AdminPermissions, true, None, None, 0)

  /** The stored key a presented key authenticates as: the first active row with its hash. */
  function ActiveKeyFor(rows: seq<ApiKey>, hash: string -> string, key: string): (t: Option<nat>)
    ensures t.Some? ==> t.value < |rows| && rows[t.value].isActive && rows[t.value].keyHash == hash(key)
    ensures t.None? ==> forall i :: 0 <= i < |rows| ==> !(rows[i].isActive && rows[i].keyHash == hash(key))
  {
    FirstIndex(rows, (k: ApiKey) => k.keyHash == hash(key) && k.isActive)
  }

  /** A stored key after one more authenticated request. */
  function Used(k: ApiKey, now: int): ApiKey {
    k.(lastUsedAt := Some(now), requestCount := k.requestCount + 1)
  }

  /**
   * verify_api_key. A missing or empty header is 401. The admin key yields
   * the admin record without touching the table. Any other key must hash to
   * an active stored key, else 401; that key's request count goes up by one
   * and its last use becomes now, and nothing else changes.
   */
  method VerifyApiKey(keys: KeyTable, hash: string -> string, adminKey: string, apiKey: Option<string>, now: int)
    returns (res: Result<ApiKey, HttpError>)
    requires keys.Valid()
    modifies keys
    ensures keys.Valid()
    ensures !Present(apiKey) ==> res == Err(HttpError(401)) && keys.rows == old(keys.rows)
    ensures Present(apiKey) && apiKey.value == adminKey ==> res == Ok(AdminRecord) && keys.rows == old(keys.rows)
    ensures Present(apiKey) && apiKey.value != adminKey ==>
      var t := ActiveKeyFor(old(keys.rows), hash, apiKey.value);
      && (t.None? ==> res == Err(HttpError(401)) && keys.rows == old(keys.rows))
      && (t.Some? ==> var k := Used(old(keys.rows)[t.value], now);
            res == Ok(k) && keys.rows == old(keys.rows)[t.value := k])
  {
    if !Present(apiKey) {
      return Err(HttpError(401));
    }
    if apiKey.value == adminKey {
      return Ok(AdminRecord);
    }
    var t := ActiveKeyFor(keys.rows, hash, apiKey.value);
    if t.None? {
      return Err(HttpError(401));
    }
    var k := keys.rows[t.value];
    k := k.(lastUsedAt := Some(now));
    k := k.(requestCount := k.requestCount + 1);
    keys.rows := keys.rows[t.value := k];
    res := Ok(k);
  }

  /** The checker require_permission(p) builds, applied to an authenticated key. */
  function RequirePermission(key: ApiKey, p: string): (r: Result<ApiKey, HttpError>)
    ensures r.Ok? ==> r.value == key
    ensures r.Err? ==> r.error == HttpError(403)
  {
    if "admin" in key.permissions then Ok(key)
    else if p !in key.permissions then Err(HttpError(403))
    else Ok(key)
  }

  /** A key passes a permission check exactly when it holds admin or that permission. */
  lemma RequirePermissionIff(key: ApiKey, p: string)
    ensures RequirePermission(key, p).Ok? <==> "admin" in key.permissions || p in key.permissions
  {
  }

  /** The admin record passes every permission check. */
  lemma AdminPassesEverything(p: string)
    ensures RequirePermission(AdminRecord, p) == Ok(AdminRecord)
  {
    assert AdminRecord.permissions[0] == "admin";
  }

  /**
   * An issued key is the admin key exactly when the configured admin key
   * starts with the issuing prefix and the token is the rest of it; such a
   * key would then authenticate as the admin record.
   */
  lemma IssuedKeyIsAdminIff(adminKey: string, token: string)
    ensures RawKey(token) == adminKey <==>
      |KeyPrefix| <= |adminKey| && adminKey[..|KeyPrefix|] == KeyPrefix && token == adminKey[|KeyPrefix|..]
  {
    if RawKey(token) == adminKey {
      assert adminKey[..|KeyPrefix|] == KeyPrefix;
      assert adminKey[|KeyPrefix|..] == token;
    }
    if |KeyPrefix| <= |adminKey| && adminKey[..|KeyPrefix|] == KeyPrefix && token == adminKey[|KeyPrefix|..] {
      assert adminKey == adminKey[..|KeyPrefix|] + adminKey[|KeyPrefix|..];
    }
  }

  /** With the default settings no issued key is the admin key, and none is empty. */
  lemma IssuedKeyIsNotDefaultAdmin(token: string)
    ensures RawKey(token) != DefaultAdminKey && Present(Some(RawKey(token)))
  {
    IssuedKeyIsAdminIff(DefaultAdminKey, token);
    assert DefaultAdminKey[3] != KeyPrefix[3];
  }

  /**
   * A key just issued authenticates: presented in plaintext, it is found by
   * its hash as the row that was added.
   */
  lemma IssuedKeyAuthenticates(rows: seq<ApiKey>, hash: string -> string, token: string, name: string,
                              restaurantUid: Option<string>, permissions: Option<seq<string>>, now: int)
    requires !HashTaken(rows, hash(RawKey(token)))
    ensures var k := NewKey(rows, hash, token, name, restaurantUid, permissions, now);
      ActiveKeyFor(rows + [k], hash, RawKey(token)) == Some(|rows|)
  {
    var k := NewKey(rows, hash, token, name, restaurantUid, permissions, now);
    var t := ActiveKeyFor(rows + [k], hash, RawKey(token));
    assert (rows + [k])[|rows|] == k;
  }

  /**
   * Once a key is revoked it no longer authenticates: with hashes unique,
   * no active row is left with its hash.
   */
  lemma RevokedKeyRejected(rows: seq<ApiKey>, hash: string -> string, key: string, i: nat)
    requires WellKeyed(rows)
    requires i < |rows| && rows[i].keyHash == hash(key)
    ensures ActiveKeyFor(rows[i := rows[i].(isActive := false)], hash, key).None?
  {
    var rows' := rows[i := rows[i].(isActive := false)];
    forall j | 0 <= j < |rows'| ensures !(rows'[j].isActive && rows'[j].keyHash == hash(key)) {
      if j != i {
        assert rows'[j] == rows[j];
      }
    }
  }

  /**
   * A key created without permissions may read and write orders and menus
   * but is refused the payment permissions.
   */
  lemma DefaultKeyPermissions(key: ApiKey)
    requires key.permissions == DefaultPermissions
    ensures RequirePermission(key, "pos:read").Ok? && RequirePermission(key, "pos:write").Ok?
    ensures RequirePermission(key, "payments:read") == Err(HttpError(403))
    ensures RequirePermission(key, "payments:write") == Err(HttpError(403))
  {
    assert key.permissions[0] == "pos:read" && key.permissions[1] == "pos:write";
    assert "payments:read" != "pos:read" && "payments:read" != "pos:write" by {
      assert "payments:read"[1] != "pos:read"[1];
      assert "payments:read"[1] != "pos:write"[1];
    }
    assert "payments:write" != "pos:read" && "payments:write" != "pos:write" by {
      assert "payments:write"[1] != "pos:read"[1];
      assert "payments:write"[1] != "pos:write"[1];
    }
    assert "admin" != "pos:read" && "admin" != "pos:write" by {
      assert "admin"[0] != "pos:read"[0];
      assert "admin"[0] != "pos:write"[0];
    }
  }
}

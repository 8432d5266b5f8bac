/**
 * API keys as the data service issues and revokes them. A key is stored
 * only as its hash (SHA-256 in the service, here any function from strings
 * to strings) with a short display prefix; the plaintext is returned once.
 */
module ApiKeys {
  import opened Common
  import opened Store

  datatype ApiKey = ApiKey(
    id: nat,
    keyHash: string,
    keyPrefix: string,
    name: string,
    restaurantUid: Option<string>,
    permissions: seq<string>,
    isActive: bool,
    createdAt: Option<int>,
    lastUsedAt: Option<int>,
    requestCount: nat)

  /** The prefix every issued key starts with. */
  const KeyPrefix: string := "fk-pos-"

  /** The permissions a key gets when it is created without any. */
  const DefaultPermissions: seq<string> := ["pos:read", "pos:write"]

  /** The HTTP status of the database error a duplicate key hash raises. */
  const IntegrityError: nat := 500

  /** The largest id in the table, 0 when it is empty. */
  function MaxId(rows: seq<ApiKey>): (m: nat)
    ensures forall i :: 0 <= i < |rows| ==> rows[i].id <= m
    ensures |rows| > 0 ==> exists i :: 0 <= i < |rows| && rows[i].id == m
  {
    if |rows| == 0 then 0
    else
      var m := MaxId(rows[..|rows| - 1]);
      assert forall i :: 0 <= i < |rows| - 1 ==> rows[..|rows| - 1][i] == rows[i];
      if rows[|rows| - 1].id > m then rows[|rows| - 1].id else m
  }

  /** No two keys share a hash (the column's unique constraint) and no two share an id. */
  ghost predicate WellKeyed(rows: seq<ApiKey>) {
    && (forall i, j :: 0 <= i < j < |rows| ==> rows[i].keyHash != rows[j].keyHash)
    && (forall i, j :: 0 <= i < j < |rows| ==> rows[i].id != rows[j].id)
  }

  /** The api_keys table, in insertion order. */
  class KeyTable {
    var rows: seq<ApiKey>

    ghost predicate Valid()
      reads this
    {
      WellKeyed(rows)
    }

    constructor()
      ensures rows == [] && Valid()
    {
      rows := [];
    }
  }

  /** The plaintext key issued for a random token. */
  function RawKey(token: string): string {
    KeyPrefix + token
  }

  /** raw[:12] + "...": a prefix of the key, of twelve characters when the key has them, then an ellipsis. */
  function DisplayPrefix(raw: string): (p: string)
    ensures |p| == IMin(12, |raw|) + 3
    ensures p[..|p| - 3] <= raw && p[|p| - 3..] == "..."
  {
    raw[..IMin(12, |raw|)] + "..."
  }

  /** permissions or ["pos:read", "pos:write"]: None and the empty list both give the default. */
  function PermissionsOrDefault(permissions: Option<seq<string>>): (r: seq<string>)
    ensures permissions.Some? && permissions.value != [] ==> r == permissions.value
    ensures permissions.None? || permissions.value == [] ==> r == DefaultPermissions
  {
    if permissions.Some? && permissions.value != [] then permissions.value else DefaultPermissions
  }

  /** The row create_api_key inserts. */
  function NewKey(rows: seq<ApiKey>, hash: string -> string, token: string, name: string,
                  restaurantUid: Option<string>, permissions: Option<seq<string>>, now: int): (k: ApiKey)
    ensures k.keyHash == hash(RawKey(token)) && k.isActive && k.requestCount == 0 && k.lastUsedAt.None?
    ensures forall i :: 0 <= i < |rows| ==> rows[i].id < k.id
  {
    var raw := RawKey(token);
    ApiKey(MaxId(rows) + 1, hash(raw), DisplayPrefix(raw), name, restaurantUid,
           PermissionsOrDefault(permissions), true, Some(now), None, 0)
  }

  /** The stored display prefix shows the fk-pos- marker and at most 12 characters of the key. */
  lemma IssuedPrefix(token: string)
    ensures var p := DisplayPrefix(RawKey(token));
      && |p| <= 15 && p[..7] == KeyPrefix
      && (|token| >= 5 ==> p == RawKey(token)[..12] + "...")
  {
    var raw := RawKey(token);
    assert raw[..7] == KeyPrefix;
    assert DisplayPrefix(raw)[..7] == raw[..IMin(12, |raw|)][..7];
  }

  /** Some key already has hash h. */
  predicate HashTaken(rows: seq<ApiKey>, h: string) {
    exists i :: 0 <= i < |rows| && rows[i].keyHash == h
  }

  /**
   * create_api_key: issues fk-pos- followed by the token, stores its hash,
   * its 12-character display prefix and the permissions (the default pair when
   * none are given), and returns the row with the plaintext. A hash already
   * in the table violates its unique constraint and inserts nothing.
   */
  method CreateApiKey(keys: KeyTable, hash: string -> string, token: string, name: string,
                      restaurantUid: Option<string>, permissions: Option<seq<string>>, now: int)
    returns (res: Result<(ApiKey, string), HttpError>)
    requires keys.Valid()
    modifies keys
    ensures keys.Valid()
    ensures HashTaken(old(keys.rows), hash(RawKey(token))) ==> res == Err(HttpError(IntegrityError)) && keys.rows == old(keys.rows)
    ensures !HashTaken(old(keys.rows), hash(RawKey(token))) ==>
      var k := NewKey(old(keys.rows), hash, token, name, restaurantUid, permissions, now);
      res == Ok((k, RawKey(token))) && keys.rows == old(keys.rows) + [k]
  {
    var raw := KeyPrefix + token;
    var keyHash := hash(raw);
    var keyPrefix := raw[..IMin(12, |raw|)] + "...";
    var perms := if permissions.Some? && permissions.value != [] then permissions.value else DefaultPermissions;
    if HashTaken(keys.rows, keyHash) {
      return Err(HttpError(IntegrityError));
    }
    var k := ApiKey(MaxId(keys.rows) + 1, keyHash, keyPrefix, name, restaurantUid, perms, true, Some(now), None, 0);
    keys.rows := keys.rows + [k];
    res := Ok((k, raw));
  }

  /** The row revoke_api_key finds: the first with that id. */
  function KeyWithId(rows: seq<ApiKey>, id: int): Option<nat> {
    FirstIndex(rows, (k: ApiKey) => k.id == id)
  }

  /**
   * revoke_api_key: answers whether a key has that id, and deactivates the
   * first such key; the row stays in the table.
   */
  method RevokeApiKey(keys: KeyTable, id: int) returns (found: bool)
    requires keys.Valid()
    modifies keys
    ensures keys.Valid()
    ensures found <==> exists i :: 0 <= i < |old(keys.rows)| && old(keys.rows)[i].id == id
    ensures KeyWithId(old(keys.rows), id).None? ==> keys.rows == old(keys.rows)
    ensures KeyWithId(old(keys.rows), id).Some? ==>
      var i := KeyWithId(old(keys.rows), id).value;
      keys.rows == old(keys.rows)[i := old(keys.rows)[i].(isActive := false)]
  {
    var t := KeyWithId(keys.rows, id);
    if t.Some? {
      keys.rows := keys.rows[t.value := keys.rows[t.value].(isActive := false)];
      found := true;
    } else {
      found := false;
    }
  }
}

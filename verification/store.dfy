/** The license store the server holds in memory: `{ count, licenses }`, where
    `licenses` maps a license key to the record the purchase webhook wrote. */
module Store {
  import opened Js

  /** One stored license, as written by the purchase webhook. */
  datatype License = License(
    productId: string,    // truthy by construction: the webhook refuses an empty one
    productName: Field,
    buyerEmail: Field,
    activated: bool,
    createdAt: string     // the ISO timestamp of the write, supplied by the caller
  )

  /** The whole store, also the shape of the persisted file. */
  datatype Licenses = Licenses(count: int, licenses: map<string, License>)

  /** The store's invariant: `count` is the number of stored keys. */
  predicate Valid(s: Licenses) {
    s.count == |s.licenses|
  }

  /** The store a fresh server starts from, and the one the admin clear installs. */
  const Empty: Licenses := Licenses(0, map[])

  /** `licenses.licenses[key] = rec; licenses.count = Object.keys(licenses.licenses).length`:
      an overwrite of one key, with the count recomputed from the keys. */
  function Put(s: Licenses, key: string, rec: License): (r: Licenses)
    ensures Valid(r)
    ensures key in r.licenses && r.licenses[key] == rec
    ensures forall k :: k != key ==> (k in r.licenses <==> k in s.licenses)
    ensures forall k :: k != key && k in s.licenses ==> r.licenses[k] == s.licenses[k]
    ensures key in s.licenses ==> |r.licenses| == |s.licenses|
    ensures key !in s.licenses ==> |r.licenses| == |s.licenses| + 1
    ensures Valid(s) ==> r.count == s.count + (if key in s.licenses then 0 else 1)
  {
    var m := s.licenses[key := rec];
    Licenses(|m|, m)
  }

  /** Lines 73 and 80 of the webhook as they are written: the count is the
      length of `Object.keys` of the updated map, which is the `|m|` of `Put`. */
  method StoreLicense(s: Licenses, key: string, rec: License) returns (r: Licenses)
    ensures r == Put(s, key, rec)
  {
    var m := s.licenses[key := rec];
    var keys := ObjectKeys(m);
    r := Licenses(|keys|, m);
  }

  /** `Object.keys(m)`: every own key of the object exactly once, in some order. */
  method ObjectKeys<V>(m: map<string, V>) returns (keys: seq<string>)
    ensures forall i :: 0 <= i < |keys| ==> keys[i] in m
    ensures forall k :: k in m ==> k in keys
    ensures forall i, j :: 0 <= i < j < |keys| ==> keys[i] != keys[j]
    ensures |keys| == |m|
  {
    keys := [];
    var rest := m.Keys;
    while rest != {}
      invariant rest <= m.Keys
      invariant forall i :: 0 <= i < |keys| ==> keys[i] in m && keys[i] !in rest
      invariant forall k :: k in m && k !in rest ==> k in keys
      invariant forall i, j :: 0 <= i < j < |keys| ==> keys[i] != keys[j]
      invariant |keys| + |rest| == |m.Keys|
      decreases |rest|
    {
      var k :| k in rest;
      keys := keys + [k];
      rest := rest - {k};
    }
  }
}

/**
 * The key filter: from a VPN connection's data items, keep only the IPsec
 * settings, values copied unchanged (`copy_values`,
 * `ipsec_dialog_new_hash_from_connection`).
 */
module KeyFilter {
  import opened IpsecKeys

  /** The IPsec part of a settings map: the pairs whose key is in the key table. */
  function IpsecSubset(items: Settings): Settings {
    map k | k in items && IsIpsecKey(k) :: items[k]
  }

  /**
   * The per-item callback: walks the key table and inserts the pair into `hash`
   * for each table entry equal to `key`.
   */
  method CopyValues(key: string, value: string, hash: Settings) returns (hash': Settings)
    ensures hash' == if IsIpsecKey(key) then hash[key := value] else hash
  {
    hash' := hash;
    var i := 0;
    while i < |Table|
      invariant 0 <= i <= |Table|
      invariant hash' == if key in Table[..i] then hash[key := value] else hash
    {
      if key != Table[i] {
        i := i + 1;
        continue;
      }
      hash' := hash'[key := value];
      i := i + 1;
    }
    assert Table[..i] == Table;
  }

  /**
   * Builds a fresh map from the connection's VPN data items by running the
   * callback on each item, in whatever order the items are visited.
   */
  method NewHashFromConnection(items: Settings) returns (hash: Settings)
    ensures forall k :: k in hash <==> k in items && IsIpsecKey(k)
    ensures forall k :: k in hash ==> hash[k] == items[k]
    ensures hash == IpsecSubset(items)
  {
    hash := map[];
    var rest := items.Keys;
    while rest != {}
      invariant rest <= items.Keys
      invariant forall k :: k in hash <==> k in items && k !in rest && IsIpsecKey(k)
      invariant forall k :: k in hash ==> hash[k] == items[k]
      decreases rest
    {
      var k :| k in rest;
      hash := CopyValues(k, items[k], hash);
      rest := rest - {k};
    }
  }

  /** The IPsec part agrees with the whole map on each of the nine keys. */
  lemma SubsetAgrees(items: Settings)
    ensures forall k :: k in TextKeys + {Enable, AuthType, Pfs} ==>
      var sub := IpsecSubset(items); (k in sub <==> k in items) && (k in sub ==> sub[k] == items[k])
  {
    forall k | k in TextKeys + {Enable, AuthType, Pfs} ensures IsIpsecKey(k) {
    }
  }
}

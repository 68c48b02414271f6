/**
 * The nine setting names the IPsec dialog reads and writes (the `ipsec_keys`
 * table). Only their distinctness matters to the dialog.
 */
module IpsecKeys {

  const Enable: string := "ipsec-enable"
  const GroupName: string := "ipsec-group-name"
  const GatewayId: string := "ipsec-gateway-id"
  const AuthType: string := "ipsec-auth-type"
  const Psk: string := "ipsec-psk"
  const RsaCert: string := "ipsec-rsa-cert"
  const RsaKey: string := "ipsec-rsa-key"
  const RsaPassphrase: string := "ipsec-rsa-passphrase"
  const Pfs: string := "ipsec-pfs"

  /** The `ipsec_keys` table in its declared order; its NULL terminator is the end of the sequence. */
  const Table: seq<string> := [Enable, GroupName, GatewayId, AuthType, Psk, RsaCert, RsaKey, RsaPassphrase, Pfs]

  /** The six keys that are bound to a text entry of the dialog. */
  const TextKeys: set<string> := {GroupName, GatewayId, Psk, RsaCert, RsaKey, RsaPassphrase}

  predicate IsIpsecKey(k: string) {
    k in Table
  }

  /** A settings map: setting name to setting value. */
  type Settings = map<string, string>

  /** `k` is present in `h` with exactly the value `v` (lookup followed by strcmp). */
  predicate HasValue(h: Settings, k: string, v: string) {
    k in h && h[k] == v
  }

  /** Two maps over the nine keys are equal when they have the same keys and agree on each key. */
  lemma {:induction false} SameSettings(m: Settings, n: Settings)
    requires m.Keys == n.Keys
    requires m.Keys <= TextKeys + {Enable, AuthType, Pfs}
    requires Enable in m ==> m[Enable] == n[Enable]
    requires GroupName in m ==> m[GroupName] == n[GroupName]
    requires GatewayId in m ==> m[GatewayId] == n[GatewayId]
    requires AuthType in m ==> m[AuthType] == n[AuthType]
    requires Psk in m ==> m[Psk] == n[Psk]
    requires RsaCert in m ==> m[RsaCert] == n[RsaCert]
    requires RsaKey in m ==> m[RsaKey] == n[RsaKey]
    requires RsaPassphrase in m ==> m[RsaPassphrase] == n[RsaPassphrase]
    requires Pfs in m ==> m[Pfs] == n[Pfs]
    ensures m == n
  {
    forall k | k in m ensures m[k] == n[k] {
    }
  }
}

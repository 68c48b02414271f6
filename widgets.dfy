/**
 * Widget identifiers of the dialog's widget tree and the two sensitivity rules
 * (`handle_auth_changed`, `handle_enable_changed`) as functions on a
 * name-to-sensitive map.
 */
module Widgets {

  const LabelAuthTypeCombo: string := "label_auth_type_combo"
  const AuthTypeCombo: string := "ipsec_auth_type_combo"
  const LabelPsk: string := "label_psk"
  const PskEntry: string := "ipsec_psk"
  const LabelRsaCert: string := "label_rsa_cert"
  const RsaCertEntry: string := "ipsec_rsa_cert"
  const LabelRsaKey: string := "label_rsa_key"
  const RsaKeyEntry: string := "ipsec_rsa_key"
  const LabelRsaPassphrase: string := "label_rsa_passphrase"
  const RsaPassphraseEntry: string := "ipsec_rsa_passphrase"
  const LabelGatewayId: string := "label_gateway_id"
  const GatewayIdEntry: string := "ipsec_gateway_id"
  const LabelGroupName: string := "label_group_name"
  const GroupNameEntry: string := "ipsec_group_name"
  const PfsToggle: string := "pfs_enable"
  const EnableToggle: string := "ipsec_enable"
  const PskSettings: string := "ipsec_psk_settings"
  const RsaSettings: string := "ipsec_rsa_settings"

  /** Row indices of the auth-type combo (IPSEC_AUTH_PSK, IPSEC_AUTH_RSA). */
  const AuthPsk: int := 0
  const AuthRsa: int := 1

  /** The fifteen widgets whose sensitivity follows the enable toggle, in the order the handler sets them. */
  const EnableDependents: seq<string> := [
    LabelAuthTypeCombo, AuthTypeCombo, LabelPsk, PskEntry, LabelRsaCert, RsaCertEntry,
    LabelRsaKey, RsaKeyEntry, LabelRsaPassphrase, RsaPassphraseEntry,
    LabelGatewayId, GatewayIdEntry, LabelGroupName, GroupNameEntry, PfsToggle]

  /** The `sensitive` property of each widget, by identifier. */
  type Sensitivity = map<string, bool>

  /** Two sensitivity maps with the same widgets and the same value for each are equal. */
  lemma SameSensitivity(a: Sensitivity, b: Sensitivity)
    requires a.Keys == b.Keys
    requires forall w :: w in a ==> a[w] == b[w]
    ensures a == b
  {
  }

  /** Sets the sensitivity of every widget in `names` to `on` and leaves all others alone. */
  function SetAll(s: Sensitivity, names: seq<string>, on: bool): (r: Sensitivity)
    ensures r.Keys == s.Keys + set w | w in names
    ensures forall w :: w in r ==> r[w] == if w in names then on else s[w]
    decreases |names|
  {
    if names == [] then s else SetAll(s[names[0] := on], names[1..], on)
  }

  /** The effect of the enable handler on the sensitivity map. */
  function EnableSensitivity(s: Sensitivity, on: bool): Sensitivity {
    SetAll(s, EnableDependents, on)
  }

  /** The enable handler's fifteen assignments, one after the other. */
  function EnableSteps(s: Sensitivity, on: bool): (r: Sensitivity)
    ensures r.Keys == s.Keys + set w | w in EnableDependents
    ensures forall w :: w in r ==> r[w] == if w in EnableDependents then on else s[w]
  {
    s[LabelAuthTypeCombo := on][AuthTypeCombo := on][LabelPsk := on][PskEntry := on]
       [LabelRsaCert := on][RsaCertEntry := on][LabelRsaKey := on][RsaKeyEntry := on]
       [LabelRsaPassphrase := on][RsaPassphraseEntry := on]
       [LabelGatewayId := on][GatewayIdEntry := on][LabelGroupName := on][GroupNameEntry := on]
       [PfsToggle := on]
  }

  /** The handler's assignments have the effect `EnableSensitivity` describes. */
  lemma {:induction false} EnableHandlerSteps(s: Sensitivity, on: bool)
    ensures EnableSteps(s, on) == EnableSensitivity(s, on)
  {
    var a, b := EnableSteps(s, on), EnableSensitivity(s, on);
    assert a.Keys == b.Keys;
    forall w | w in a ensures a[w] == b[w] {
    }
    SameSensitivity(a, b);
  }

  /**
   * The effect of the auth-type switch: index 1 makes the RSA group sensitive and
   * the PSK group not; any other index (the `default:` case) does the reverse.
   */
  function AuthSensitivity(s: Sensitivity, active: int): (r: Sensitivity)
    ensures r.Keys == s.Keys + {PskSettings, RsaSettings}
    ensures r[RsaSettings] <==> active == AuthRsa
    ensures r[PskSettings] != r[RsaSettings]
    ensures forall w :: w in s && w != PskSettings && w != RsaSettings ==> r[w] == s[w]
  {
    if active == AuthRsa then s[RsaSettings := true][PskSettings := false]
    else s[PskSettings := true][RsaSettings := false]
  }

  /**
   * The invariant both handlers keep together: exactly one auth group is sensitive,
   * the one the selector names, and each enable dependent is sensitive iff IPsec is on.
   */
  predicate Consistent(s: Sensitivity, enabled: bool, active: int) {
    && PskSettings in s && RsaSettings in s
    && s[RsaSettings] == (active == AuthRsa)
    && s[PskSettings] == (active != AuthRsa)
    && forall w :: w in EnableDependents ==> w in s && s[w] == enabled
  }

  /** The two auth groups are not among the enable dependents. */
  lemma GroupsNotDependents()
    ensures PskSettings !in EnableDependents && RsaSettings !in EnableDependents
  {
    forall i | 0 <= i < |EnableDependents|
      ensures EnableDependents[i] != PskSettings && EnableDependents[i] != RsaSettings
    {
      assert |EnableDependents[i]| != |PskSettings| == |RsaSettings|;
    }
  }

  /** Running both handlers, in either order, leaves the widget tree consistent. */
  lemma {:induction false} HandlersEstablishConsistency(s: Sensitivity, enabled: bool, active: int)
    ensures Consistent(EnableSensitivity(AuthSensitivity(s, active), enabled), enabled, active)
    ensures Consistent(AuthSensitivity(EnableSensitivity(s, enabled), active), enabled, active)
  {
    GroupsNotDependents();
  }

  /** Setting widgets other than the two auth groups commutes with the auth-type switch. */
  lemma {:induction false} SetAllCommutesWithAuth(s: Sensitivity, names: seq<string>, on: bool, active: int)
    requires PskSettings !in names && RsaSettings !in names
    ensures SetAll(AuthSensitivity(s, active), names, on) == AuthSensitivity(SetAll(s, names, on), active)
  {
    var sa, se := AuthSensitivity(s, active), SetAll(s, names, on);
    var a, b := SetAll(sa, names, on), AuthSensitivity(se, active);
    assert a.Keys == b.Keys;
    forall w | w in a ensures a[w] == b[w] {
      if w in names {
        assert a[w] == on == se[w] == b[w];
      } else if w == PskSettings || w == RsaSettings {
        assert a[w] == sa[w];
      } else {
        assert a[w] == sa[w] == s[w] == se[w] == b[w];
      }
    }
  }

  /** The two controllers are independent: their effects commute. */
  lemma {:induction false} HandlersCommute(s: Sensitivity, enabled: bool, active: int)
    ensures EnableSensitivity(AuthSensitivity(s, active), enabled)
         == AuthSensitivity(EnableSensitivity(s, enabled), active)
  {
    GroupsNotDependents();
    SetAllCommutesWithAuth(s, EnableDependents, enabled, active);
  }

  /** Re-running the auth handler on a consistent tree after the selector moves restores consistency. */
  lemma {:induction false} AuthHandlerKeepsEnablePart(s: Sensitivity, enabled: bool, active: int, active': int)
    requires Consistent(s, enabled, active)
    ensures Consistent(AuthSensitivity(s, active'), enabled, active')
  {
    GroupsNotDependents();
  }

  /** Re-running the enable handler on a consistent tree after the toggle flips restores consistency. */
  lemma {:induction false} EnableHandlerKeepsAuthPart(s: Sensitivity, enabled: bool, enabled': bool, active: int)
    requires Consistent(s, enabled, active)
    ensures Consistent(EnableSensitivity(s, enabled'), enabled', active)
  {
    GroupsNotDependents();
  }
}

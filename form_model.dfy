/**
 * The dialog's widget state as a record, and what loading a settings map into
 * it and extracting a settings map from it do, as functions. The class in
 * module IpsecDialog is proved to follow these functions.
 */
module FormModel {
  import opened IpsecKeys
  import W = Widgets
  import KeyFilter

  /**
   * What the dialog's widgets hold: the two toggles, the active row of the
   * auth-type combo (-1 when no row is active), the six entry texts and the
   * sensitivity of every widget.
   */
  datatype Form = Form(
    enable: bool,
    pfs: bool,
    authActive: int,
    groupName: string,
    gatewayId: string,
    psk: string,
    rsaCert: string,
    rsaKey: string,
    rsaPassphrase: string,
    sensitive: W.Sensitivity)

  /** The state the widget tree is built in: IPsec off, PFS on, every entry empty. */
  predicate Pristine(f: Form) {
    && !f.enable && f.pfs
    && f.groupName == "" && f.gatewayId == "" && f.psk == ""
    && f.rsaCert == "" && f.rsaKey == "" && f.rsaPassphrase == ""
  }

  /**
   * The combo row chosen on load: the PSK row is tried first, then the RSA row;
   * when neither matched, the PSK row is selected.
   */
  function ComboIndexFor(h: Settings): (active: int)
    ensures active == W.AuthPsk || active == W.AuthRsa
    ensures active == W.AuthRsa <==> HasValue(h, AuthType, "rsa")
  {
    var chosen :=
      if HasValue(h, AuthType, "psk") then W.AuthPsk
      else if HasValue(h, AuthType, "rsa") then W.AuthRsa
      else -1;
    if chosen < 0 then W.AuthPsk else chosen
  }

  /** An entry keeps its text unless the key is present. */
  function EntryText(h: Settings, k: string, current: string): string {
    if k in h then h[k] else current
  }

  /** Combo set-up: selects the row for `h` and switches the two auth groups accordingly. */
  function SetupCombo(f: Form, h: Settings): Form {
    var active := ComboIndexFor(h);
    f.(authActive := active, sensitive := W.AuthSensitivity(f.sensitive, active))
  }

  /** The toggles: "yes" turns the enable toggle on, "no" turns PFS off; nothing else changes them. */
  function CopyToggles(f: Form, h: Settings): Form {
    f.(enable := if HasValue(h, Enable, "yes") then true else f.enable,
       pfs := if HasValue(h, Pfs, "no") then false else f.pfs)
  }

  /** The entries: each one whose key is present takes the key's value. */
  function CopyEntries(f: Form, h: Settings): Form {
    f.(groupName := EntryText(h, GroupName, f.groupName),
       gatewayId := EntryText(h, GatewayId, f.gatewayId),
       psk := EntryText(h, Psk, f.psk),
       rsaCert := EntryText(h, RsaCert, f.rsaCert),
       rsaKey := EntryText(h, RsaKey, f.rsaKey),
       rsaPassphrase := EntryText(h, RsaPassphrase, f.rsaPassphrase))
  }

  /** The auth-type handler applied to the widget tree. */
  function AuthHandler(f: Form): Form {
    f.(sensitive := W.AuthSensitivity(f.sensitive, f.authActive))
  }

  /** The enable handler applied to the widget tree. */
  function EnableHandler(f: Form): Form {
    f.(sensitive := W.EnableSensitivity(f.sensitive, f.enable))
  }

  /**
   * Loading `h` into a widget tree in state `init`: combo set-up, the toggles,
   * the entries, then both handlers once.
   */
  function LoadForm(init: Form, h: Settings): Form {
    EnableHandler(AuthHandler(CopyEntries(CopyToggles(SetupCombo(init, h), h), h)))
  }

  /** The auth-type value written for a combo row: "rsa" for row 1, "psk" for every other row, -1 included. */
  function AuthTypeName(active: int): string {
    if active == W.AuthRsa then "rsa" else "psk"
  }

  /** The map extraction builds, by successive insertions into an empty map. */
  function ExtractMap(f: Form): (m: Settings)
    ensures m.Keys == TextKeys + {AuthType}
                      + (if f.enable then {Enable} else {})
                      + (if f.pfs then {} else {Pfs})
    ensures Enable in m <==> f.enable
    ensures Enable in m ==> m[Enable] == "yes"
    ensures Pfs in m <==> !f.pfs
    ensures Pfs in m ==> m[Pfs] == "no"
    ensures m[AuthType] == "rsa" <==> f.authActive == W.AuthRsa
    ensures m[AuthType] == "rsa" || m[AuthType] == "psk"
    ensures m[GroupName] == f.groupName && m[GatewayId] == f.gatewayId && m[Psk] == f.psk
    ensures m[RsaCert] == f.rsaCert && m[RsaKey] == f.rsaKey && m[RsaPassphrase] == f.rsaPassphrase
  {
    var m0: Settings := map[];
    var m1 := if f.enable then m0[Enable := "yes"] else m0;
    var m2 := if !f.pfs then m1[Pfs := "no"] else m1;
    m2[GatewayId := f.gatewayId][GroupName := f.groupName][AuthType := AuthTypeName(f.authActive)]
      [Psk := f.psk][RsaCert := f.rsaCert][RsaKey := f.rsaKey][RsaPassphrase := f.rsaPassphrase]
  }

  /** The text of key `k`, or the empty string when it is absent. */
  function TextOf(h: Settings, k: string): string {
    if k in h then h[k] else ""
  }

  /** The keys of the normal form: the text keys and the auth type, plus `Enable` and `Pfs` when they are set. */
  function NormalKeys(h: Settings): set<string> {
    TextKeys + {AuthType}
    + (if HasValue(h, Enable, "yes") then {Enable} else {})
    + (if HasValue(h, Pfs, "no") then {Pfs} else {})
  }

  /** The value the normal form gives key `k`. */
  function NormalValue(h: Settings, k: string): string {
    if k == Enable then "yes"
    else if k == Pfs then "no"
    else if k == AuthType then (if HasValue(h, AuthType, "rsa") then "rsa" else "psk")
    else TextOf(h, k)
  }

  /**
   * Reference definition of the normal form of a settings map: the text keys with
   * their value or "", the auth type "rsa" exactly when it was "rsa" and "psk"
   * otherwise, `Enable` present (as "yes") exactly when it was "yes", `Pfs`
   * present (as "no") exactly when it was "no".
   */
  function Normalize(h: Settings): Settings {
    map k | k in NormalKeys(h) :: NormalValue(h, k)
  }

  /** The four load rules; every field the rules do not touch keeps its initial state. */
  lemma LoadFields(init: Form, h: Settings)
    ensures var f := LoadForm(init, h);
      && (f.authActive == W.AuthRsa <==> HasValue(h, AuthType, "rsa"))
      && (f.authActive == W.AuthPsk <==> !HasValue(h, AuthType, "rsa"))
      && (HasValue(h, Enable, "yes") ==> f.enable)
      && (!HasValue(h, Enable, "yes") ==> f.enable == init.enable)
      && (HasValue(h, Pfs, "no") ==> !f.pfs)
      && (!HasValue(h, Pfs, "no") ==> f.pfs == init.pfs)
      && (GroupName in h ==> f.groupName == h[GroupName]) && (GroupName !in h ==> f.groupName == init.groupName)
      && (GatewayId in h ==> f.gatewayId == h[GatewayId]) && (GatewayId !in h ==> f.gatewayId == init.gatewayId)
      && (Psk in h ==> f.psk == h[Psk]) && (Psk !in h ==> f.psk == init.psk)
      && (RsaCert in h ==> f.rsaCert == h[RsaCert]) && (RsaCert !in h ==> f.rsaCert == init.rsaCert)
      && (RsaKey in h ==> f.rsaKey == h[RsaKey]) && (RsaKey !in h ==> f.rsaKey == init.rsaKey)
      && (RsaPassphrase in h ==> f.rsaPassphrase == h[RsaPassphrase])
      && (RsaPassphrase !in h ==> f.rsaPassphrase == init.rsaPassphrase)
  {
  }

  /** After load, exactly the selected auth group is sensitive and every dependent follows the enable toggle. */
  lemma LoadConsistent(init: Form, h: Settings)
    ensures var f := LoadForm(init, h); W.Consistent(f.sensitive, f.enable, f.authActive)
  {
    var f := CopyEntries(CopyToggles(SetupCombo(init, h), h), h);
    W.HandlersEstablishConsistency(f.sensitive, f.enable, f.authActive);
  }

  /** The normal form holds the text keys and the auth type, plus `Enable` and `Pfs` under their inclusion rules. */
  lemma NormalShape(h: Settings)
    ensures var n := Normalize(h);
      && n.Keys == TextKeys + {AuthType}
                   + (if HasValue(h, Enable, "yes") then {Enable} else {})
                   + (if HasValue(h, Pfs, "no") then {Pfs} else {})
      && (Enable in n ==> n[Enable] == "yes")
      && (Pfs in n ==> n[Pfs] == "no")
      && n[AuthType] == (if HasValue(h, AuthType, "rsa") then "rsa" else "psk")
      && n[GroupName] == TextOf(h, GroupName) && n[GatewayId] == TextOf(h, GatewayId)
      && n[Psk] == TextOf(h, Psk) && n[RsaCert] == TextOf(h, RsaCert)
      && n[RsaKey] == TextOf(h, RsaKey) && n[RsaPassphrase] == TextOf(h, RsaPassphrase)
  {
  }

  /** Extract after load, from the pristine widget tree, gives the normal form of the loaded map. */
  lemma {:induction false} RoundTrip(init: Form, h: Settings)
    requires Pristine(init)
    ensures ExtractMap(LoadForm(init, h)) == Normalize(h)
  {
    LoadFields(init, h);
    NormalShape(h);
    var f := LoadForm(init, h);
    var m, n := ExtractMap(f), Normalize(h);
    assert m.Keys == n.Keys;
    SameSettings(m, n);
  }

  /** Normalizing twice is normalizing once. */
  lemma {:induction false} NormalizeIdempotent(h: Settings)
    ensures Normalize(Normalize(h)) == Normalize(h)
  {
    var n := Normalize(h);
    var nn := Normalize(n);
    assert nn.Keys == n.Keys;
    forall k | k in n ensures nn[k] == n[k] {
    }
  }

  /** Load-then-extract is idempotent, whatever pristine widget tree each load starts from. */
  lemma {:induction false} LoadExtractIdempotent(init: Form, init': Form, h: Settings)
    requires Pristine(init) && Pristine(init')
    ensures ExtractMap(LoadForm(init', ExtractMap(LoadForm(init, h)))) == ExtractMap(LoadForm(init, h))
  {
    RoundTrip(init, h);
    RoundTrip(init', Normalize(h));
    NormalizeIdempotent(h);
  }

  /**
   * Load after extract restores the toggles and entries of any widget state; the
   * combo comes back as row 1 if it was row 1 and row 0 otherwise.
   */
  lemma {:induction false} ExtractThenLoad(init: Form, f: Form)
    requires Pristine(init)
    ensures var g := LoadForm(init, ExtractMap(f));
      && g.enable == f.enable && g.pfs == f.pfs
      && g.authActive == (if f.authActive == W.AuthRsa then W.AuthRsa else W.AuthPsk)
      && g.groupName == f.groupName && g.gatewayId == f.gatewayId && g.psk == f.psk
      && g.rsaCert == f.rsaCert && g.rsaKey == f.rsaKey && g.rsaPassphrase == f.rsaPassphrase
  {
    LoadFields(init, ExtractMap(f));
  }

  /** The normal form looks only at the IPsec keys: filtering first does not change it. */
  lemma {:induction false} NormalizeIgnoresForeignKeys(items: Settings)
    ensures Normalize(KeyFilter.IpsecSubset(items)) == Normalize(items)
  {
    var sub := KeyFilter.IpsecSubset(items);
    KeyFilter.SubsetAgrees(items);
    NormalShape(items);
    NormalShape(sub);
    SameSettings(Normalize(sub), Normalize(items));
  }

  /** Keys outside the IPsec table do not affect the round trip: filtering first changes nothing. */
  lemma {:induction false} FilterBeforeLoad(init: Form, items: Settings)
    requires Pristine(init)
    ensures ExtractMap(LoadForm(init, KeyFilter.IpsecSubset(items))) == ExtractMap(LoadForm(init, items))
  {
    RoundTrip(init, items);
    RoundTrip(init, KeyFilter.IpsecSubset(items));
    NormalizeIgnoresForeignKeys(items);
  }
}

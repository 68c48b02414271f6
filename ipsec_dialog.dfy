/**
 * The IPsec dialog: a widget tree whose fields the loader and the two handlers
 * change in place, and the extraction that reads it back.
 */
module IpsecDialog {
  import opened IpsecKeys
  import W = Widgets
  import opened FormModel

  /**
   * The outcome of instantiating the widget tree from the dialog's resource
   * file: the file could not be loaded, it has no dialog object, or it gives
   * the widgets in their declared initial state.
   */
  datatype UiFile = Unreadable | NoDialogObject | Loaded(widgets: Form)

  class Dialog {
    var ipsecEnable: bool
    var pfsEnable: bool
    var authActive: int
    var groupName: string
    var gatewayId: string
    var psk: string
    var rsaCert: string
    var rsaKey: string
    var rsaPassphrase: string
    var sensitive: W.Sensitivity

    /** The widget state as a value. */
    function State(): Form
      reads this
    {
      Form(ipsecEnable, pfsEnable, authActive, groupName, gatewayId, psk,
           rsaCert, rsaKey, rsaPassphrase, sensitive)
    }

    /** The widget tree as the resource file declares it. */
    constructor (widgets: Form)
      ensures State() == widgets
    {
      ipsecEnable := widgets.enable;
      pfsEnable := widgets.pfs;
      authActive := widgets.authActive;
      groupName := widgets.groupName;
      gatewayId := widgets.gatewayId;
      psk := widgets.psk;
      rsaCert := widgets.rsaCert;
      rsaKey := widgets.rsaKey;
      rsaPassphrase := widgets.rsaPassphrase;
      sensitive := widgets.sensitive;
    }

    /**
     * Fills the auth-type combo and selects its row from `hash`: PSK for "psk",
     * RSA for "rsa", PSK when neither; then switches the two auth groups.
     */
    method SetupAuthTypeCombo(hash: Settings)
      modifies this`authActive, this`sensitive
      ensures State() == SetupCombo(old(State()), hash)
    {
      var active := -1;
      if active < 0 && HasValue(hash, AuthType, "psk") {
        active := W.AuthPsk;
      }
      if active < 0 && HasValue(hash, AuthType, "rsa") {
        active := W.AuthRsa;
      }
      authActive := if active < 0 then W.AuthPsk else active;
      if active == W.AuthRsa {
        sensitive := sensitive[W.RsaSettings := true];
        sensitive := sensitive[W.PskSettings := false];
      } else {
        sensitive := sensitive[W.PskSettings := true];
        sensitive := sensitive[W.RsaSettings := false];
      }
    }

    /** The auth-type handler: row 1 makes the RSA group sensitive, any other row the PSK group. */
    method OnAuthChanged()
      modifies this`sensitive
      ensures State() == AuthHandler(old(State()))
      ensures sensitive[W.RsaSettings] == (authActive == W.AuthRsa) && sensitive[W.PskSettings] != sensitive[W.RsaSettings]
      ensures forall w :: w in old(sensitive) && w != W.PskSettings && w != W.RsaSettings ==> sensitive[w] == old(sensitive)[w]
    {
      if authActive == W.AuthRsa {
        sensitive := sensitive[W.RsaSettings := true];
        sensitive := sensitive[W.PskSettings := false];
      } else {
        sensitive := sensitive[W.PskSettings := true];
        sensitive := sensitive[W.RsaSettings := false];
      }
    }

    /** The enable handler: each of the fifteen dependents takes the enable toggle's state. */
    method OnEnableToggled()
      modifies this`sensitive
      ensures State() == EnableHandler(old(State()))
      ensures forall w :: w in W.EnableDependents ==> w in sensitive && sensitive[w] == ipsecEnable
      ensures forall w :: w in old(sensitive) && w !in W.EnableDependents ==> sensitive[w] == old(sensitive)[w]
    {
      var enabled := ipsecEnable;
      sensitive := sensitive[W.LabelAuthTypeCombo := enabled];
      sensitive := sensitive[W.AuthTypeCombo := enabled];
      sensitive := sensitive[W.LabelPsk := enabled];
      sensitive := sensitive[W.PskEntry := enabled];
      sensitive := sensitive[W.LabelRsaCert := enabled];
      sensitive := sensitive[W.RsaCertEntry := enabled];
      sensitive := sensitive[W.LabelRsaKey := enabled];
      sensitive := sensitive[W.RsaKeyEntry := enabled];
      sensitive := sensitive[W.LabelRsaPassphrase := enabled];
      sensitive := sensitive[W.RsaPassphraseEntry := enabled];
      sensitive := sensitive[W.LabelGatewayId := enabled];
      sensitive := sensitive[W.GatewayIdEntry := enabled];
      sensitive := sensitive[W.LabelGroupName := enabled];
      sensitive := sensitive[W.GroupNameEntry := enabled];
      sensitive := sensitive[W.PfsToggle := enabled];
      W.EnableHandlerSteps(old(sensitive), enabled);
    }

    /** The enable toggle is switched on only by "yes", the PFS toggle off only by "no". */
    method LoadToggles(hash: Settings)
      modifies this`ipsecEnable, this`pfsEnable
      ensures State() == CopyToggles(old(State()), hash)
    {
      if HasValue(hash, Enable, "yes") {
        ipsecEnable := true;
      }
      if HasValue(hash, Pfs, "no") {
        pfsEnable := false;
      }
    }

    /** Each entry whose key is present in `hash` is overwritten with the key's value. */
    method LoadEntries(hash: Settings)
      modifies this`groupName, this`gatewayId, this`psk, this`rsaCert, this`rsaKey, this`rsaPassphrase
      ensures State() == CopyEntries(old(State()), hash)
    {
      if GroupName in hash {
        groupName := hash[GroupName];
      }
      if GatewayId in hash {
        gatewayId := hash[GatewayId];
      }
      if Psk in hash {
        psk := hash[Psk];
      }
      if RsaCert in hash {
        rsaCert := hash[RsaCert];
      }
      if RsaKey in hash {
        rsaKey := hash[RsaKey];
      }
      if RsaPassphrase in hash {
        rsaPassphrase := hash[RsaPassphrase];
      }
    }

    /** Copies `hash` onto the widgets, then runs both handlers once. */
    method Load(hash: Settings)
      modifies this
      ensures State() == LoadForm(old(State()), hash)
    {
      SetupAuthTypeCombo(hash);
      LoadToggles(hash);
      LoadEntries(hash);
      OnAuthChanged();
      OnEnableToggled();
    }

    /**
     * Builds a fresh settings map from the widgets: "yes" for the enable key only
     * when IPsec is on, "no" for the PFS key only when PFS is off, and the six
     * texts and the auth type always.
     */
    method Extract() returns (hash: Settings)
      ensures hash == ExtractMap(State())
    {
      hash := map[];
      if ipsecEnable {
        hash := hash[Enable := "yes"];
      }
      if !pfsEnable {
        hash := hash[Pfs := "no"];
      }
      hash := hash[GatewayId := gatewayId];
      hash := hash[GroupName := groupName];
      if authActive == W.AuthRsa {
        hash := hash[AuthType := "rsa"];
      } else {
        hash := hash[AuthType := "psk"];
      }
      hash := hash[Psk := psk];
      hash := hash[RsaCert := rsaCert];
      hash := hash[RsaKey := rsaKey];
      hash := hash[RsaPassphrase := rsaPassphrase];
    }
  }

  /**
   * Creates the dialog for `hash`: no dialog when the resource file cannot be
   * loaded or has no dialog object; otherwise the loaded widget tree with `hash`
   * copied onto it.
   */
  method NewDialog(hash: Settings, ui: UiFile) returns (d: Dialog?)
    ensures d == null <==> !ui.Loaded?
    ensures d != null ==> fresh(d) && d.State() == LoadForm(ui.widgets, hash)
    ensures d != null ==> W.Consistent(d.sensitive, d.ipsecEnable, d.authActive)
  {
    if !ui.Loaded? {
      return null;
    }
    d := new Dialog(ui.widgets);
    d.Load(hash);
    LoadConsistent(ui.widgets, hash);
  }
}

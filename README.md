# IPsec settings dialog of the L2TP VPN editor plugin, modelled in Dafny

The network-manager-l2tp editor plugin has a modal dialog for the IPsec options of an L2TP connection. This project models the data layer under its widgets:

- the **key filter**, which keeps only the nine IPsec settings of a connection's VPN data items;
- the **loader**, which copies a settings map onto the form: the auth-type combo, the IPsec-enable and PFS toggles and six text entries;
- the **sensitivity controller**: the auth-type handler switches between the PSK and RSA field groups, and the enable handler makes fifteen widgets sensitive or insensitive;
- the **extractor**, which builds a fresh settings map from the form.

The widgets become the fields of a `Dialog` class:

- two booleans;
- the combo's active row (an `int`, where -1 means no row);
- six strings;
- a widget-name-to-sensitive map.

The methods of `Dialog` change these fields in place, as the C functions change the widgets. Each method is proved to follow a function on the `Form` record, the value view of the same state. The properties are proved about these functions:

- load-then-extract from the pristine widget tree gives a normal form of the input map;
- that round trip is idempotent;
- extract-then-load into a pristine tree restores both toggles and all six entries, and the combo comes back as row 1 iff it was row 1 (the sensitivity map is recomputed, not restored);
- keys that are not IPsec settings never matter;
- exactly one auth group is sensitive, the one the selector names;
- the two handlers commute and change nothing else.

Modules:

- `IpsecKeys` (ipsec_keys.dfy): the nine setting names and the `ipsec_keys` table.
- `Widgets` (widgets.dfy): the widget identifiers and the two sensitivity rules.
- `KeyFilter` (key_filter.dfy): `copy_values` and `ipsec_dialog_new_hash_from_connection`.
- `FormModel` (form_model.dfy): the `Form` record, the load and extract functions, the normal form, and the round-trip lemmas.
- `IpsecDialog` (ipsec_dialog.dfy): the `Dialog` class and dialog creation.

The header that defines the `NM_L2TP_KEY_IPSEC_*` constants (src/nm-l2tp-service-defines.h) is not part of this model. The nine strings in ipsec_keys.dfy (`ipsec-enable`, `ipsec-group-name`, …) are stand-in names, not the header's values; only their distinctness is used.

The widget tree's initial state comes from a resource file that is not part of this model, so it is an explicit parameter (`UiFile.Loaded(widgets)`). The round-trip lemmas assume it is `Pristine`: IPsec off, PFS on, all entries empty. The loader can only move the toggles away from those defaults.

## Model

| member | source | states |
|---|---|---|
| `KeyFilter.CopyValues` | properties/ipsec-dialog.c:64-75 | the callback walks the whole key table; the pair is inserted exactly when the key is one of the nine IPsec keys, and the map is otherwise unchanged |
| `KeyFilter.NewHashFromConnection` | properties/ipsec-dialog.c:77-89 | the fresh map contains a key exactly when the data items contain it and it is an IPsec key, with the value copied unchanged, whatever order the items are visited in |
| `KeyFilter.SubsetAgrees` | properties/ipsec-dialog.c:51-75 | on each of the nine keys the filtered map agrees with the input: same presence, same value |
| `Widgets.SetAll` | properties/ipsec-dialog.c:124-169 | reference for the enable rule: the named widgets get the given sensitivity, every other widget keeps its own, and no widget disappears |
| `Widgets.EnableSteps` | properties/ipsec-dialog.c:126-169 | the handler's fifteen assignments in order: each of the fifteen dependents takes the toggle state, every other widget keeps its own |
| `Widgets.EnableHandlerSteps` | properties/ipsec-dialog.c:124-169 | the fifteen sequential assignments have exactly the effect of the reference rule |
| `Widgets.AuthSensitivity` | properties/ipsec-dialog.c:99-115 | afterwards both group widgets exist, the RSA group is sensitive iff the index is 1 (index 0, -1 and any other index fall to the PSK case), exactly one group is sensitive, and every other widget is unchanged |
| `Widgets.GroupsNotDependents` | properties/ipsec-dialog.c:124-169 | the two auth groups are not among the fifteen widgets the enable handler sets |
| `Widgets.HandlersEstablishConsistency` | properties/ipsec-dialog.c:95-170 | running both handlers, in either order, leaves exactly the selected group sensitive and every dependent's sensitivity equal to the enable toggle |
| `Widgets.HandlersCommute` | properties/ipsec-dialog.c:95-170 | the auth and enable handlers are independent: running them in either order gives the same sensitivity map |
| `Widgets.AuthHandlerKeepsEnablePart` | properties/ipsec-dialog.c:99-115 | on a consistent tree, re-running the auth handler for a new selection restores consistency without disturbing the enable dependents |
| `Widgets.EnableHandlerKeepsAuthPart` | properties/ipsec-dialog.c:124-169 | on a consistent tree, re-running the enable handler for a new toggle state restores consistency without disturbing the auth groups |
| `FormModel.ComboIndexFor` | properties/ipsec-dialog.c:178-208 | the selected row is always 0 or 1, and it is 1 (RSA) iff the auth-type value is exactly "rsa"; absent, "psk" or any other value gives 0 (PSK) |
| `FormModel.ExtractMap` | properties/ipsec-dialog.c:342-387 | the keys are exactly the six text keys and the auth type, plus the enable key iff the toggle is on and the PFS key iff PFS is off; enable is "yes", PFS is "no", the auth type is "rsa" iff the row is 1 and "psk" otherwise (-1 included), and each text key carries its entry's text, empty or not |
| `FormModel.LoadFields` | properties/ipsec-dialog.c:276-312 | the four load rules: RSA row iff "rsa", the enable toggle goes on only for "yes", PFS goes off only for "no", a present key overwrites its entry; every field the rules do not touch keeps its initial state |
| `FormModel.LoadConsistent` | properties/ipsec-dialog.c:314-320 | after loading, whatever the initial sensitivities, exactly the selected auth group is sensitive and the fifteen dependents follow the enable toggle |
| `FormModel.RoundTrip` | properties/ipsec-dialog.c:276-387 | from the pristine tree, extract after load is the normal form of the input map: each text key with its value or "", the auth type normalised to "rsa"/"psk", enable present iff it was "yes", PFS present iff it was "no" |
| `FormModel.NormalizeIdempotent` | properties/ipsec-dialog.c:342-387 | the normal form of a normal form is itself |
| `FormModel.LoadExtractIdempotent` | properties/ipsec-dialog.c:276-387 | load-then-extract is idempotent, even when the two loads start from different pristine trees |
| `FormModel.ExtractThenLoad` | properties/ipsec-dialog.c:276-387 | loading an extracted map into a pristine tree restores both toggles and all six entries; the combo comes back as row 1 if it was row 1 and row 0 otherwise |
| `FormModel.FilterBeforeLoad` | properties/ipsec-dialog.c:77-89 | keys that are not IPsec settings never reach the form: load-then-extract of the filtered map equals that of the whole map |
| `IpsecDialog.Dialog.constructor` | properties/ipsec-dialog.c:254-266 | the widget tree starts in the state the resource file declares |
| `IpsecDialog.Dialog.SetupAuthTypeCombo` | properties/ipsec-dialog.c:172-227 | the combo row becomes the one chosen for the map and the two groups are switched for it; nothing else changes |
| `IpsecDialog.Dialog.OnAuthChanged` | properties/ipsec-dialog.c:94-116 | only the two group sensitivities change: the RSA group is sensitive iff the row is 1, exactly one group is sensitive, and every other widget, toggle, row and text is unchanged |
| `IpsecDialog.Dialog.OnEnableToggled` | properties/ipsec-dialog.c:118-170 | each of the fifteen dependents becomes sensitive iff the enable toggle is on; the auth groups, other widgets, toggles, row and texts are unchanged |
| `IpsecDialog.Dialog.LoadToggles` | properties/ipsec-dialog.c:278-288 | the enable toggle is set on only for "yes", PFS set off only for "no", and nothing else changes |
| `IpsecDialog.Dialog.LoadEntries` | properties/ipsec-dialog.c:290-312 | each entry whose key is present takes the key's value, the others keep their text, and nothing else changes |
| `IpsecDialog.Dialog.Load` | properties/ipsec-dialog.c:276-320 | the new widget state is the load function applied to the old state and the map |
| `IpsecDialog.Dialog.Extract` | properties/ipsec-dialog.c:327-388 | returns exactly the extraction function of the current widget state and changes nothing |
| `IpsecDialog.NewDialog` | properties/ipsec-dialog.c:241-325 | no dialog iff the resource file cannot be loaded or lacks the dialog object; otherwise a fresh dialog holding the loaded state, with exactly the selected group sensitive and the dependents following the enable toggle |

## Left out

- Resource loading: `gtk_builder_add_from_file` on the resource path, the missing-dialog-object check, the warning and the builder release are a `UiFile` parameter (`Unreadable`, `NoDialogObject`, `Loaded(widgets)`). Modal-window setup and the translation domain are not modelled, because they are toolkit calls with no effect on the data.
- Signal wiring: `auth_toggled_cb`, `enable_toggled_cb` and the two `g_signal_connect` calls are not modelled. Callers invoke `OnAuthChanged` and `OnEnableToggled` directly. User edits to the widgets (typing, choosing a row, clicking a toggle) are not modelled.
- `g_object_set_data_full` attaching the builder to the dialog is not modelled: the widget state is the dialog's own fields.
- The unused `is_init` parameter of both handlers is dropped.
- `NMConnection` and `nm_setting_vpn_foreach_data_item` are a foreign API. The VPN data items are an input map, visited in an arbitrary order.
- The `g_return_val_if_fail` null checks, the `GError` argument checks and the `GError` out-parameters are not modelled, because Dafny values cannot be null and these functions never set an error.
- The list store behind the combo, its gettext labels and all `g_strdup`/`g_free`/unref memory management are not modelled, because they do not affect the data.
- Sensitivity is the `sensitive` property each call sets. GTK's effective sensitivity, which also depends on parent containers such as the two auth groups, is not modelled.
- The literal values of the `NM_L2TP_KEY_IPSEC_*` constants come from a header that is not part of this model; the key names above stand in for them.
- Text entries are assumed to store the text given to `gtk_entry_set_text` unchanged and to return it from `gtk_entry_get_text`; properties the resource file may give them (a maximum length, say) are not modelled, and `RoundTrip` and `ExtractThenLoad` depend on this.

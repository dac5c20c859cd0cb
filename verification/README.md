# Jetpack CRM Editor Access — a Dafny model

The plugin `Jetpack_CRM_Editor_Access` keeps two role systems in step. Users holding one of
the CRM add-on's four administrator aliases (`zerobs_admin`, `jetpack_crm_admin`,
`crm_admin`, `zerobscrm_admin`) are given the WordPress `editor` role. This happens when
they log in, when their roles are replaced or extended, on every admin page load, and in a
sweep when the plugin is activated. Deactivation can optionally take `editor` away from
the same users. A settings form stores two flags:

- `jetpack_crm_editor_access_auto_grant`, which gates the login, role-change, role-addition
  and admin-init hooks (the activation sweep does not read it);
- `jetpack_crm_editor_access_remove_on_deactivate`, which gates the removal sweep.

The model abstracts the WordPress host into one immutable `State` with three parts:

- `users`: a finite map from user id to role set. `add_role`/`remove_role` become set
  insert/delete, and `get_users(role__in)` becomes a filter over the map.
- `options`: a string-keyed option store. `get_option` reads with a default,
  `add_option` writes only when the key is absent, and `update_option` overwrites.
- `granted`: the log of `jetpack_crm_editor_access_granted` notifications.

Each hook is a pure transition on this state. The two sweeps are methods whose loops
follow the plugin's `foreach`. Privilege checks (`current_user_can`) and the nonce verdict
(`wp_verify_nonce`) are boolean inputs. The two `wp_die` aborts of the settings handler
become `FormOutcome` values that leave the state unchanged.

Files:

- `options.dfy` (module `OptionStore`): the option store.
- `roles.dfy` (module `Roles`): the role constants and the CRM-administrator test on a role set.
- `editor_access.dfy` (module `EditorAccess`): the state, grant, hooks, sweeps and settings form.
- `editor_access_lemmas.dfy` (module `EditorAccessLemmas`): properties relating several operations.

Two facts about the code are worth stating:

- Activation never removes `editor`, so a non-CRM user who already held it keeps it
  (`EditorAccessLemmas.ActivationKeepsOtherEditors`).
- The settings handler issues two separate `update_option` calls (lines 405-406). With no
  concurrency in the model, they form one transition.

## Model

| member | source | states |
|---|---|---|
| Roles.HoldsCrmAdminRole | jetpack-crm-editor-access.php:52-57 | a role set intersects the alias array exactly when it contains one of the four literal alias names |
| Roles.EditorDoesNotAffectMembership | jetpack-crm-editor-access.php:52-57 | `editor` is not an alias, so adding or removing it never changes whether a user is a CRM administrator |
| EditorAccess.UserHasCrmAdminRole | jetpack-crm-editor-access.php:228-234 | true exactly when the reference is a stored user whose roles contain one of the four aliases; false for an invalid user |
| EditorAccess.GrantEditorCapabilities | jetpack-crm-editor-access.php:243-265 | success exactly for a valid user; an invalid user changes nothing; a valid user ends holding `editor` with everyone else, the options and the log unchanged, and one notification is appended only if `editor` was new; an existing editor leaves the state untouched |
| EditorAccess.AutoGrantEnabled | jetpack-crm-editor-access.php:273-275 | enabled exactly when the option is absent or stored as the string "1" |
| EditorAccess.RemoveOnDeactivateEnabled | jetpack-crm-editor-access.php:139-140 | enabled exactly when the option is present and stored as "1" (missing reads as "0") |
| EditorAccess.HandleUserLogin | jetpack-crm-editor-access.php:152-160 | auto-grant off or a non-CRM user: no change; otherwise `editor` is added to that user alone, with a notification only when new |
| EditorAccess.HandleRoleChange | jetpack-crm-editor-access.php:170-183 | decided from the user's current stored roles: an unknown id, a non-CRM user or auto-grant off changes nothing; otherwise `editor` is added to that user alone |
| EditorAccess.HandleRoleAddition | jetpack-crm-editor-access.php:192-203 | changes something only when auto-grant is on, the added role string is an alias and the id resolves; then `editor` is added to that user alone |
| EditorAccess.CheckCurrentUserAccess | jetpack-crm-editor-access.php:210-219 | auto-grant off, an anonymous request (id 0, no roles), or a current user id that is not stored or holds no alias: no change; otherwise `editor` is added to that user alone |
| EditorAccess.GrantEditorAccessToExistingCrmAdmins | jetpack-crm-editor-access.php:282-293 | the resulting user store equals the reference store where exactly the CRM administrators gained `editor`; options unchanged; the log only grows, by one notification for each CRM administrator that lacked `editor` |
| EditorAccess.RemoveEditorAccessFromCrmUsers | jetpack-crm-editor-access.php:300-313 | the resulting user store equals the reference store where exactly the CRM administrators lost `editor`; options and log unchanged |
| EditorAccess.Activate | jetpack-crm-editor-access.php:114-125 | without the privilege nothing changes; otherwise, whatever the auto-grant option says, every CRM administrator holds `editor`, non-CRM users are unchanged, the auto-grant option is written only if absent (so whether it reads as enabled is unchanged), and one notification is appended per CRM administrator that lacked `editor` |
| EditorAccess.Deactivate | jetpack-crm-editor-access.php:132-143 | options and log are never written; without the privilege or with the removal flag not "1" nothing changes; otherwise every CRM administrator loses `editor` and the other users are unchanged |
| EditorAccess.HandleSettingsForm | jetpack-crm-editor-access.php:393-410 | no `manage_options`: permission abort; a failing nonce: security abort; an abort writes nothing; a save sets each option to "1" if its checkbox is present and "0" otherwise, keeping the other options and all roles |
| EditorAccessLemmas.GrantIsIdempotent | jetpack-crm-editor-access.php:249-251 | granting twice gives the same verdict, roles and notification log as granting once |
| EditorAccessLemmas.EditorAddedPreservesCovers | jetpack-crm-editor-access.php:243-265 | a grant never breaks the invariant that every CRM administrator holds `editor` |
| EditorAccessLemmas.AutoGrantOffMakesHandlersInert | jetpack-crm-editor-access.php:152-219 | with auto-grant off, none of the login, role-change, role-addition or admin-init hooks changes the state |
| EditorAccessLemmas.HandlersPreserveCovers | jetpack-crm-editor-access.php:152-219 | if every CRM administrator held `editor` before a hook, they all still do after it |
| EditorAccessLemmas.LoginCoversCrmAdmin | jetpack-crm-editor-access.php:152-160 | with auto-grant on, a logging-in CRM administrator holds `editor` afterwards |
| EditorAccessLemmas.RoleChangeIgnoresPayload | jetpack-crm-editor-access.php:170-183 | the role-change hook's result does not depend on the new role or the previous roles, and equals the login hook on the resolved user |
| EditorAccessLemmas.RoleAdditionTrustsPayload | jetpack-crm-editor-access.php:192-203 | for every stored user whose roles hold no alias, with auto-grant on: a role-addition event naming an alias gives the user `editor`, while a role-change event naming the same alias changes nothing |
| EditorAccessLemmas.EditorAdditionReentryIsInert | jetpack-crm-editor-access.php:197 | the role-addition hook fired for `editor` itself, as adding `editor` does, changes nothing |
| EditorAccessLemmas.ActivationCovers | jetpack-crm-editor-access.php:282-293 | after the activation sweep every CRM administrator holds `editor` |
| EditorAccessLemmas.ActivationIsIdempotent | jetpack-crm-editor-access.php:282-293 | running the activation sweep twice gives the same user store as once |
| EditorAccessLemmas.RevokeThenGrant | jetpack-crm-editor-access.php:282-313 | removal followed by activation gives the same user store as activation alone |
| EditorAccessLemmas.GrantThenRevoke | jetpack-crm-editor-access.php:282-313 | activation followed by removal gives the same user store as removal alone |
| EditorAccessLemmas.ActivationKeepsOtherEditors | jetpack-crm-editor-access.php:282-293 | a non-CRM user who already held `editor` keeps it through activation, while a CRM administrator gains it |
| EditorAccessLemmas.ActivationKeepsAutoGrantVerdict | jetpack-crm-editor-access.php:124 | activation's `add_option` leaves the option present and never changes whether auto-grant reads as enabled |
| EditorAccessLemmas.SettingsRoundTrip | jetpack-crm-editor-access.php:402-406 | after a save, auto-grant reads as enabled exactly when its checkbox was submitted, and likewise the removal flag |
| EditorAccessLemmas.RejectedFormWritesNothing | jetpack-crm-editor-access.php:393-400 | without the privilege or with a failing nonce the state is unchanged, whatever was submitted |
| EditorAccessLemmas.UntickedAutoGrantSilencesHandlers | jetpack-crm-editor-access.php:402-405 | after a save without the auto-grant checkbox, all four hooks leave the state unchanged |
| EditorAccessLemmas.LoginGrantsExample | jetpack-crm-editor-access.php:152-160 | a `{subscriber, zerobscrm_admin}` user logging in ends with `{subscriber, zerobscrm_admin, editor}` and exactly one notification |
| EditorAccessLemmas.LoginAlreadyEditorExample | jetpack-crm-editor-access.php:249-251 | an `{editor, crm_admin}` user logging in is left unchanged, and the grant reports success |

## Left out

- Settings page rendering, the admin menu and text-domain loading (lines 88-90, 320-386): presentation only.
- Hook registration, the singleton accessor, the direct-access guard and the plugin constants (lines 20-29, 65-81, 92-106, 414): host wiring. Each hook is modelled as a direct transition instead.
- `current_user_can` and `wp_verify_nonce`: host lookups and cryptography, taken as boolean inputs. A missing nonce field reads as a failing nonce.
- `wp_die`, `wp_safe_redirect` and `exit`: request termination and HTTP. They become a `FormOutcome` with no state change on abort.
- WordPress internals behind `add_role`, `remove_role`, `get_users`, `get_user_by`, `wp_get_current_user` and the option API: abstracted as map and set operations. The `add_user_role` hook that `add_role` fires again is not traced through the host; `EditorAdditionReentryIsInert` only shows that this re-entry would change nothing.
- User objects are identified by a positive id, and their roles are read from the store. A stale user object whose roles differ from the store is not modelled. The anonymous visitor (id 0) appears only as the admin-init hook's input, where it has no roles.
- EditorAccess.GrantEditorCapabilities: a user reference whose id is not stored counts as invalid, returning failure with no change. In the code, a user object for an unstored id passes the `instanceof` test (line 244), so `add_role` runs, the notification fires and the result is true. No caller reaches that input: every call site passes a user that `get_user_by` or `get_users` returned, or one that already passed the membership test.
- Concurrent requests: the plugin does not guard against them.
- EditorAccess.GrantEditorAccessToExistingCrmAdmins: pins down which notifications are appended, as a multiset, but not their order. The host's `get_users` order (by login) is not modelled, and each loop step picks any pending user.
- EditorAccess.Activate: states the same order-free notification guarantee, for the same reason.

/** The plugin's role-synchronisation logic over an abstract host: the user store (user id
    to role set), the option store and the log of "editor access granted" notifications.
    Every hook the plugin registers is a pure transition on that state. */
module EditorAccess {

  import opened Roles
  import opened OptionStore

  /** WordPress user ids are positive; id 0 is the anonymous visitor, never a stored user. */
  type UserId = x: nat | x > 0 witness 1

  const AutoGrantKey: string := "jetpack_crm_editor_access_auto_grant"
  const RemoveOnDeactivateKey: string := "jetpack_crm_editor_access_remove_on_deactivate"

  /** Names of the two checkboxes of the settings form. */
  const AutoGrantField: string := "auto_grant"
  const RemoveOnDeactivateField: string := "remove_on_deactivate"

  /** `users`: the host's user store; `options`: its option store; `granted`: the users
      for whom the `jetpack_crm_editor_access_granted` action fired, oldest first. */
  datatype State = State(users: map<UserId, set<Role>>, options: Options, granted: seq<UserId>)

  /** A user argument as a hook receives it: a user object, or a falsy / non-user value. */
  datatype UserRef = NotAUser | UserObject(id: UserId)

  /** The reference denotes a user of the store. */
  predicate Resolves(st: State, u: UserRef)
  {
    u.UserObject? && u.id in st.users
  }

  /** `get_user_by('id', id)`. */
  function GetUserById(st: State, id: UserId): (u: UserRef)
    ensures u.UserObject? <==> id in st.users
    ensures u.UserObject? ==> u.id == id
  {
    if id in st.users then UserObject(id) else NotAUser
  }

  // ---------------------------------------------------------------------------
  // Membership and grant

  /** `user_has_crm_admin_role`: false for an invalid user, otherwise whether the user's
      roles intersect the CRM-administrator aliases. */
  function UserHasCrmAdminRole(st: State, u: UserRef): (b: bool)
    ensures b <==> Resolves(st, u)
                   && var roles := st.users[u.id];
                      ("zerobs_admin" in roles || "jetpack_crm_admin" in roles
                       || "crm_admin" in roles || "zerobscrm_admin" in roles)
  {
    Resolves(st, u) && HoldsCrmAdminRole(st.users[u.id])
  }

  /** `st'` is `st` after user `id` was made to hold the editor role: the user's roles gain
      exactly `editor`, nobody else's roles and no option change, and one granted
      notification for `id` is appended exactly when the role is new to the user. */
  ghost predicate EditorAdded(st: State, st': State, id: UserId)
    requires id in st.users
  {
    && st'.users.Keys == st.users.Keys
    && st'.users[id] == st.users[id] + {Editor}
    && (forall other :: other in st.users && other != id ==> st'.users[other] == st.users[other])
    && st'.options == st.options
    && st'.granted == st.granted + (if Editor in st.users[id] then [] else [id])
  }

  datatype GrantResult = GrantResult(ok: bool, state: State)

  /** `grant_editor_capabilities`: reports failure and changes nothing for an invalid user;
      otherwise adds the editor role, notifying only when the role was not yet held, and
      reports success. */
  function GrantEditorCapabilities(st: State, u: UserRef): (r: GrantResult)
    ensures r.ok <==> Resolves(st, u)
    ensures !Resolves(st, u) ==> r.state == st
    ensures Resolves(st, u) ==> EditorAdded(st, r.state, u.id)
    ensures Resolves(st, u) && Editor in st.users[u.id] ==> r.state == st
  {
    if !Resolves(st, u) then GrantResult(false, st)
    else if Editor in st.users[u.id] then GrantResult(true, st)
    else
      var st' := st.(users := st.users[u.id := st.users[u.id] + {Editor}], granted := st.granted + [u.id]);
      GrantResult(true, st')
  }

  // ---------------------------------------------------------------------------
  // Options read by the handlers

  /** `is_auto_grant_enabled`: only the stored string "1" enables; a missing option reads as "1". */
  function AutoGrantEnabled(opts: Options): (b: bool)
    ensures b <==> AutoGrantKey !in opts || opts[AutoGrantKey] == "1"
  {
    Get(opts, AutoGrantKey, "1") == "1"
  }

  /** The removal flag read by deactivation: only the stored string "1" enables; a missing
      option reads as "0". */
  function RemoveOnDeactivateEnabled(opts: Options): (b: bool)
    ensures b <==> RemoveOnDeactivateKey in opts && opts[RemoveOnDeactivateKey] == "1"
  {
    Get(opts, RemoveOnDeactivateKey, "0") == "1"
  }

  // ---------------------------------------------------------------------------
  // Event handlers

  /** `handle_user_login`: with auto-grant on, a logging-in CRM administrator is granted editor. */
  function HandleUserLogin(st: State, user: UserRef): (st': State)
    ensures !AutoGrantEnabled(st.options) ==> st' == st
    ensures !UserHasCrmAdminRole(st, user) ==> st' == st
    ensures AutoGrantEnabled(st.options) && UserHasCrmAdminRole(st, user) ==> EditorAdded(st, st', user.id)
  {
    if !AutoGrantEnabled(st.options) then st
    else if UserHasCrmAdminRole(st, user) then GrantEditorCapabilities(st, user).state
    else st
  }

  /** `handle_role_change` (the `set_user_role` hook, fired after the user's roles were
      replaced): the new role and the previous roles are ignored; the decision is taken
      from the user's current roles. */
  function HandleRoleChange(st: State, userId: UserId, role: Role, oldRoles: seq<Role>): (st': State)
    ensures !AutoGrantEnabled(st.options) ==> st' == st
    ensures AutoGrantEnabled(st.options) && userId in st.users && HoldsCrmAdminRole(st.users[userId])
            ==> EditorAdded(st, st', userId)
    ensures userId !in st.users || !HoldsCrmAdminRole(st.users[userId]) ==> st' == st
  {
    if !AutoGrantEnabled(st.options) then st
    else
      var user := GetUserById(st, userId);
      if user.NotAUser? then st
      else if UserHasCrmAdminRole(st, user) then GrantEditorCapabilities(st, user).state
      else st
  }

  /** `handle_role_addition` (the `add_user_role` hook): grants when the added role string
      is itself a CRM-administrator alias and the id resolves; the user's current roles
      are not consulted. */
  function HandleRoleAddition(st: State, userId: UserId, role: Role): (st': State)
    ensures !AutoGrantEnabled(st.options) ==> st' == st
    ensures role !in CrmAdminRoles || userId !in st.users ==> st' == st
    ensures AutoGrantEnabled(st.options) && role in CrmAdminRoles && userId in st.users
            ==> EditorAdded(st, st', userId)
  {
    if !AutoGrantEnabled(st.options) then st
    else if role in CrmAdminRoles then
      var user := GetUserById(st, userId);
      if user.UserObject? then GrantEditorCapabilities(st, user).state else st
    else st
  }

  /** `check_current_user_access` (the `admin_init` hook): with auto-grant on, the current
      user is granted editor when a CRM administrator. The host always supplies a user
      object for the current request; for an anonymous request its id is 0 and its role
      set is empty, so it is never a CRM administrator. */
  function CheckCurrentUserAccess(st: State, currentUserId: nat): (st': State)
    ensures !AutoGrantEnabled(st.options) ==> st' == st
    ensures currentUserId == 0 ==> st' == st
    ensures currentUserId > 0 && (currentUserId !in st.users || !HoldsCrmAdminRole(st.users[currentUserId])) ==> st' == st
    ensures AutoGrantEnabled(st.options) && currentUserId > 0 && currentUserId in st.users
            && HoldsCrmAdminRole(st.users[currentUserId])
            ==> EditorAdded(st, st', currentUserId)
  {
    if !AutoGrantEnabled(st.options) then st
    else if currentUserId == 0 then st
    else
      var currentUser := UserObject(currentUserId);
      if UserHasCrmAdminRole(st, currentUser) then GrantEditorCapabilities(st, currentUser).state
      else st
  }

  // ---------------------------------------------------------------------------
  // Activation and deactivation sweeps

  /** `get_users(['role__in' => roles])`: the stored users holding at least one of `roles`. */
  function GetUsers(users: map<UserId, set<Role>>, roleIn: set<Role>): set<UserId>
  {
    set id | id in users && roleIn * users[id] != {}
  }

  /** Every CRM administrator holds the editor role. */
  ghost predicate Covers(users: map<UserId, set<Role>>)
  {
    forall id :: id in users && HoldsCrmAdminRole(users[id]) ==> Editor in users[id]
  }

  /** Reference definition of the user store after the activation sweep. */
  ghost function CrmAdminsGranted(users: map<UserId, set<Role>>): map<UserId, set<Role>>
  {
    map id | id in users :: if HoldsCrmAdminRole(users[id]) then users[id] + {Editor} else users[id]
  }

  /** The user store with `editor` removed from the users in `done`. */
  ghost function WithoutEditor(users: map<UserId, set<Role>>, done: set<UserId>): map<UserId, set<Role>>
  {
    map id | id in users :: if id in done then users[id] - {Editor} else users[id]
  }

  /** Reference definition of the user store after the removal sweep. */
  ghost function CrmAdminsRevoked(users: map<UserId, set<Role>>): map<UserId, set<Role>>
  {
    map id | id in users :: if HoldsCrmAdminRole(users[id]) then users[id] - {Editor} else users[id]
  }

  /** The CRM administrators that do not yet hold the editor role. */
  ghost function LackingEditor(users: map<UserId, set<Role>>): set<UserId>
  {
    set id | id in users && HoldsCrmAdminRole(users[id]) && Editor !in users[id]
  }

  /** `st'.granted` extends `st.granted`. */
  ghost predicate LogExtends(st: State, st': State)
  {
    |st.granted| <= |st'.granted| && st'.granted[..|st.granted|] == st.granted
  }

  /** `grant_editor_access_to_existing_crm_admins`: grants every user the role query
      returns. The host's iteration order is not modelled: each step picks any pending user. */
  method GrantEditorAccessToExistingCrmAdmins(st: State) returns (st': State)
    ensures st'.users == CrmAdminsGranted(st.users)
    ensures st'.options == st.options
    ensures LogExtends(st, st')
    ensures multiset(st'.granted[|st.granted|..]) == multiset(LackingEditor(st.users))
  {
    var admins := GetUsers(st.users, CrmAdminRoles);
    var pending := admins;
    st' := st;
    GrantSweepStart(st, admins);
    while pending != {}
      invariant GrantSweepInvariant(st, st', admins, pending)
      decreases pending
    {
      var id :| id in pending;
      ghost var before := st';
      st' := GrantEditorCapabilities(st', UserObject(id)).state;
      GrantSweepStep(st, before, st', admins, pending, id);
      pending := pending - {id};
    }
    GrantSweepDone(st, st', admins);
  }

  /** The invariant of the activation sweep after the users outside `pending` were granted. */
  ghost predicate GrantSweepInvariant(st: State, st': State, admins: set<UserId>, pending: set<UserId>)
  {
    && pending <= admins
    && st'.users == WithEditor(st.users, admins - pending)
    && st'.options == st.options
    && LogExtends(st, st')
    && multiset(st'.granted[|st.granted|..]) == multiset(LackingEditor(st.users) - pending)
  }

  /** One grant of the activation sweep keeps its invariant with one user fewer pending. */
  lemma GrantSweepStep(st: State, before: State, after: State, admins: set<UserId>, pending: set<UserId>, id: UserId)
    requires admins == GetUsers(st.users, CrmAdminRoles)
    requires GrantSweepInvariant(st, before, admins, pending)
    requires id in pending
    requires after == GrantEditorCapabilities(before, UserObject(id)).state
    ensures GrantSweepInvariant(st, after, admins, pending - {id})
  {
    assert before.users[id] == st.users[id];
    assert after.users == before.users[id := st.users[id] + {Editor}];
    WithEditorStep(st.users, admins - pending, id);
    assert (admins - pending) + {id} == admins - (pending - {id});
    LogAppend(st, before, after, if Editor in st.users[id] then [] else [id]);
    PendingStep(LackingEditor(st.users), pending, id);
    assert id in LackingEditor(st.users) <==> Editor !in st.users[id];
  }

  /** Starting the activation sweep: nothing processed yet. */
  lemma GrantSweepStart(st: State, admins: set<UserId>)
    requires admins == GetUsers(st.users, CrmAdminRoles)
    ensures GrantSweepInvariant(st, st, admins, admins)
  {
  }

  /** Finishing the activation sweep: every queried user processed. */
  lemma GrantSweepDone(st: State, st': State, admins: set<UserId>)
    requires admins == GetUsers(st.users, CrmAdminRoles)
    requires GrantSweepInvariant(st, st', admins, {})
    ensures st'.users == CrmAdminsGranted(st.users)
    ensures st'.options == st.options
    ensures LogExtends(st, st')
    ensures multiset(st'.granted[|st.granted|..]) == multiset(LackingEditor(st.users))
  {
    CrmAdminsAreQueried(st.users);
  }

  /** The user store with `editor` added to the users in `done`. */
  ghost function WithEditor(users: map<UserId, set<Role>>, done: set<UserId>): map<UserId, set<Role>>
  {
    map id | id in users :: if id in done then users[id] + {Editor} else users[id]
  }

  /** Granting one more not-yet-processed user extends `done` by that user. */
  lemma WithEditorStep(users: map<UserId, set<Role>>, done: set<UserId>, x: UserId)
    requires x in users && x !in done
    ensures WithEditor(users, done + {x}) == WithEditor(users, done)[x := users[x] + {Editor}]
  {
  }

  /** Revoking from one more not-yet-processed user extends `done` by that user. */
  lemma WithoutEditorStep(users: map<UserId, set<Role>>, done: set<UserId>, x: UserId)
    requires x in users && x !in done
    ensures WithoutEditor(users, done + {x}) == WithoutEditor(users, done)[x := users[x] - {Editor}]
  {
  }

  /** The role query over the CRM-administrator aliases returns exactly the users the
      membership test accepts, so processing all of them yields the reference stores. */
  lemma CrmAdminsAreQueried(users: map<UserId, set<Role>>)
    ensures WithEditor(users, GetUsers(users, CrmAdminRoles)) == CrmAdminsGranted(users)
    ensures WithoutEditor(users, GetUsers(users, CrmAdminRoles)) == CrmAdminsRevoked(users)
  {
  }

  /** Appending to a log that extends `st.granted` keeps it an extension, and the new
      entries since `st` grow by exactly the appended ones. */
  lemma LogAppend(st: State, s1: State, s2: State, extra: seq<UserId>)
    requires LogExtends(st, s1)
    requires s2.granted == s1.granted + extra
    ensures LogExtends(st, s2)
    ensures s2.granted[|st.granted|..] == s1.granted[|st.granted|..] + extra
  {
    assert s2.granted[..|st.granted|] == s1.granted[..|st.granted|];
  }

  /** Moving `x` out of the pending set adds `x` to the processed part of `a` exactly when
      `x` belongs to `a`. */
  lemma PendingStep(a: set<UserId>, pending: set<UserId>, x: UserId)
    requires x in pending
    ensures multiset(a - (pending - {x})) == multiset(a - pending) + (if x in a then multiset{x} else multiset{})
  {
    if x in a {
      assert a - (pending - {x}) == (a - pending) + {x};
    } else {
      assert a - (pending - {x}) == a - pending;
    }
  }

  /** `remove_editor_access_from_crm_users`: takes the editor role from every user the role
      query returns that holds it. */
  method RemoveEditorAccessFromCrmUsers(st: State) returns (st': State)
    ensures st'.users == CrmAdminsRevoked(st.users)
    ensures st'.options == st.options
    ensures st'.granted == st.granted
  {
    var admins := GetUsers(st.users, CrmAdminRoles);
    var pending := admins;
    st' := st;
    while pending != {}
      invariant pending <= admins
      invariant st'.users == WithoutEditor(st.users, admins - pending)
      invariant st'.options == st.options
      invariant st'.granted == st.granted
      decreases pending
    {
      var id :| id in pending;
      assert st'.users[id] == st.users[id];
      if Editor in st'.users[id] {
        st' := st'.(users := st'.users[id := st'.users[id] - {Editor}]);
      } else {
        assert st.users[id] - {Editor} == st.users[id];
        assert st'.users == st'.users[id := st.users[id] - {Editor}];
      }
      WithoutEditorStep(st.users, admins - pending, id);
      assert (admins - pending) + {id} == admins - (pending - {id});
      pending := pending - {id};
    }
    CrmAdminsAreQueried(st.users);
  }

  /** `activate`: without the `activate_plugins` privilege nothing happens; otherwise every
      CRM administrator is granted editor, other users are untouched, and the auto-grant
      option is set to "1" only when it was absent. */
  method Activate(st: State, canActivatePlugins: bool) returns (st': State)
    ensures !canActivatePlugins ==> st' == st
    ensures canActivatePlugins ==> st'.users.Keys == st.users.Keys && Covers(st'.users)
    ensures canActivatePlugins ==>
              forall id :: id in st.users && HoldsCrmAdminRole(st.users[id]) ==> st'.users[id] == st.users[id] + {Editor}
    ensures canActivatePlugins ==>
              forall id :: id in st.users && !HoldsCrmAdminRole(st.users[id]) ==> st'.users[id] == st.users[id]
    ensures canActivatePlugins ==> st'.options == Add(st.options, AutoGrantKey, "1")
    ensures canActivatePlugins ==> AutoGrantEnabled(st'.options) == AutoGrantEnabled(st.options)
    ensures canActivatePlugins ==> LogExtends(st, st')
                                   && multiset(st'.granted[|st.granted|..]) == multiset(LackingEditor(st.users))
  {
    if !canActivatePlugins {
      return st;
    }
    st' := GrantEditorAccessToExistingCrmAdmins(st);
    forall id | id in st'.users && HoldsCrmAdminRole(st'.users[id])
      ensures Editor in st'.users[id]
    {
      EditorDoesNotAffectMembership(st.users[id]);
    }
    st' := st'.(options := Add(st'.options, AutoGrantKey, "1"));
  }

  /** `deactivate`: without the privilege, or unless the removal option is "1", nothing
      happens; otherwise every CRM administrator loses editor (whoever granted it) and other
      users are untouched. No option is written. */
  method Deactivate(st: State, canActivatePlugins: bool) returns (st': State)
    ensures st'.options == st.options
    ensures st'.granted == st.granted
    ensures !canActivatePlugins || !RemoveOnDeactivateEnabled(st.options) ==> st' == st
    ensures canActivatePlugins && RemoveOnDeactivateEnabled(st.options) ==>
              && st'.users.Keys == st.users.Keys
              && (forall id :: id in st.users && HoldsCrmAdminRole(st.users[id]) ==> st'.users[id] == st.users[id] - {Editor})
              && (forall id :: id in st.users && !HoldsCrmAdminRole(st.users[id]) ==> st'.users[id] == st.users[id])
  {
    if !canActivatePlugins {
      return st;
    }
    if RemoveOnDeactivateEnabled(st.options) {
      st' := RemoveEditorAccessFromCrmUsers(st);
    } else {
      st' := st;
    }
  }

  // ---------------------------------------------------------------------------
  // Settings form

  /** How a settings submission ends: one of the two `wp_die` aborts, or a redirect after saving. */
  datatype FormOutcome = PermissionDenied | SecurityCheckFailed | SavedAndRedirected

  datatype FormReply = FormReply(outcome: FormOutcome, state: State)

  /** `handle_settings_form`: without `manage_options` or with a failing nonce the request
      aborts and nothing is written; otherwise each option becomes "1" when its checkbox is
      in the submission and "0" when it is not. The privilege and nonce verdicts are inputs;
      `post` is the submitted form. */
  function HandleSettingsForm(st: State, canManageOptions: bool, nonceValid: bool, post: map<string, string>): (r: FormReply)
    ensures !canManageOptions ==> r.outcome == PermissionDenied
    ensures canManageOptions && !nonceValid ==> r.outcome == SecurityCheckFailed
    ensures r.outcome != SavedAndRedirected ==> r.state == st
    ensures r.state.users == st.users && r.state.granted == st.granted
    ensures r.outcome == SavedAndRedirected <==> canManageOptions && nonceValid
    ensures r.outcome == SavedAndRedirected ==>
              && r.state.options.Keys == st.options.Keys + {AutoGrantKey, RemoveOnDeactivateKey}
              && r.state.options[AutoGrantKey] == (if AutoGrantField in post then "1" else "0")
              && r.state.options[RemoveOnDeactivateKey] == (if RemoveOnDeactivateField in post then "1" else "0")
              && (forall k :: k in st.options && k != AutoGrantKey && k != RemoveOnDeactivateKey
                              ==> r.state.options[k] == st.options[k])
  {
    if !canManageOptions then FormReply(PermissionDenied, st)
    else if !nonceValid then FormReply(SecurityCheckFailed, st)
    else
      var autoGrant := if AutoGrantField in post then "1" else "0";
      var removeOnDeactivate := if RemoveOnDeactivateField in post then "1" else "0";
      var opts := Update(st.options, AutoGrantKey, autoGrant);
      var opts' := Update(opts, RemoveOnDeactivateKey, removeOnDeactivate);
      FormReply(SavedAndRedirected, st.(options := opts'))
  }
}

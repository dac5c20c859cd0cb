/** Properties relating several of the plugin's transitions: idempotence of the grant,
    the auto-grant gate, the two membership strategies of the role hooks, coverage of
    CRM administrators, how the sweeps compose, and the settings form's round trip
    through the option readers. */
module EditorAccessLemmas {

  import opened Roles
  import opened OptionStore
  import opened EditorAccess

  // ---------------------------------------------------------------------------
  // Grant

  /** Granting twice is granting once: same verdict, same roles, no second notification. */
  lemma GrantIsIdempotent(st: State, u: UserRef)
    ensures GrantEditorCapabilities(GrantEditorCapabilities(st, u).state, u) == GrantEditorCapabilities(st, u)
  {
  }

  /** A grant never takes a CRM administrator out of the coverage invariant. */
  lemma EditorAddedPreservesCovers(st: State, st': State, id: UserId)
    requires id in st.users
    requires Covers(st.users)
    requires EditorAdded(st, st', id)
    ensures Covers(st'.users)
  {
    forall other | other in st'.users && HoldsCrmAdminRole(st'.users[other])
      ensures Editor in st'.users[other]
    {
      if other != id {
        assert st'.users[other] == st.users[other];
      }
    }
  }

  // ---------------------------------------------------------------------------
  // The auto-grant gate

  /** With auto-grant off, none of the four hooks changes any role or emits a notification. */
  lemma AutoGrantOffMakesHandlersInert(st: State, user: UserRef, userId: UserId, role: Role, oldRoles: seq<Role>)
    requires !AutoGrantEnabled(st.options)
    ensures HandleUserLogin(st, user) == st
    ensures HandleRoleChange(st, userId, role, oldRoles) == st
    ensures HandleRoleAddition(st, userId, role) == st
    ensures CheckCurrentUserAccess(st, userId) == st
  {
  }

  /** Every hook leaves all CRM administrators holding editor when they all did before. */
  lemma HandlersPreserveCovers(st: State, user: UserRef, userId: UserId, role: Role, oldRoles: seq<Role>)
    requires Covers(st.users)
    ensures Covers(HandleUserLogin(st, user).users)
    ensures Covers(HandleRoleChange(st, userId, role, oldRoles).users)
    ensures Covers(HandleRoleAddition(st, userId, role).users)
    ensures Covers(CheckCurrentUserAccess(st, userId).users)
  {
    if AutoGrantEnabled(st.options) {
      if UserHasCrmAdminRole(st, user) {
        EditorAddedPreservesCovers(st, HandleUserLogin(st, user), user.id);
      }
      if userId in st.users {
        if HoldsCrmAdminRole(st.users[userId]) {
          EditorAddedPreservesCovers(st, HandleRoleChange(st, userId, role, oldRoles), userId);
          EditorAddedPreservesCovers(st, CheckCurrentUserAccess(st, userId), userId);
        }
        if role in CrmAdminRoles {
          EditorAddedPreservesCovers(st, HandleRoleAddition(st, userId, role), userId);
        }
      }
    }
  }

  /** The login hook establishes coverage for a logging-in CRM administrator. */
  lemma LoginCoversCrmAdmin(st: State, user: UserRef)
    requires AutoGrantEnabled(st.options) && UserHasCrmAdminRole(st, user)
    ensures Editor in HandleUserLogin(st, user).users[user.id]
  {
  }

  // ---------------------------------------------------------------------------
  // Role hooks: two membership strategies

  /** The role-change hook ignores its payload: it behaves as the login hook on the user the
      id resolves to. */
  lemma RoleChangeIgnoresPayload(st: State, userId: UserId, role: Role, oldRoles: seq<Role>, role': Role, oldRoles': seq<Role>)
    ensures HandleRoleChange(st, userId, role, oldRoles) == HandleRoleChange(st, userId, role', oldRoles')
    ensures HandleRoleChange(st, userId, role, oldRoles) == HandleUserLogin(st, GetUserById(st, userId))
  {
  }

  /** The role-addition hook trusts its payload, the role-change hook re-reads the store: for a
      stored user whose roles hold no CRM alias, being told that an alias was added grants
      editor, while a role-change event naming the same alias does nothing. */
  lemma RoleAdditionTrustsPayload(st: State, userId: UserId, role: Role, oldRoles: seq<Role>)
    requires AutoGrantEnabled(st.options)
    requires userId in st.users && !HoldsCrmAdminRole(st.users[userId])
    requires role in CrmAdminRoles
    ensures Editor in HandleRoleAddition(st, userId, role).users[userId]
    ensures HandleRoleChange(st, userId, role, oldRoles) == st
  {
  }

  /** Adding `editor` fires the role-addition hook again; that re-entry is inert. */
  lemma EditorAdditionReentryIsInert(st: State, userId: UserId)
    ensures HandleRoleAddition(st, userId, Editor) == st
  {
  }

  // ---------------------------------------------------------------------------
  // Sweeps

  /** After the activation sweep every CRM administrator holds editor. */
  lemma ActivationCovers(users: map<UserId, set<Role>>)
    ensures Covers(CrmAdminsGranted(users))
  {
    var after := CrmAdminsGranted(users);
    forall id | id in after && HoldsCrmAdminRole(after[id])
      ensures Editor in after[id]
    {
      EditorDoesNotAffectMembership(users[id]);
    }
  }

  /** The activation sweep is idempotent on the user store. */
  lemma ActivationIsIdempotent(users: map<UserId, set<Role>>)
    ensures CrmAdminsGranted(CrmAdminsGranted(users)) == CrmAdminsGranted(users)
  {
    var once := CrmAdminsGranted(users);
    forall id | id in once
      ensures CrmAdminsGranted(once)[id] == once[id]
    {
      EditorDoesNotAffectMembership(users[id]);
    }
  }

  /** Reactivating after a removing deactivation restores every CRM administrator's roles to
      what activation alone gives; the other users are untouched throughout. */
  lemma RevokeThenGrant(users: map<UserId, set<Role>>)
    ensures CrmAdminsGranted(CrmAdminsRevoked(users)) == CrmAdminsGranted(users)
  {
    var revoked := CrmAdminsRevoked(users);
    forall id | id in users
      ensures CrmAdminsGranted(revoked)[id] == CrmAdminsGranted(users)[id]
    {
      EditorDoesNotAffectMembership(users[id]);
      if HoldsCrmAdminRole(users[id]) {
        assert users[id] - {Editor} + {Editor} == users[id] + {Editor};
      }
    }
  }

  /** A removing deactivation after activation leaves no CRM administrator with editor, the
      same as removing without the activation. */
  lemma GrantThenRevoke(users: map<UserId, set<Role>>)
    ensures CrmAdminsRevoked(CrmAdminsGranted(users)) == CrmAdminsRevoked(users)
  {
    var granted := CrmAdminsGranted(users);
    forall id | id in users
      ensures CrmAdminsRevoked(granted)[id] == CrmAdminsRevoked(users)[id]
    {
      EditorDoesNotAffectMembership(users[id]);
      if HoldsCrmAdminRole(users[id]) {
        assert users[id] + {Editor} - {Editor} == users[id] - {Editor};
      }
    }
  }

  /** Activation does not make the CRM administrators the only editors: a user with no CRM
      alias who already holds editor keeps it. */
  lemma ActivationKeepsOtherEditors()
    ensures var users := map[1 := {"editor"}, 2 := {"crm_admin"}];
            && CrmAdminsGranted(users)[1] == {"editor"}
            && CrmAdminsGranted(users)[2] == {"crm_admin", "editor"}
  {
    assert !HoldsCrmAdminRole({"editor"});
    assert HoldsCrmAdminRole({"crm_admin"});
  }

  /** Activation's `add_option` never changes whether auto-grant reads as enabled: an absent
      option already reads as "1", and a present one is kept. */
  lemma ActivationKeepsAutoGrantVerdict(opts: Options)
    ensures AutoGrantEnabled(Add(opts, AutoGrantKey, "1")) == AutoGrantEnabled(opts)
    ensures AutoGrantKey in Add(opts, AutoGrantKey, "1")
  {
  }

  // ---------------------------------------------------------------------------
  // Settings form

  /** A saved form is read back by the two option readers as exactly the checkboxes submitted. */
  lemma SettingsRoundTrip(st: State, post: map<string, string>)
    ensures var r := HandleSettingsForm(st, true, true, post);
            && (AutoGrantEnabled(r.state.options) <==> AutoGrantField in post)
            && (RemoveOnDeactivateEnabled(r.state.options) <==> RemoveOnDeactivateField in post)
  {
  }

  /** A rejected submission writes nothing, whatever was submitted. */
  lemma RejectedFormWritesNothing(st: State, canManageOptions: bool, nonceValid: bool, post: map<string, string>)
    requires !canManageOptions || !nonceValid
    ensures HandleSettingsForm(st, canManageOptions, nonceValid, post).state == st
  {
  }

  /** Saving the form with the auto-grant box unticked switches every hook off. */
  lemma UntickedAutoGrantSilencesHandlers(st: State, post: map<string, string>, user: UserRef, userId: UserId, role: Role, oldRoles: seq<Role>)
    requires AutoGrantField !in post
    ensures var st' := HandleSettingsForm(st, true, true, post).state;
            && HandleUserLogin(st', user) == st'
            && HandleRoleChange(st', userId, role, oldRoles) == st'
            && HandleRoleAddition(st', userId, role) == st'
            && CheckCurrentUserAccess(st', userId) == st'
  {
    SettingsRoundTrip(st, post);
  }

  // ---------------------------------------------------------------------------
  // Worked examples

  /** A logging-in `{subscriber, zerobscrm_admin}` user gains editor and one notification. */
  lemma LoginGrantsExample()
    ensures var st := State(map[7 := {"subscriber", "zerobscrm_admin"}], map[], []);
            var st' := HandleUserLogin(st, UserObject(7));
            st'.users[7] == {"subscriber", "zerobscrm_admin", "editor"} && st'.granted == [7]
  {
    var roles: set<Role> := {"subscriber", "zerobscrm_admin"};
    assert HoldsCrmAdminRole(roles);
    assert roles + {Editor} == {"subscriber", "zerobscrm_admin", "editor"};
  }

  /** A logging-in `{editor, crm_admin}` user is left as is, and the grant reports success. */
  lemma LoginAlreadyEditorExample()
    ensures var st := State(map[7 := {"editor", "crm_admin"}], map[], []);
            && HandleUserLogin(st, UserObject(7)) == st
            && GrantEditorCapabilities(st, UserObject(7)).ok
  {
  }
}

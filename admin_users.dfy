/**
 * The user admin page: profiles joined with their role rows, the search box,
 * the "Manage" dialog whose switch grants or revokes the admin role, and the
 * removal of a user (role rows first, then the profile).
 */
module AdminUsers {
  import opened Common
  import opened Tables

  /** A listed user: the profile row and the role rows of that user. */
  datatype UserEntry = UserEntry(profile: Profile, roles: seq<RoleRow>)

  /** `roles.filter(r => r.user_id === id)` */
  function RolesOf(roles: seq<RoleRow>, id: UserId): (r: seq<RoleRow>)
    ensures forall x :: x in r <==> x in roles && x.userId == id
    ensures |r| <= |roles|
  {
    if roles == [] then []
    else (if roles[0].userId == id then [roles[0]] else []) + RolesOf(roles[1..], id)
  }

  /** The filter keeps the table's order: filtering a concatenation concatenates the filtered parts. */
  lemma {:induction false} RolesOfAppend(a: seq<RoleRow>, b: seq<RoleRow>, id: UserId)
    ensures RolesOf(a + b, id) == RolesOf(a, id) + RolesOf(b, id)
    decreases |a|
  {
    if a != [] {
      assert (a + b)[1..] == a[1..] + b;
      RolesOfAppend(a[1..], b, id);
    } else {
      assert a + b == b;
    }
  }

  /** `profiles.map(profile => ({...profile, user_roles: ...}))` */
  function JoinRoles(profiles: seq<Profile>, roles: seq<RoleRow>): (r: seq<UserEntry>)
    ensures |r| == |profiles|
    ensures forall i :: 0 <= i < |profiles| ==> r[i] == UserEntry(profiles[i], RolesOf(roles, profiles[i].id))
  {
    if profiles == [] then [] else [UserEntry(profiles[0], RolesOf(roles, profiles[0].id))] + JoinRoles(profiles[1..], roles)
  }

  /** `isUserAdmin`: some role row of the user says 'admin', which is when the role cell shows an 'admin' badge. */
  function IsUserAdmin(u: UserEntry): (b: bool)
    ensures b <==> AdminRole in RoleBadges(u)
  {
    AdminBadgeShown(u);
    exists r :: r in u.roles && r.role == AdminRole
  }

  lemma AdminBadgeShown(u: UserEntry)
    ensures (exists r :: r in u.roles && r.role == AdminRole) <==> AdminRole in RoleBadges(u)
  {
    var badges := RoleBadges(u);
    if r :| r in u.roles && r.role == AdminRole {
      var j :| 0 <= j < |u.roles| && u.roles[j] == r;
      assert badges[j] == AdminRole;
    }
    if AdminRole in badges {
      var j :| 0 <= j < |badges| && badges[j] == AdminRole;
      assert u.roles != [];
      assert u.roles[j] in u.roles;
    }
  }

  /** The role table has an admin row for `id`. */
  predicate HasAdminRow(roles: seq<RoleRow>, id: UserId) {
    RoleRow(id, AdminRole) in roles
  }

  /** A joined user shows as admin exactly when the role table has an admin row for them. */
  lemma JoinedAdminMatchesTable(profiles: seq<Profile>, roles: seq<RoleRow>, i: nat)
    requires i < |profiles|
    ensures IsUserAdmin(JoinRoles(profiles, roles)[i]) <==> HasAdminRow(roles, profiles[i].id)
  {
    var u := JoinRoles(profiles, roles)[i];
    if HasAdminRow(roles, profiles[i].id) {
      assert RoleRow(profiles[i].id, AdminRole) in u.roles;
    }
  }

  /** The role cell: one badge per role row, or a single 'customer' badge when there are none. */
  function RoleBadges(u: UserEntry): (badges: seq<string>)
    ensures u.roles == [] ==> badges == ["customer"]
    ensures u.roles != [] ==> |badges| == |u.roles| && forall i :: 0 <= i < |u.roles| ==> badges[i] == u.roles[i].role
  {
    if u.roles == [] then ["customer"] else seq(|u.roles|, i requires 0 <= i < |u.roles| => u.roles[i].role)
  }

  /** `${email || ''} ${full_name || ''}` */
  function UserHaystack(u: UserEntry): (h: string)
    ensures u.profile.email.Some? ==> Contains(h, u.profile.email.value)
    ensures u.profile.fullName.Some? ==> Contains(h, u.profile.fullName.value)
  {
    var email := if u.profile.email.Some? then u.profile.email.value else "";
    var name := if u.profile.fullName.Some? then u.profile.fullName.value else "";
    var h := email + " " + name;
    ContainsInfix("", email, " " + name);
    assert "" + email + (" " + name) == h;
    ContainsInfix(email + " ", name, "");
    assert email + " " + name + "" == h;
    h
  }

  /** The search box matches case-insensitively; an empty query matches every user. */
  function UserMatches(u: UserEntry, query: string): (b: bool)
    ensures |query| == 0 ==> b
  {
    Contains(ToLower(UserHaystack(u)), ToLower(query))
  }

  /** `(users || []).filter(...)` */
  function FilteredUsers(users: Option<seq<UserEntry>>, query: string): (r: seq<UserEntry>)
    ensures users.None? ==> r == []
    ensures users.Some? ==> forall u :: u in r <==> u in users.value && UserMatches(u, query)
    ensures users.Some? ==> r == FilterUsers(users.value, query)
  {
    if users.None? then []
    else
      FilterUsersMembers(users.value, query);
      FilterUsers(users.value, query)
  }

  function FilterUsers(us: seq<UserEntry>, query: string): (r: seq<UserEntry>)
    ensures |r| <= |us|
  {
    if us == [] then []
    else (if UserMatches(us[0], query) then [us[0]] else []) + FilterUsers(us[1..], query)
  }

  /** The search keeps exactly the users that match. */
  lemma {:induction false} FilterUsersMembers(us: seq<UserEntry>, query: string)
    ensures forall u :: u in FilterUsers(us, query) <==> u in us && UserMatches(u, query)
    decreases |us|
  {
    if us != [] {
      FilterUsersMembers(us[1..], query);
      assert us == [us[0]] + us[1..];
    }
  }

  /** The search keeps the users' order and repeats: filtering a concatenation concatenates the filtered parts. */
  lemma {:induction false} FilterUsersAppend(a: seq<UserEntry>, b: seq<UserEntry>, query: string)
    ensures FilterUsers(a + b, query) == FilterUsers(a, query) + FilterUsers(b, query)
    decreases |a|
  {
    if a != [] {
      var head := if UserMatches(a[0], query) then [a[0]] else [];
      FilterUsersUnfold(a, b, query);
      FilterUsersAppend(a[1..], b, query);
      UsersConcatAssoc(head, FilterUsers(a[1..], query), FilterUsers(b, query));
    } else {
      assert a + b == b;
    }
  }

  /** One step of the search over `a + b`: the head of `a` is tested first. */
  lemma FilterUsersUnfold(a: seq<UserEntry>, b: seq<UserEntry>, query: string)
    requires a != []
    ensures FilterUsers(a, query) == (if UserMatches(a[0], query) then [a[0]] else []) + FilterUsers(a[1..], query)
    ensures FilterUsers(a + b, query) == (if UserMatches(a[0], query) then [a[0]] else []) + FilterUsers(a[1..] + b, query)
  {
    assert (a + b)[0] == a[0] && (a + b)[1..] == a[1..] + b;
  }

  /** Concatenation of user lists regroups freely. */
  lemma UsersConcatAssoc(x: seq<UserEntry>, y: seq<UserEntry>, z: seq<UserEntry>)
    ensures x + (y + z) == (x + y) + z
  {
  }

  /** An empty search box lists every user, in order. */
  lemma {:induction false} EmptyQueryListsAll(us: seq<UserEntry>)
    ensures FilterUsers(us, "") == us
  {
    if us != [] {
      ContainsEmpty(ToLower(UserHaystack(us[0])));
      EmptyQueryListsAll(us[1..]);
      assert us == [us[0]] + us[1..];
    }
  }

  /** Part of a user's name, in any letter case, finds the user. */
  lemma SearchFindsName(u: UserEntry, query: string)
    requires u.profile.fullName.Some?
    requires Contains(ToLower(u.profile.fullName.value), ToLower(query))
    ensures UserMatches(u, query)
  {
    var email := if u.profile.email.Some? then u.profile.email.value else "";
    ToLowerConcat(email + " ", u.profile.fullName.value);
    ContainsPrepend(ToLower(email + " "), ToLower(u.profile.fullName.value), ToLower(query));
  }

  // ---------------------------------------------------------------------
  // Role writes

  datatype SaveDecision = Grant | Revoke | NoWrite

  /** Save: grant when switched on for a non-admin, revoke when switched off for an admin, else nothing. */
  function Decide(checked: bool, isAdmin: bool): (d: SaveDecision)
    ensures d == Grant <==> checked && !isAdmin
    ensures d == Revoke <==> !checked && isAdmin
    ensures d == NoWrite <==> checked == isAdmin
  {
    if checked && !isAdmin then Grant else if !checked && isAdmin then Revoke else NoWrite
  }

  /** `insert({user_id, role: 'admin'})` */
  function GrantedRoles(roles: seq<RoleRow>, id: UserId): (r: seq<RoleRow>)
    ensures HasAdminRow(r, id)
    ensures forall x :: x in roles ==> x in r
  {
    roles + [RoleRow(id, AdminRole)]
  }

  /** Granting a user who had no admin row leaves exactly one, so the `.single()` admin lookups find it. */
  lemma GrantGivesSingleAdminRow(roles: seq<RoleRow>, id: UserId)
    requires !HasAdminRow(roles, id)
    ensures AdminRowCount(GrantedRoles(roles, id), id) == 1
  {
    AdminRowCountAppend(roles, RoleRow(id, AdminRole), id);
  }

  /** `delete().match({user_id, role: 'admin'})`: every row equal to (id, 'admin'), and no other. */
  function RevokedRoles(roles: seq<RoleRow>, id: UserId): (r: seq<RoleRow>)
    ensures forall x :: x in r <==> x in roles && x != RoleRow(id, AdminRole)
    ensures !HasAdminRow(r, id)
  {
    if roles == [] then []
    else (if roles[0] != RoleRow(id, AdminRole) then [roles[0]] else []) + RevokedRoles(roles[1..], id)
  }

  /** `delete().match({user_id})`: all of the user's role rows. */
  function RolesWithoutUser(roles: seq<RoleRow>, id: UserId): (r: seq<RoleRow>)
    ensures forall x :: x in r <==> x in roles && x.userId != id
  {
    if roles == [] then []
    else (if roles[0].userId != id then [roles[0]] else []) + RolesWithoutUser(roles[1..], id)
  }

  /** `delete().match({id})` on profiles. */
  function ProfilesWithout(profiles: seq<Profile>, id: UserId): (r: seq<Profile>)
    ensures forall p :: p in r <==> p in profiles && p.id != id
  {
    if profiles == [] then []
    else (if profiles[0].id != id then [profiles[0]] else []) + ProfilesWithout(profiles[1..], id)
  }

  function ApplyDecision(roles: seq<RoleRow>, id: UserId, d: SaveDecision): seq<RoleRow> {
    match d
    case Grant => GrantedRoles(roles, id)
    case Revoke => RevokedRoles(roles, id)
    case NoWrite => roles
  }

  /**
   * When the dialog opened on the user's current roles, a successful Save
   * leaves the user an admin exactly when the switch is on; other users'
   * admin rows are untouched.
   */
  lemma SaveMatchesSwitch(roles: seq<RoleRow>, id: UserId, checked: bool, other: UserId)
    requires other != id
    ensures var after := ApplyDecision(roles, id, Decide(checked, HasAdminRow(roles, id)));
      HasAdminRow(after, id) == checked && HasAdminRow(after, other) == HasAdminRow(roles, other)
  {
  }

  /** The dialog state of the page. */
  class UsersPage {
    var open: bool
    var selected: Option<UserEntry>
    var adminChecked: bool

    constructor ()
      ensures !open && selected.None? && !adminChecked
    {
      open, selected, adminChecked := false, None, false;
    }

    /** "Manage": select the user and set the switch to their current admin status. */
    method Manage(u: UserEntry)
      modifies this
      ensures open && selected == Some(u) && adminChecked == IsUserAdmin(u)
    {
      selected := Some(u);
      adminChecked := IsUserAdmin(u);
      open := true;
    }

    method Toggle(value: bool)
      modifies this`adminChecked
      ensures adminChecked == value
    {
      adminChecked := value;
    }

    /** Cancel, or closing the dialog. */
    method Close()
      modifies this`open, this`selected
      ensures !open && selected.None?
    {
      open, selected := false, None;
    }

    /**
     * Save: at most one role write, chosen by `Decide`. The dialog closes
     * after a success or when nothing is written; after a failed write it stays
     * open and the mutation's error toast is shown.
     */
    method Save(db: Db, fail: Option<DbError>) returns (toast: Option<Result<string, string>>)
      modifies this`open, this`selected, db`roles
      ensures old(selected).None? ==> toast.None? && db.roles == old(db.roles) && open == old(open) && selected.None?
      ensures old(selected).Some? ==>
        var id := old(selected).value.profile.id;
        var d := Decide(adminChecked, IsUserAdmin(old(selected).value));
        && (d == NoWrite ==> toast.None? && db.roles == old(db.roles))
        && (d != NoWrite && fail.Some? ==> db.roles == old(db.roles) && toast.Some? && toast.value.Err?)
        && (d != NoWrite && fail.None? ==> db.roles == ApplyDecision(old(db.roles), id, d))
        && (d == Grant && fail.None? ==> toast == Some(Ok("Admin role granted")))
        && (d == Revoke && fail.None? ==> toast == Some(Ok("Admin role revoked")))
        && (d == Grant && fail.Some? ==> toast == Some(Err(ErrorText(fail.value, "Failed to grant admin role"))))
        && (d == Revoke && fail.Some? ==> toast == Some(Err(ErrorText(fail.value, "Failed to revoke admin role"))))
        && (d != NoWrite && fail.Some? ==> open == old(open) && selected == old(selected))
        && (d == NoWrite || fail.None? ==> !open && selected.None?)
    {
      if selected.None? {
        return None;
      }
      var u := selected.value;
      var d := Decide(adminChecked, IsUserAdmin(u));
      if d != NoWrite && fail.Some? {
        var fallback := if d == Grant then "Failed to grant admin role" else "Failed to revoke admin role";
        return Some(Err(ErrorText(fail.value, fallback)));
      }
      match d {
        case Grant =>
          db.roles := GrantedRoles(db.roles, u.profile.id);
          toast := Some(Ok("Admin role granted"));
        case Revoke =>
          db.roles := RevokedRoles(db.roles, u.profile.id);
          toast := Some(Ok("Admin role revoked"));
        case NoWrite =>
          toast := None;
      }
      open, selected := false, None;
    }

    /**
     * Remove: delete all of the user's role rows, then the profile. A failed
     * role delete stops before the profile; a failed profile delete leaves the
     * roles already deleted.
     */
    method Remove(db: Db, rolesFail: Option<DbError>, profileFail: Option<DbError>)
      returns (toast: Option<Result<string, string>>)
      modifies this`open, this`selected, db`roles, db`profiles
      ensures old(selected).None? ==> toast.None? && unchanged(this, db)
      ensures old(selected).Some? ==>
        var id := old(selected).value.profile.id;
        && db.roles == (if rolesFail.None? then RolesWithoutUser(old(db.roles), id) else old(db.roles))
        && db.profiles == (if rolesFail.None? && profileFail.None? then ProfilesWithout(old(db.profiles), id)
                           else old(db.profiles))
        && (rolesFail.Some? ==> toast == Some(Err(ErrorText(rolesFail.value, "Failed to remove user"))))
        && (rolesFail.None? && profileFail.Some? ==> toast == Some(Err(ErrorText(profileFail.value, "Failed to remove user"))))
        && (rolesFail.None? && profileFail.None? ==> toast == Some(Ok("User removed")) && !open && selected.None?)
        && (rolesFail.Some? || profileFail.Some? ==> open == old(open) && selected == old(selected))
    {
      if selected.None? {
        return None;
      }
      var id := selected.value.profile.id;
      if rolesFail.Some? {
        return Some(Err(ErrorText(rolesFail.value, "Failed to remove user")));
      }
      db.roles := RolesWithoutUser(db.roles, id);
      if profileFail.Some? {
        return Some(Err(ErrorText(profileFail.value, "Failed to remove user")));
      }
      db.profiles := ProfilesWithout(db.profiles, id);
      toast := Some(Ok("User removed"));
      open, selected := false, None;
    }
  }
}

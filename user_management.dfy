/** The admin user list: every profile shown with its role, narrowed by a
    search box, and a role change that updates the user's role row when the
    user has exactly one and inserts a row otherwise. The `user_roles`
    table is a sequence of rows here, in the order the database returns
    them. */
module UserManagement {
  import opened Js
  import opened Ui
  import opened Text
  import opened Schema
  import Seqs

  /** A `profiles` row, with the columns the screen reads. */
  datatype Profile = Profile(userId: string, fullName: string, email: string)

  /** A `user_roles` row. */
  datatype RoleRow = RoleRow(userId: string, role: AppRole)

  datatype UserWithRole = UserWithRole(profile: Profile, role: AppRole)

  /** The test `r => r.user_id === userId`. */
  function RowOf(userId: string): RoleRow -> bool {
    (row: RoleRow) => row.userId == userId
  }

  /** `roles.find(r => r.user_id === userId)?.role || "user"` over a
      fetched table. */
  function RoleIn(table: seq<RoleRow>, userId: string): AppRole {
    match Seqs.Find(table, RowOf(userId))
    case Some(row) => row.role
    case None => User
  }

  /** The same with the roles query possibly answering nothing. */
  function RoleOf(roles: Option<seq<RoleRow>>, userId: string): (r: AppRole)
    ensures roles.None? ==> r == User
  {
    if roles.None? then User else RoleIn(roles.value, userId)
  }

  /** A user's role is that of the first row for the user, and "user" when
      there is none. */
  lemma RoleInIsFirstRow(table: seq<RoleRow>, userId: string)
    ensures (forall row :: row in table ==> row.userId != userId) ==> RoleIn(table, userId) == User
    ensures forall i :: 0 <= i < |table| && table[i].userId == userId
                        && (forall j :: 0 <= j < i ==> table[j].userId != userId)
                        ==> RoleIn(table, userId) == table[i].role
  {
    forall i | 0 <= i < |table| && table[i].userId == userId
               && (forall j :: 0 <= j < i ==> table[j].userId != userId)
      ensures RoleIn(table, userId) == table[i].role
    {
      RoleInFirstRow(table, userId, i);
    }
  }

  lemma {:induction false} RoleInFirstRow(table: seq<RoleRow>, userId: string, i: nat)
    requires i < |table| && table[i].userId == userId
    requires forall j :: 0 <= j < i ==> table[j].userId != userId
    ensures RoleIn(table, userId) == table[i].role
  {
    if i > 0 {
      assert table[0].userId != userId;
      assert table[1..][i - 1] == table[i];
      assert forall j :: 0 <= j < i - 1 ==> table[1..][j] == table[j + 1];
      RoleInFirstRow(table[1..], userId, i - 1);
    }
  }

  /** `fetchUsers`' join of profiles and roles. */
  function WithRoles(profiles: seq<Profile>, roles: Option<seq<RoleRow>>): (r: seq<UserWithRole>)
    ensures |r| == |profiles|
    ensures forall i :: 0 <= i < |r| ==> r[i].profile == profiles[i] && r[i].role == RoleOf(roles, profiles[i].userId)
  {
    seq(|profiles|, i requires 0 <= i < |profiles| => UserWithRole(profiles[i], RoleOf(roles, profiles[i].userId)))
  }

  /** The search test on a name or an email, case aside. */
  predicate MatchesSearch(user: UserWithRole, search: string) {
    Contains(ToLower(user.profile.fullName), ToLower(search)) || Contains(ToLower(user.profile.email), ToLower(search))
  }

  /** `filteredUsers`. */
  function FilteredUsers(users: seq<UserWithRole>, search: string): (r: seq<UserWithRole>)
    ensures forall u :: u in r <==> u in users && MatchesSearch(u, search)
    ensures Seqs.IsSubsequence(r, users)
  {
    Seqs.Filter(users, u => MatchesSearch(u, search))
  }

  /** An empty search box shows everyone, in order. */
  lemma EmptySearchKeepsEveryone(users: seq<UserWithRole>)
    ensures FilteredUsers(users, "") == users
  {
    forall u | u in users
      ensures MatchesSearch(u, "")
    {
      ContainsEmpty(ToLower(u.profile.fullName));
    }
    Seqs.FilterAll(users, u => MatchesSearch(u, ""));
  }

  /** The letter case of the search does not matter. */
  lemma SearchCaseIgnored(users: seq<UserWithRole>, s1: string, s2: string)
    requires SameUpToCase(s1, s2)
    ensures FilteredUsers(users, s1) == FilteredUsers(users, s2)
  {
    SameUpToCaseLower(s1, s2);
    Seqs.FilterSameTest(users, u => MatchesSearch(u, s1), u => MatchesSearch(u, s2));
  }

  datatype BadgeVariant = Destructive | DefaultBadge | Secondary

  /** `getRoleBadgeVariant`: each role has its own badge. */
  function RoleBadgeVariant(role: AppRole): (r: BadgeVariant)
    ensures r == Destructive <==> role == Admin
    ensures r == DefaultBadge <==> role == Moderator
    ensures r == Secondary <==> role == User
  {
    match role
    case Admin => Destructive
    case Moderator => DefaultBadge
    case User => Secondary
  }

  // -------------------------------------------------------------------
  // updateUserRole
  // -------------------------------------------------------------------

  /** The two writes `updateUserRole` can send. */
  datatype RoleWrite = UpdateRole(userId: string, role: AppRole) | InsertRole(userId: string, role: AppRole)

  /** The write chosen from the table: `.single()` answers with a row only
      when the user has exactly one; otherwise a row is inserted. */
  function RoleWriteFor(table: seq<RoleRow>, userId: string, role: AppRole): (w: RoleWrite)
    ensures w.userId == userId && w.role == role
    ensures w.UpdateRole? <==> Seqs.Count(table, RowOf(userId)) == 1
  {
    if Seqs.Count(table, RowOf(userId)) == 1 then UpdateRole(userId, role) else InsertRole(userId, role)
  }

  /** The table once a write has landed: an update sets the role of every
      row of the user, an insert appends a row. */
  function Applied(table: seq<RoleRow>, w: RoleWrite): (r: seq<RoleRow>)
    ensures w.InsertRole? ==> r == table + [RoleRow(w.userId, w.role)]
    ensures w.UpdateRole? ==> |r| == |table|
  {
    match w
    case InsertRole(u, role) => table + [RoleRow(u, role)]
    case UpdateRole(u, role) =>
      seq(|table|, i requires 0 <= i < |table| => if table[i].userId == u then table[i].(role := role) else table[i])
  }

  /** After an update, the user's role is the new one when the user has a
      row, and nobody else's role changes. */
  lemma {:induction false} UpdateSetsRole(table: seq<RoleRow>, u: string, role: AppRole, v: string)
    ensures RoleIn(Applied(table, UpdateRole(u, role)), v)
            == if v == u && Seqs.Find(table, RowOf(u)).Some? then role else RoleIn(table, v)
  {
    if table != [] {
      var t' := Applied(table, UpdateRole(u, role));
      assert t'[1..] == Applied(table[1..], UpdateRole(u, role));
      UpdateSetsRole(table[1..], u, role, v);
    }
  }

  /** After an insert, the new row decides the user's role exactly when it
      is the user's first row; nobody else's role changes. */
  lemma {:induction false} InsertSetsRole(table: seq<RoleRow>, u: string, role: AppRole, v: string)
    ensures RoleIn(Applied(table, InsertRole(u, role)), v)
            == if v == u && Seqs.Find(table, RowOf(u)).None? then role else RoleIn(table, v)
  {
    if table == [] {
    } else {
      assert (table + [RoleRow(u, role)])[1..] == table[1..] + [RoleRow(u, role)];
      InsertSetsRole(table[1..], u, role, v);
    }
  }

  /** A user with at most one role row gets the chosen role, and every other
      user keeps theirs. */
  lemma RoleChangeTakesEffect(table: seq<RoleRow>, u: string, role: AppRole, v: string)
    requires Seqs.Count(table, RowOf(u)) <= 1
    ensures RoleIn(Applied(table, RoleWriteFor(table, u, role)), u) == role
    ensures v != u ==> RoleIn(Applied(table, RoleWriteFor(table, u, role)), v) == RoleIn(table, v)
  {
    CountFind(table, u);
    UpdateSetsRole(table, u, role, u);
    InsertSetsRole(table, u, role, u);
    UpdateSetsRole(table, u, role, v);
    InsertSetsRole(table, u, role, v);
  }

  /** A user with two or more role rows is sent an insert, and the role shown
      does not change: the first row still decides it. */
  lemma SeveralRowsHideTheChange(table: seq<RoleRow>, u: string, role: AppRole)
    requires Seqs.Count(table, RowOf(u)) >= 2
    ensures RoleWriteFor(table, u, role).InsertRole?
    ensures RoleIn(Applied(table, RoleWriteFor(table, u, role)), u) == RoleIn(table, u)
  {
    CountFind(table, u);
    InsertSetsRole(table, u, role, u);
  }

  lemma {:induction false} CountFind(table: seq<RoleRow>, u: string)
    ensures Seqs.Count(table, RowOf(u)) == 0 <==> Seqs.Find(table, RowOf(u)).None?
  {
    if table != [] {
      CountFind(table[1..], u);
    }
  }

  class UserAdmin {
    var users: seq<UserWithRole>
    var search: string
    var loading: bool
    var writes: seq<RoleWrite>
    var toasts: seq<Toast>
    /** How many times the user list was fetched again. */
    var refetches: nat

    constructor ()
      ensures users == [] && search == "" && loading && writes == [] && toasts == [] && refetches == 0
    {
      users, search, loading, writes, toasts, refetches := [], "", true, [], [], 0;
    }

    /** `fetchUsers` with the profiles query's answer and the roles query's
        rows (none when it failed). */
    method FetchUsers(profiles: Attempt<seq<Profile>>, roles: Option<seq<RoleRow>>)
      modifies this
      ensures profiles.Fail? ==> users == old(users) && toasts == old(toasts) + [Toast("Error", "Failed to fetch users", true)]
      ensures profiles.Ok? ==> users == WithRoles(profiles.value, roles) && toasts == old(toasts)
      ensures !loading
      ensures search == old(search) && writes == old(writes) && refetches == old(refetches)
    {
      loading := true;
      if profiles.Fail? {
        toasts := toasts + [Toast("Error", "Failed to fetch users", true)];
        loading := false;
        return;
      }
      users := WithRoles(profiles.value, roles);
      loading := false;
    }

    /** `updateUserRole(userId, newRole)` against the role table `table`;
        `result` is the write's answer. An error stops before the success
        toast and the refetch. */
    method UpdateUserRole(table: seq<RoleRow>, userId: string, newRole: AppRole, result: WriteOutcome)
      modifies this
      ensures writes == old(writes) + [RoleWriteFor(table, userId, newRole)]
      ensures result.WriteFailed? ==>
        refetches == old(refetches)
        && toasts == old(toasts) + [Toast("Error",
             if RoleWriteFor(table, userId, newRole).UpdateRole? then "Failed to update role" else "Failed to assign role", true)]
      ensures result.Written? ==>
        refetches == old(refetches) + 1 && toasts == old(toasts) + [Toast("Success", "User role updated", false)]
      ensures users == old(users) && search == old(search) && loading == old(loading)
    {
      var w := RoleWriteFor(table, userId, newRole);
      writes := writes + [w];
      if result.WriteFailed? {
        var message := if w.UpdateRole? then "Failed to update role" else "Failed to assign role";
        toasts := toasts + [Toast("Error", message, true)];
        return;
      }
      toasts := toasts + [Toast("Success", "User role updated", false)];
      refetches := refetches + 1;
    }

    /** Typing in the search box. */
    method SetSearch(text: string)
      modifies this
      ensures search == text
      ensures users == old(users) && loading == old(loading) && writes == old(writes)
      ensures toasts == old(toasts) && refetches == old(refetches)
    {
      search := text;
    }

    /** The rows the table shows. */
    function Shown(): (r: seq<UserWithRole>)
      reads this
      ensures forall u :: u in r <==> u in users && MatchesSearch(u, search)
    {
      FilteredUsers(users, search)
    }
  }
}

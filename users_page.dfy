/**
 * The user directory: a search box and role / status drop-downs narrow the
 * user list, and each user's permissions are shown as labels with the first
 * underscore turned into a space. Everything here is a pure function of the
 * list and the three controls.
 */
module UsersPage {

  import opened Lists
  import opened Text

  datatype User = User(
    id: int,
    name: string,
    email: string,
    phone: string,
    role: string,
    department: string,
    state: string,
    status: string,
    lastLogin: string,
    joinDate: string,
    permissions: seq<string>)

  /** The search box and the role and status drop-downs. */
  datatype UserFilters = UserFilters(searchTerm: string, role: string, status: string)

  const All: string := "All"
  const InitialFilters: UserFilters := UserFilters("", All, All)
  const RoleOptions: seq<string> :=
    ["All", "Administrator", "State Coordinator", "Data Analyst", "Field Coordinator", "Researcher"]
  const StatusOptions: seq<string> := ["All", "active", "inactive", "pending"]

  /** The lower-cased search term occurs in the lower-cased name, email or state. */
  predicate MatchesSearch(u: User, term: string) {
    var t := ToLower(term);
    Contains(ToLower(u.name), t) || Contains(ToLower(u.email), t) || Contains(ToLower(u.state), t)
  }

  /** `All`, or exactly the user's role: neither side is lower-cased. */
  predicate MatchesRole(u: User, role: string) {
    role == All || u.role == role
  }

  /** `All`, or exactly the user's status: neither side is lower-cased. */
  predicate MatchesStatus(u: User, status: string) {
    status == All || u.status == status
  }

  predicate Keep(u: User, f: UserFilters) {
    MatchesSearch(u, f.searchTerm) && MatchesRole(u, f.role) && MatchesStatus(u, f.status)
  }

  /** `filteredUsers`: the users that pass all three tests, in their original order. */
  function FilteredUsers(users: seq<User>, f: UserFilters): (r: seq<User>)
    ensures IsSubsequence(r, users)
    ensures forall u :: u in r <==> u in users && Keep(u, f)
  {
    FilterIsSubsequence(users, u => Keep(u, f));
    Filter(users, u => Keep(u, f))
  }

  /** No user is duplicated or dropped: a kept user occurs as often as in the input. */
  lemma FilteredUsersMultiplicity(users: seq<User>, f: UserFilters, u: User)
    ensures multiset(FilteredUsers(users, f))[u] == if Keep(u, f) then multiset(users)[u] else 0
  {
    FilterMultiplicity(users, u => Keep(u, f), u);
  }

  /** An empty search term matches every user. */
  lemma EmptySearchMatchesEveryUser(u: User)
    ensures MatchesSearch(u, "")
  {
    assert ToLower("") == "";
    ContainsEmpty(ToLower(u.name));
  }

  /** With an empty search, the result is exactly the users passing the role and status tests. */
  lemma EmptySearchLeavesDropDowns(users: seq<User>, role: string, status: string, u: User)
    ensures u in FilteredUsers(users, UserFilters("", role, status))
            <==> u in users && MatchesRole(u, role) && MatchesStatus(u, status)
  {
    EmptySearchMatchesEveryUser(u);
  }

  /** The initial controls keep the whole list. */
  lemma InitialFiltersKeepEveryUser(users: seq<User>)
    ensures FilteredUsers(users, InitialFilters) == users
  {
    forall i | 0 <= i < |users|
      ensures Keep(users[i], InitialFilters)
    {
      EmptySearchMatchesEveryUser(users[i]);
    }
    FilterKeepsAll(users, u => Keep(u, InitialFilters));
  }

  /**
   * Two different non-`All` entries of the role drop-down never select the
   * same user, and neither do two of the status drop-down.
   */
  lemma OfferedOptionsAreExclusive(u: User, i: nat, j: nat)
    requires 1 <= i < j
    ensures j < |RoleOptions| ==> !(MatchesRole(u, RoleOptions[i]) && MatchesRole(u, RoleOptions[j]))
    ensures j < |StatusOptions| ==> !(MatchesStatus(u, StatusOptions[i]) && MatchesStatus(u, StatusOptions[j]))
  {
    var roles := RoleOptions[1..];
    var statuses := StatusOptions[1..];
    assert roles == ["Administrator", "State Coordinator", "Data Analyst", "Field Coordinator", "Researcher"];
    assert statuses == ["active", "inactive", "pending"];
    if j < |RoleOptions| {
      assert RoleOptions[i] == roles[i - 1] && RoleOptions[j] == roles[j - 1];
      DistinctInitialsApart(roles, i - 1, j - 1);
    }
    if j < |StatusOptions| {
      assert StatusOptions[i] == statuses[i - 1] && StatusOptions[j] == statuses[j - 1];
      DistinctInitialsApart(statuses, i - 1, j - 1);
    }
  }

  /** Role matching is case-sensitive: `administrator` does not select an `Administrator`. */
  lemma RoleFilterIsCaseSensitive(u: User)
    requires u.role == "Administrator"
    ensures MatchesRole(u, "Administrator")
    ensures !MatchesRole(u, "administrator")
  {
    assert "Administrator"[0] != "administrator"[0];
  }

  /** A status value no user has selects nobody. */
  lemma UnusedStatusSelectsNobody(users: seq<User>, f: UserFilters)
    requires f.status != All
    requires forall i :: 0 <= i < |users| ==> users[i].status != f.status
    ensures FilteredUsers(users, f) == []
  {
    forall u | u in users
      ensures !Keep(u, f)
    {
    }
  }

  /**
   * `g` is `f` with zero or more drop-downs moved from `All` to a specific
   * value (the search term is the same).
   */
  predicate Narrows(g: UserFilters, f: UserFilters) {
    && g.searchTerm == f.searchTerm
    && (f.role == All || g.role == f.role)
    && (f.status == All || g.status == f.status)
  }

  /** Narrowing a drop-down keeps a subsequence of the previous result, never a longer list. */
  lemma NarrowingNeverEnlarges(users: seq<User>, g: UserFilters, f: UserFilters)
    requires Narrows(g, f)
    ensures IsSubsequence(FilteredUsers(users, g), FilteredUsers(users, f))
    ensures |FilteredUsers(users, g)| <= |FilteredUsers(users, f)|
  {
    FilterMonotone(users, u => Keep(u, g), u => Keep(u, f));
  }

  /** Search terms that differ only in letter case select the same users. */
  lemma SearchIgnoresCase(users: seq<User>, f: UserFilters, t1: string, t2: string)
    requires ToLower(t1) == ToLower(t2)
    ensures FilteredUsers(users, f.(searchTerm := t1)) == FilteredUsers(users, f.(searchTerm := t2))
  {
    var f1, f2 := f.(searchTerm := t1), f.(searchTerm := t2);
    FilterExtensional(users, u => Keep(u, f1), u => Keep(u, f2));
    assert FilteredUsers(users, f1) == Filter(users, u => Keep(u, f1));
    assert FilteredUsers(users, f2) == Filter(users, u => Keep(u, f2));
  }

  /** `permission.replace('_', ' ')`: the label shown for a permission. */
  function PermissionLabel(permission: string): string {
    ReplaceFirst(permission, '_', ' ')
  }

  /**
   * Only the first underscore becomes a space; every other character,
   * later underscores included, is kept.
   */
  lemma PermissionLabelReplacesFirstUnderscore(permission: string)
    ensures |PermissionLabel(permission)| == |permission|
    ensures '_' !in permission ==> PermissionLabel(permission) == permission
    ensures '_' in permission ==>
              var k := FirstIndex(permission, '_');
              && PermissionLabel(permission) == permission[..k] + " " + permission[k + 1..]
              && '_' !in permission[..k]
  {
    if '_' in permission {
      var k := FirstIndex(permission, '_');
      var shown := PermissionLabel(permission);
      assert shown == permission[..k] + " " + permission[k + 1..];
    }
  }

  /** The five users the screen lists (the roster it is shipped with). */
  const Roster: seq<User> := [
    User(1, "Dr. Amina Hassan", "a.hassan@climate.gov.ng", "+234-801-234-5678", "Administrator",
         "Climate Monitoring", "Federal Capital Territory", "active", "2024-01-15 14:30:00", "2023-06-15",
         ["all_access", "user_management", "system_config"]),
    User(2, "Eng. Chidi Okonkwo", "c.okonkwo@climate.gov.ng", "+234-802-345-6789", "State Coordinator",
         "Emergency Response", "Lagos State", "active", "2024-01-15 12:15:00", "2023-08-20",
         ["reports_view", "alerts_send", "data_export"]),
    User(3, "Mrs. Fatima Abdullahi", "f.abdullahi@climate.gov.ng", "+234-803-456-7890", "Data Analyst",
         "Research & Analytics", "Kano State", "active", "2024-01-15 09:45:00", "2023-04-10",
         ["analytics_access", "reports_view", "data_export"]),
    User(4, "Mr. Emeka Nwosu", "e.nwosu@climate.gov.ng", "+234-804-567-8901", "Field Coordinator",
         "Field Operations", "Rivers State", "inactive", "2024-01-10 16:20:00", "2023-09-05",
         ["reports_create", "field_data_entry"]),
    User(5, "Dr. Aisha Bello", "a.bello@climate.gov.ng", "+234-805-678-9012", "Researcher",
         "Climate Science", "Kaduna State", "active", "2024-01-15 11:30:00", "2023-07-12",
         ["analytics_access", "research_tools", "data_export"])
  ]

  /** The status drop-down offers `pending`, but no listed user has it, so choosing it empties the list. */
  lemma PendingSelectsNobodyOnRoster(f: UserFilters)
    requires f.status == "pending"
    ensures FilteredUsers(Roster, f) == []
  {
    UnusedStatusSelectsNobody(Roster, f);
  }
}

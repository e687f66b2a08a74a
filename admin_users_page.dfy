/**
 * The administrator's user list: the status tab and search filter, the tab
 * counts, and the role toggle.
 */
module AdminUsersPage {
  import opened Common
  import opened RtdbService

  /** The three tabs; any other filter value behaves like All. */
  datatype Tab = All | Active | Banned

  function UsernameOf(u: Profile): Option<string> { if u.Profile? then u.username else None }
  function DisplayNameOf(u: Profile): Option<string> { if u.Profile? then u.displayName else None }
  function EmailOf(u: Profile): Option<string> { if u.Profile? then u.email else None }

  /** `field?.toLowerCase().includes(query)`: an absent field never matches. */
  predicate FieldMatches(field: Option<string>, query: string)
  {
    field.Some? && Contains(Lower(field.value), query)
  }

  /** The filter callback: the tab's status rule, then, for a non-empty search, a match on username, display name or e-mail. */
  predicate Keep(u: Profile, tab: Tab, search: string)
  {
    && !(tab == Active && u.isBanned)
    && !(tab == Banned && !u.isBanned)
    && (|search| > 0 ==>
          FieldMatches(UsernameOf(u), Lower(search)) || FieldMatches(DisplayNameOf(u), Lower(search))
          || FieldMatches(EmailOf(u), Lower(search)))
  }

  /** filteredUsers. */
  function FilteredUsers(users: seq<Profile>, tab: Tab, search: string): (r: seq<Profile>)
    ensures |r| <= |users|
    ensures forall u :: u in r <==> u in users && Keep(u, tab, search)
  {
    if |users| == 0 then []
    else (if Keep(users[0], tab, search) then [users[0]] else []) + FilteredUsers(users[1..], tab, search)
  }

  /** The filter keeps the list's order: filtering a concatenation concatenates the filtered parts. */
  lemma {:induction false} FilteredUsersAppend(a: seq<Profile>, b: seq<Profile>, tab: Tab, search: string)
    ensures FilteredUsers(a + b, tab, search) == FilteredUsers(a, tab, search) + FilteredUsers(b, tab, search)
  {
    if |a| > 0 {
      assert (a + b)[1..] == a[1..] + b;
      FilteredUsersAppend(a[1..], b, tab, search);
    } else {
      assert a + b == b;
    }
  }

  /** With no search on the All tab every user is listed. */
  lemma {:induction false} AllTabWithoutSearch(users: seq<Profile>)
    ensures FilteredUsers(users, All, "") == users
  {
    if |users| > 0 {
      AllTabWithoutSearch(users[1..]);
      assert users == [users[0]] + users[1..];
    }
  }

  /** The number of users with the given ban flag: the Active and Banned tab counts. */
  function CountBanned(users: seq<Profile>, banned: bool): (n: nat)
    ensures n <= |users|
  {
    if |users| == 0 then 0
    else (if users[0].isBanned == banned then 1 else 0) + CountBanned(users[1..], banned)
  }

  /** Active plus Banned is All. */
  lemma {:induction false} TabCountsAddUp(users: seq<Profile>)
    ensures CountBanned(users, false) + CountBanned(users, true) == |users|
  {
    if |users| > 0 {
      TabCountsAddUp(users[1..]);
    }
  }

  /** Without a search the Active and Banned tabs list exactly as many users as their counts say. */
  lemma {:induction false} TabCountsMatchLists(users: seq<Profile>)
    ensures |FilteredUsers(users, Active, "")| == CountBanned(users, false)
    ensures |FilteredUsers(users, Banned, "")| == CountBanned(users, true)
  {
    if |users| > 0 {
      TabCountsMatchLists(users[1..]);
    }
  }

  /** handleToggleRole's new role: an administrator becomes a user, anyone else an administrator. */
  function ToggledRole(role: string): (r: string)
    ensures r == "admin" <==> role != "admin"
    ensures r == "user" || r == "admin"
  {
    if role == "admin" then "user" else "admin"
  }

  /** On the two roles the client writes, toggling twice restores the role. */
  lemma ToggleRoleTwice(role: string)
    requires role == "user" || role == "admin"
    ensures ToggledRole(ToggledRole(role)) == role
  {
  }
}

/** The users page: search by name or email, delete, and create an admin account. */
module UsersPage {
  import opened Wrappers
  import opened Js
  import opened Text
  import opened Lists
  import opened ListSearch

  const NameField: string := "1_name"
  const EmailField: string := "2_email"

  /** The page state: the user lists plus the admin-creation popup and its three inputs. */
  datatype UsersState = UsersState(
    list: ListState, showPopup: bool, adminEmail: string, password: string, retypePassword: string)

  const Initial: UsersState := UsersState(ListSearch.Initial, false, "", "", "")

  /** `handleSearch(query)` over `1_name` and `2_email`. */
  function Search(u: UsersState, query: string): (r: UsersState)
    ensures r.list.all == u.list.all && r.list.searchQuery == query && r.list.loading == u.list.loading
    // The popup and its three inputs are untouched.
    ensures r == u.(list := r.list)
    ensures IsBlank(query) ==> r.list.filtered == u.list.all
    ensures !IsBlank(query) && SearchList(u.list.all, NameField, EmailField, Lower(query)).Some? ==>
      IsSubsequence(r.list.filtered, u.list.all)
      && (forall x :: x in r.list.filtered <==> x in u.list.all && Matches(x, NameField, EmailField, Lower(query)))
      && (forall x :: multiset(r.list.filtered)[x] ==
            if Matches(x, NameField, EmailField, Lower(query)) then multiset(u.list.all)[x] else 0)
    // A test that throws (a name or email that is not a string) leaves the shown list as it was.
    ensures !IsBlank(query) && SearchList(u.list.all, NameField, EmailField, Lower(query)).None? ==>
      r.list.filtered == u.list.filtered
  {
    var r := u.(list := HandleSearch(u.list, query, NameField, EmailField));
    SearchIsFilter(u.list.all, NameField, EmailField, Lower(query));
    if !IsBlank(query) && SearchList(u.list.all, NameField, EmailField, Lower(query)).Some? then
      SearchResultIsSubsequence(u.list, query, NameField, EmailField);
      r
    else
      r
  }

  /** `handleDelete(userId)` */
  function Delete(u: UsersState, id: string, confirmed: bool, deleted: bool): (r: UsersState)
    ensures !(confirmed && deleted) ==> r == u
    ensures confirmed && deleted ==>
      && (forall x :: x in r.list.all <==> x in u.list.all && Field(x, "id") != Str(id))
      && (forall x :: x in r.list.filtered <==> x in u.list.filtered && Field(x, "id") != Str(id))
      && IsWithoutId(r.list.all, u.list.all, id) && IsWithoutId(r.list.filtered, u.list.filtered, id)
    // Only the two lists change.
    ensures r == u.(list := r.list)
    ensures r.list.searchQuery == u.list.searchQuery && r.list.loading == u.list.loading
  {
    u.(list := HandleDelete(u.list, id, confirmed, deleted))
  }

  /**
   * What `handleCreateAdmin` did: the email and password `createAdminUser`
   * was called with (none when it was not called), and the new state.
   */
  datatype AdminOutcome = AdminOutcome(attempted: Option<(string, string)>, state: UsersState)

  /**
   * `handleCreateAdmin()`: with mismatched passwords nothing is attempted and
   * nothing changes. When creation fails nothing changes either. When it
   * succeeds the popup is toggled, the three inputs are cleared, and both
   * lists are replaced by the reloaded users (a rejected reload leaves them).
   */
  function CreateAdmin(u: UsersState, created: bool, reload: Option<seq<Record>>): (r: AdminOutcome)
    ensures r.attempted.Some? <==> u.password == u.retypePassword
    ensures r.attempted.Some? ==> r.attempted.value == (u.adminEmail, u.password)
    ensures r.attempted.None? || !created ==> r.state == u
    ensures r.attempted.Some? && created ==>
      && r.state.showPopup == !u.showPopup
      && r.state.adminEmail == "" && r.state.password == "" && r.state.retypePassword == ""
      && r.state.list.searchQuery == u.list.searchQuery && r.state.list.loading == u.list.loading
      && (reload.Some? ==> r.state.list.all == reload.value && r.state.list.filtered == reload.value)
      && (reload.None? ==> r.state.list == u.list)
  {
    if u.password != u.retypePassword then AdminOutcome(None, u)
    else if !created then AdminOutcome(Some((u.adminEmail, u.password)), u)
    else
      var cleared := u.(showPopup := !u.showPopup, adminEmail := "", password := "", retypePassword := "");
      match reload
      case None => AdminOutcome(Some((u.adminEmail, u.password)), cleared)
      case Some(users) =>
        AdminOutcome(Some((u.adminEmail, u.password)), cleared.(list := cleared.list.(all := users, filtered := users)))
  }
}

/** `UserListScreen`: the administrator's list of users with its search box. */
module UserListScreen {
  import opened Wrappers
  import opened Domain
  import UserSearch

  const LoadFailed: string := "No se pudieron cargar los usuarios. Inténtalo de nuevo."

  class UserList {
    var users: seq<UserRef>
    var filteredUsers: seq<UserRef>
    var searchText: string
    var isLoading: bool
    var refreshing: bool
    var error: Option<string>

    /** The search effect has run on the current list and text. */
    ghost predicate Valid()
      reads this
    {
      filteredUsers == UserSearch.SearchUsers(users, searchText)
    }

    constructor ()
      ensures Valid()
      ensures users == [] && searchText == "" && isLoading && !refreshing && error == None
    {
      users, filteredUsers, searchText := [], [], "";
      isLoading, refreshing, error := true, false, None;
    }

    /** `loadUsers()`: on success the list is the response (and, with an empty search, so is
        the filtered list); on failure the list stays and the error is set. */
    method LoadUsers(response: Call<seq<UserRef>>)
      requires Valid()
      modifies this
      ensures Valid() && !isLoading && !refreshing && searchText == old(searchText)
      ensures response.Returned? ==> users == response.value && error == None
      ensures response.Returned? && searchText == "" ==> filteredUsers == response.value
      ensures response.Threw? ==> users == old(users) && error == Some(LoadFailed)
    {
      error := None;
      if !refreshing {
        isLoading := true;
      }
      match response {
      case Returned(data) =>
        users := data;
        filteredUsers := UserSearch.SearchUsers(users, searchText);
      case Threw(_) =>
        error := Some(LoadFailed);
      }
      isLoading := false;
      refreshing := false;
    }

    /** `handleRefresh()`: marks the list as refreshing and reloads it. */
    method HandleRefresh(response: Call<seq<UserRef>>)
      requires Valid()
      modifies this
      ensures Valid() && !isLoading && !refreshing && searchText == old(searchText)
      ensures response.Returned? ==> users == response.value && error == None
      ensures response.Threw? ==> users == old(users) && error == Some(LoadFailed)
    {
      refreshing := true;
      LoadUsers(response);
    }

    /** Typing in the search box re-runs the search. */
    method SetSearchText(text: string)
      requires Valid()
      modifies this
      ensures Valid() && searchText == text
      ensures users == old(users) && isLoading == old(isLoading) && error == old(error)
      ensures text == "" ==> filteredUsers == users
    {
      searchText := text;
      filteredUsers := UserSearch.SearchUsers(users, searchText);
    }
  }
}

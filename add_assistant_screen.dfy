/** `AddAssistantScreen`: the users that are not yet assistants of the event, a search box
    over them, and the call that makes the chosen one an assistant. */
module AddAssistantScreen {
  import opened Wrappers
  import opened Domain
  import Lists
  import UserSearch
  import EventContext

  const LoadFailed: string := "No se pudieron cargar los usuarios"
  const AddedAlert: string := "Asistente añadido correctamente"

  /** `event.assistants.map(op => op._id)` */
  function AssistantIds(assistants: seq<UserRef>): (r: seq<string>)
    ensures |r| == |assistants|
    ensures forall k :: 0 <= k < |assistants| ==> r[k] == assistants[k].id
  {
    seq(|assistants|, k requires 0 <= k < |assistants| => assistants[k].id)
  }

  /** The users offered: every user who is not an assistant yet, in order. Without an
      assistant list the `map` throws and nothing is offered. */
  function AvailableUsers(all: seq<UserRef>, ev: Event): (r: Option<seq<UserRef>>)
    ensures r.None? <==> ev.assistants.None?
    ensures r.Some? ==> forall k :: 0 <= k < |r.value| ==>
      r.value[k] in all &&
      forall j :: 0 <= j < |ev.assistants.value| ==> ev.assistants.value[j].id != r.value[k].id
    ensures r.Some? ==> forall k :: 0 <= k < |all| ==>
      (forall j :: 0 <= j < |ev.assistants.value| ==> ev.assistants.value[j].id != all[k].id) ==>
        all[k] in r.value
    ensures r.Some? ==>
      forall u {:trigger multiset(r.value)[u]} :: multiset(r.value)[u] ==
        if u.id !in AssistantIds(ev.assistants.value) then multiset(all)[u] else 0
    ensures r.Some? ==> Lists.SubsequenceOf(r.value, all)
  {
    if ev.assistants.None? then None
    else Some(UserSearch.WithoutIds(all, AssistantIds(ev.assistants.value)))
  }

  class AssistantPicker {
    const eventId: string
    var users: seq<UserRef>
    var filteredUsers: seq<UserRef>
    var searchText: string
    var isLoading: bool
    var error: Option<string>

    /** The search effect has run on the current list and text. */
    ghost predicate Valid()
      reads this
    {
      filteredUsers == UserSearch.SearchUsers(users, searchText)
    }

    constructor (eventId: string)
      ensures Valid() && this.eventId == eventId
      ensures users == [] && searchText == "" && isLoading && error == None
    {
      this.eventId := eventId;
      users, filteredUsers, searchText := [], [], "";
      isLoading, error := true, None;
    }

    /** `loadUsers()`: all users, then the event, then the users left once its assistants
        are taken out; either request failing, or a missing list, reports an error. */
    method LoadUsers(usersResponse: Call<seq<UserRef>>, eventResponse: Call<Event>)
      requires Valid()
      modifies this
      ensures Valid() && !isLoading && searchText == old(searchText)
      ensures usersResponse.Returned? && eventResponse.Returned? &&
              eventResponse.value.assistants.Some? ==>
                Some(users) == AvailableUsers(usersResponse.value, eventResponse.value) && error == old(error)
      ensures usersResponse.Threw? || eventResponse.Threw? || eventResponse.value.assistants.None? ==>
        users == old(users) && error == Some(LoadFailed)
    {
      isLoading := true;
      var available: Option<seq<UserRef>> := None;
      if usersResponse.Returned? && eventResponse.Returned? {
        available := AvailableUsers(usersResponse.value, eventResponse.value);
      }
      if available.Some? {
        users := available.value;
        filteredUsers := UserSearch.SearchUsers(users, searchText);
      } else {
        error := Some(LoadFailed);
      }
      isLoading := false;
    }

    /** Typing in the search box re-runs the search. */
    method SetSearchText(text: string)
      requires Valid()
      modifies this
      ensures Valid() && searchText == text
      ensures users == old(users) && isLoading == old(isLoading) && error == old(error)
    {
      searchText := text;
      filteredUsers := UserSearch.SearchUsers(users, searchText);
    }

    /** `handleAddAssistant(userId)`: asks the event context to add the user. The context
        reports failure by returning false, so the success alert shows either way. */
    method HandleAddAssistant(userId: string, provider: EventContext.EventProvider,
                              backendOk: bool, reload: Call<Option<Event>>)
      returns (alert: string)
      modifies provider
      ensures alert == AddedAlert
      ensures provider.events == old(provider.events) && provider.activities == old(provider.activities)
      ensures !backendOk ==> provider.error == Some(EventContext.ErrAddAssistant)
    {
      var added := provider.AddAssistant(eventId, userId, backendOk, reload);
      alert := AddedAlert;
    }
  }
}

/** `AddOperatorScreen`: the users that are not yet operators of the event, a search box
    over them, and the call that makes the chosen one an operator. */
module AddOperatorScreen {
  import opened Wrappers
  import opened Domain
  import Lists
  import UserSearch
  import EventContext

  const LoadFailed: string := "No se pudieron cargar los usuarios"
  const AddedAlert: string := "Operador añadido correctamente"

  /** `event.operators.map(op => op._id)`: the entries' own ids. */
  function OperatorIds(ops: seq<OperatorEntry>): (r: seq<string>)
    ensures |r| == |ops|
    ensures forall k :: 0 <= k < |ops| ==> r[k] == ops[k].id
  {
    seq(|ops|, k requires 0 <= k < |ops| => ops[k].id)
  }

  /** The users offered: every user whose id is no operator entry's id, in order. Without
      an operator list the `map` throws and nothing is offered. */
  function AvailableUsers(all: seq<UserRef>, ev: Event): (r: Option<seq<UserRef>>)
    ensures r.None? <==> ev.operators.None?
    ensures r.Some? ==> forall k :: 0 <= k < |r.value| ==>
      r.value[k] in all &&
      forall j :: 0 <= j < |ev.operators.value| ==> ev.operators.value[j].id != r.value[k].id
    ensures r.Some? ==> forall k :: 0 <= k < |all| ==>
      (forall j :: 0 <= j < |ev.operators.value| ==> ev.operators.value[j].id != all[k].id) ==>
        all[k] in r.value
    ensures r.Some? ==>
      forall u {:trigger multiset(r.value)[u]} :: multiset(r.value)[u] ==
        if u.id !in OperatorIds(ev.operators.value) then multiset(all)[u] else 0
    ensures r.Some? ==> Lists.SubsequenceOf(r.value, all)
  {
    if ev.operators.None? then None
    else Some(UserSearch.WithoutIds(all, OperatorIds(ev.operators.value)))
  }

  class OperatorPicker {
    const eventId: string
    var users: seq<UserRef>
    var filteredUsers: seq<UserRef>
    var searchText: string
    var isLoading: bool
    var error: Option<string>

    /** The search effect has run on the current list and text. */
    ghost predicate Valid()
      reads this
    {
      filteredUsers == UserSearch.SearchUsers(users, searchText)
    }

    constructor (eventId: string)
      ensures Valid() && this.eventId == eventId
      ensures users == [] && searchText == "" && isLoading && error == None
    {
      this.eventId := eventId;
      users, filteredUsers, searchText := [], [], "";
      isLoading, error := true, None;
    }

    /** `loadUsers()`: all users, then the event, then the users left once its operators are
        taken out; either request failing, or a missing operator list, reports an error. */
    method LoadUsers(usersResponse: Call<seq<UserRef>>, eventResponse: Call<Event>)
      requires Valid()
      modifies this
      ensures Valid() && !isLoading && searchText == old(searchText)
      ensures usersResponse.Returned? && eventResponse.Returned? &&
              eventResponse.value.operators.Some? ==>
                Some(users) == AvailableUsers(usersResponse.value, eventResponse.value) && error == old(error)
      ensures usersResponse.Threw? || eventResponse.Threw? || eventResponse.value.operators.None? ==>
        users == old(users) && error == Some(LoadFailed)
    {
      isLoading := true;
      var available: Option<seq<UserRef>> := None;
      if usersResponse.Returned? && eventResponse.Returned? {
        available := AvailableUsers(usersResponse.value, eventResponse.value);
      }
      if available.Some? {
        users := available.value;
        filteredUsers := UserSearch.SearchUsers(users, searchText);
      } else {
        error := Some(LoadFailed);
      }
      isLoading := false;
    }

    /** Typing in the search box re-runs the search. */
    method SetSearchText(text: string)
      requires Valid()
      modifies this
      ensures Valid() && searchText == text
      ensures users == old(users) && isLoading == old(isLoading) && error == old(error)
    {
      searchText := text;
      filteredUsers := UserSearch.SearchUsers(users, searchText);
    }

    /** `handleAddOperator(userId)`: asks the event context to add the user with the default
        role and no activities. The context reports failure by returning false rather than
        throwing, so the screen shows its success alert either way. */
    method HandleAddOperator(userId: string, provider: EventContext.EventProvider,
                             backendOk: bool, reload: Call<Option<Event>>)
      returns (sent: EventContext.OperatorRequest, alert: string)
      modifies provider
      ensures sent == EventContext.OperatorRequest(eventId, userId, "general", [])
      ensures alert == AddedAlert
      ensures provider.events == old(provider.events) && provider.activities == old(provider.activities)
      ensures !backendOk ==> provider.error == Some(EventContext.ErrAddOperator)
    {
      var added;
      sent, added := provider.AddOperator(eventId, userId, backendOk, reload);
      alert := AddedAlert;
    }
  }
}

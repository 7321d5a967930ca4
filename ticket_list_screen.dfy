/** `TicketListScreen`: the list of tickets with a search over the holder's name, the
    event's title and the ticket type. */
module TicketListScreen {
  import opened Wrappers
  import opened JsText
  import opened Domain
  import Lists
  import UserSearch

  const LoadFailed: string := "No se pudieron cargar los tickets. Inténtalo de nuevo."

  /** `field?.toLowerCase().includes(text.toLowerCase())`: a missing field is falsy. */
  predicate OptionalMatches(field: Option<string>, text: string) {
    field.Some? && UserSearch.MatchesText(field.value, text)
  }

  /** A ticket is kept when the text occurs in `user.name`, `event.title` or `type`. */
  predicate TicketMatchesText(t: Ticket, text: string) {
    OptionalMatches(if t.user.Some? then t.user.value.name else None, text) ||
    OptionalMatches(if t.event.Some? then t.event.value.title else None, text) ||
    OptionalMatches(t.kind, text)
  }

  function TicketMatches(text: string): Ticket -> bool {
    (t: Ticket) => TicketMatchesText(t, text)
  }

  /** The search effect: an empty text shows every ticket, any other text exactly the
      tickets it matches, each as often as it occurs, in their original order. */
  function SearchTickets(tickets: seq<Ticket>, text: string): (r: seq<Ticket>)
    ensures text == "" ==> r == tickets
    ensures text != "" ==> forall k :: 0 <= k < |r| ==> r[k] in tickets && TicketMatchesText(r[k], text)
    ensures text != "" ==> forall k :: 0 <= k < |tickets| && TicketMatchesText(tickets[k], text) ==>
      tickets[k] in r
    ensures text != "" ==>
      forall t {:trigger multiset(r)[t]} :: multiset(r)[t] ==
        if TicketMatchesText(t, text) then multiset(tickets)[t] else 0
    ensures Lists.SubsequenceOf(r, tickets)
  {
    if text == "" then
      Lists.FilterKeepsAll(tickets, (t: Ticket) => true);
      Lists.FilterIsSubsequence(tickets, (t: Ticket) => true);
      tickets
    else
      Lists.FilterIsSubsequence(tickets, TicketMatches(text));
      Lists.FilterCounts(tickets, TicketMatches(text));
      Lists.Filter(tickets, TicketMatches(text))
  }

  /** A ticket with no holder name, no event title and no type never survives a search. */
  lemma BareTicketNeverFound(tickets: seq<Ticket>, text: string, k: nat)
    requires text != "" && k < |tickets|
    requires tickets[k].user.None? || tickets[k].user.value.name.None?
    requires tickets[k].event.None? || tickets[k].event.value.title.None?
    requires tickets[k].kind.None?
    ensures tickets[k] !in SearchTickets(tickets, text)
  {
  }

  /** The search ignores the case of what is typed. */
  lemma {:induction false} TicketSearchIgnoresCase(tickets: seq<Ticket>, text: string)
    ensures SearchTickets(tickets, text) == SearchTickets(tickets, Lower(text))
  {
    if text != "" {
      assert Lower(text) != "" by { assert |Lower(text)| == |text|; }
      forall k | 0 <= k < |tickets|
        ensures TicketMatches(text)(tickets[k]) == TicketMatches(Lower(text))(tickets[k])
      {
        var t := tickets[k];
        if t.user.Some? && t.user.value.name.Some? {
          UserSearch.MatchIgnoresTextCase(t.user.value.name.value, text);
        }
        if t.event.Some? && t.event.value.title.Some? {
          UserSearch.MatchIgnoresTextCase(t.event.value.title.value, text);
        }
        if t.kind.Some? {
          UserSearch.MatchIgnoresTextCase(t.kind.value, text);
        }
      }
      Lists.FilterSameTest(tickets, TicketMatches(text), TicketMatches(Lower(text)));
    }
  }

  class TicketList {
    var tickets: seq<Ticket>
    var filteredTickets: seq<Ticket>
    var searchText: string
    var isLoading: bool
    var refreshing: bool
    var error: Option<string>

    /** The search effect has run on the current list and text. */
    ghost predicate Valid()
      reads this
    {
      filteredTickets == SearchTickets(tickets, searchText)
    }

    constructor ()
      ensures Valid()
      ensures tickets == [] && searchText == "" && isLoading && !refreshing && error == None
    {
      tickets, filteredTickets, searchText := [], [], "";
      isLoading, refreshing, error := true, false, None;
    }

    /** `loadTickets()`: on success the list is the response (and, with an empty search, so
        is the filtered list); on failure the list stays and the error is set. */
    method LoadTickets(response: Call<seq<Ticket>>)
      requires Valid()
      modifies this
      ensures Valid() && !isLoading && !refreshing && searchText == old(searchText)
      ensures response.Returned? ==> tickets == response.value && error == None
      ensures response.Returned? && searchText == "" ==> filteredTickets == response.value
      ensures response.Threw? ==> tickets == old(tickets) && error == Some(LoadFailed)
    {
      error := None;
      if !refreshing {
        isLoading := true;
      }
      match response {
      case Returned(data) =>
        tickets := data;
        filteredTickets := SearchTickets(tickets, searchText);
      case Threw(_) =>
        error := Some(LoadFailed);
      }
      isLoading := false;
      refreshing := false;
    }

    /** `handleRefresh()`: marks the list as refreshing and reloads it. */
    method HandleRefresh(response: Call<seq<Ticket>>)
      requires Valid()
      modifies this
      ensures Valid() && !isLoading && !refreshing && searchText == old(searchText)
      ensures response.Returned? ==> tickets == response.value && error == None
      ensures response.Threw? ==> tickets == old(tickets) && error == Some(LoadFailed)
    {
      refreshing := true;
      LoadTickets(response);
    }

    /** Typing in the search box re-runs the search. */
    method SetSearchText(text: string)
      requires Valid()
      modifies this
      ensures Valid() && searchText == text
      ensures tickets == old(tickets) && isLoading == old(isLoading) && error == old(error)
      ensures text == "" ==> filteredTickets == tickets
    {
      searchText := text;
      filteredTickets := SearchTickets(tickets, searchText);
    }
  }
}

/** The decisions `EventDetailScreen` takes from the signed-in user, the current event and
    its activities: who may edit, which tabs exist, what a tab shows, which buttons appear. */
module EventDetail {
  import opened Wrappers
  import opened Domain
  import Lists

  const PlaceholderImage: string := "https://via.placeholder.com/400x200?text=Evento"

  /** `isAdmin()` */
  predicate IsAdmin(user: Option<User>) {
    user.Some? && user.value.role == "admin"
  }

  /** The operator entry's own `_id` is the user's id: the test both permission checks use. */
  function EntryOf(userId: string): OperatorEntry -> bool {
    (op: OperatorEntry) => op.id == userId
  }

  /** `currentEvent.operators?.some(op => op._id === userData._id)`; a missing list is falsy. */
  predicate ListedOperator(u: User, ev: Event) {
    ev.operators.Some? && Lists.Any(ev.operators.value, EntryOf(u.id))
  }

  /** `isAdminOrOperator()`: an admin, or a user listed among the event's operators. */
  function IsAdminOrOperator(user: Option<User>, ev: Option<Event>): (r: bool)
    ensures user.None? ==> !r
    ensures IsAdmin(user) ==> r
    ensures r && !IsAdmin(user) ==>
      ev.Some? && ev.value.operators.Some? &&
      exists k :: 0 <= k < |ev.value.operators.value| && ev.value.operators.value[k].id == user.value.id
    ensures user.Some? && ev.Some? && ev.value.operators.Some? ==>
      (exists k :: 0 <= k < |ev.value.operators.value| && ev.value.operators.value[k].id == user.value.id) ==>
        r
  {
    if user.None? then false
    else if user.value.role == "admin" then true
    else if ev.Some? && ev.value.operators.Some? then Lists.Any(ev.value.operators.value, EntryOf(user.value.id))
    else false
  }

  /** `canEditEvent()`: an admin, or a user with the operator permission who is also listed
      among the event's operators. Both the user and the event must be present. */
  function CanEditEvent(user: Option<User>, ev: Option<Event>): (r: bool)
    ensures user.None? || ev.None? ==> !r
    ensures ev.Some? && IsAdmin(user) ==> r
    ensures r ==> IsAdminOrOperator(user, ev)
    ensures r && !IsAdmin(user) ==> IsOperatorFlag(user.value) && ListedOperator(user.value, ev.value)
    ensures user.Some? && ev.Some? && IsOperatorFlag(user.value) && ListedOperator(user.value, ev.value) ==> r
  {
    if user.None? || ev.None? then false
    else user.value.role == "admin" || (IsOperatorFlag(user.value) && ListedOperator(user.value, ev.value))
  }

  /** Being listed is enough for `isAdminOrOperator` but not for `canEditEvent`: a listed
      user without the operator permission sees the management tabs yet cannot edit. */
  lemma ListedWithoutPermissionCannotEdit(u: User, ev: Event)
    requires u.role != "admin" && !IsOperatorFlag(u)
    requires ListedOperator(u, ev)
    ensures IsAdminOrOperator(Some(u), Some(ev))
    ensures !CanEditEvent(Some(u), Some(ev))
  {
  }

  /** `isAdminOrOperator` ignores the permission flags altogether. */
  lemma AdminOrOperatorIgnoresPermissions(u: User, p: Option<Permissions>, ev: Option<Event>)
    ensures IsAdminOrOperator(Some(u), ev) == IsAdminOrOperator(Some(u.(permissions := p)), ev)
  {
  }

  /** A tab of `renderTabs`. */
  datatype Tab = Tab(id: string, title: string)

  const ManagementTabs: seq<Tab> :=
    [Tab("operators", "Operadores"), Tab("assistants", "Asistentes"), Tab("tickets", "Tickets")]

  /** `renderTabs()`: the information tab, one tab per activity in list order, then the
      three management tabs exactly when the user is an admin or a listed operator. */
  method Tabs(user: Option<User>, ev: Option<Event>, activities: seq<Activity>) returns (tabs: seq<Tab>)
    ensures |tabs| == 1 + |activities| + (if IsAdminOrOperator(user, ev) then |ManagementTabs| else 0)
    ensures tabs[0] == Tab("event", "Información")
    ensures forall k :: 0 <= k < |activities| ==>
      tabs[1 + k].id == activities[k].id &&
      tabs[1 + k].title == (if activities[k].title.Some? && !Falsy(activities[k].title.value)
                            then activities[k].title.value else "Actividad")
    ensures IsAdminOrOperator(user, ev) ==> tabs[1 + |activities|..] == ManagementTabs
  {
    tabs := [Tab("event", "Información")];
    var i := 0;
    while i < |activities|
      invariant 0 <= i <= |activities|
      invariant |tabs| == 1 + i && tabs[0] == Tab("event", "Información")
      invariant forall k :: 0 <= k < i ==>
        tabs[1 + k].id == activities[k].id &&
        tabs[1 + k].title == (if activities[k].title.Some? && !Falsy(activities[k].title.value)
                              then activities[k].title.value else "Actividad")
    {
      var a := activities[i];
      var title := if a.title.Some? && !Falsy(a.title.value) then a.title.value else "Actividad";
      tabs := tabs + [Tab(a.id, title)];
      i := i + 1;
    }
    if IsAdminOrOperator(user, ev) {
      tabs := tabs + ManagementTabs;
    }
  }

  /** The four tab ids `renderContent` and `renderActionButtons` test before activities. */
  predicate IsFixedTab(id: string) {
    id == "event" || id == "operators" || id == "assistants" || id == "tickets"
  }

  function ActivityWithId(id: string): Activity -> bool {
    (a: Activity) => a.id == id
  }

  /** What `renderContent()` shows. */
  datatype Content = EventInfo | ActivityInfo(activity: Activity) | OperatorList | AssistantList | TicketList

  /** `renderContent()`: an id that is not a fixed tab shows the first activity carrying it;
      an unknown id falls back to the event information. */
  function RenderContent(selected: string, activities: seq<Activity>): (c: Content)
    ensures c.ActivityInfo? <==> !IsFixedTab(selected) && Lists.Any(activities, ActivityWithId(selected))
    ensures c.ActivityInfo? ==>
      c.activity.id == selected &&
      exists k :: 0 <= k < |activities| && activities[k] == c.activity &&
                  forall j :: 0 <= j < k ==> activities[j].id != selected
    ensures c == EventInfo <==>
      selected == "event" || (!IsFixedTab(selected) && !Lists.Any(activities, ActivityWithId(selected)))
    ensures c == OperatorList <==> selected == "operators"
    ensures c == AssistantList <==> selected == "assistants"
    ensures c == TicketList <==> selected == "tickets"
  {
    var found := Lists.FindIndex(activities, ActivityWithId(selected));
    if !IsFixedTab(selected) && found.Some? then ActivityInfo(activities[found.value])
    else if selected == "operators" then OperatorList
    else if selected == "assistants" then AssistantList
    else if selected == "tickets" then TicketList
    else EventInfo
  }

  /** An activity whose `_id` is one of the fixed tab ids gets a tab but is never shown. */
  lemma ShadowedActivityNeverShown(selected: string, activities: seq<Activity>)
    requires IsFixedTab(selected)
    ensures !RenderContent(selected, activities).ActivityInfo?
  {
  }

  /** A button of `renderActionButtons()`. */
  datatype ActionButton = EditEventButton | DeleteEventButton | EditActivityButton | DeleteActivityButton

  /** `renderActionButtons()`: nothing (`null`) unless the user may edit the event; the
      delete buttons only for admins. */
  function ActionButtons(user: Option<User>, ev: Option<Event>, selected: string): (r: Option<seq<ActionButton>>)
    ensures r.Some? <==> CanEditEvent(user, ev)
    ensures r.Some? && (DeleteEventButton in r.value || DeleteActivityButton in r.value) ==> IsAdmin(user)
    ensures r.Some? && selected == "event" ==>
      EditEventButton in r.value && (DeleteEventButton in r.value <==> IsAdmin(user)) &&
      EditActivityButton !in r.value && DeleteActivityButton !in r.value
    ensures r.Some? && !IsFixedTab(selected) ==>
      EditActivityButton in r.value && (DeleteActivityButton in r.value <==> IsAdmin(user)) &&
      EditEventButton !in r.value && DeleteEventButton !in r.value
    ensures r.Some? && IsFixedTab(selected) && selected != "event" ==> r.value == []
  {
    if !CanEditEvent(user, ev) then None
    else if selected == "event" then
      Some([EditEventButton] + (if IsAdmin(user) then [DeleteEventButton] else []))
    else if !IsFixedTab(selected) then
      Some([EditActivityButton] + (if IsAdmin(user) then [DeleteActivityButton] else []))
    else Some([])
  }

  function TicketForEvent(eventId: string): Ticket -> bool {
    (t: Ticket) => t.event.Some? && t.event.value.id == eventId
  }

  /** `fetchUserTicketsForEvent()`: the user's tickets whose populated event is this one,
      each as often as it occurs, in their original order. */
  function UserTicketsForEvent(tickets: seq<Ticket>, eventId: string): (r: seq<Ticket>)
    ensures forall k :: 0 <= k < |r| ==> r[k] in tickets && r[k].event.Some? && r[k].event.value.id == eventId
    ensures forall k :: 0 <= k < |tickets| && tickets[k].event.Some? && tickets[k].event.value.id == eventId ==>
      tickets[k] in r
    ensures
      forall t {:trigger multiset(r)[t]} :: multiset(r)[t] ==
        if t.event.Some? && t.event.value.id == eventId then multiset(tickets)[t] else 0
    ensures Lists.SubsequenceOf(r, tickets)
  {
    Lists.FilterIsSubsequence(tickets, TicketForEvent(eventId));
    Lists.FilterCounts(tickets, TicketForEvent(eventId));
    Lists.Filter(tickets, TicketForEvent(eventId))
  }

  /** The header image `uri`: the main image cached on the device, else the event's own
      `mainImage`, else the placeholder; an empty string counts as missing. */
  function HeaderImage(local: Option<string>, ev: Option<Event>): (r: string)
    ensures r != ""
    ensures local.Some? && !Falsy(local.value) ==> r == local.value
    ensures (local.None? || Falsy(local.value)) &&
            ev.Some? && ev.value.mainImage.Some? && !Falsy(ev.value.mainImage.value) ==>
              r == ev.value.mainImage.value
    ensures r == PlaceholderImage ||
      (local.Some? && r == local.value) ||
      (ev.Some? && ev.value.mainImage.Some? && r == ev.value.mainImage.value)
  {
    if local.Some? && !Falsy(local.value) then local.value
    else if ev.Some? && ev.value.mainImage.Some? && !Falsy(ev.value.mainImage.value) then ev.value.mainImage.value
    else PlaceholderImage
  }

  /** `confirmRemoveOperator(operator)`: the id handed to `removeOperator` is that of the
      entry's populated `user`, not the entry's own `_id`; without one nothing is removed. */
  function OperatorRemovalTarget(op: OperatorEntry): (r: Option<string>)
    ensures r.None? <==> op.user.None? || Falsy(op.user.value.id)
    ensures r.Some? ==> r.value == op.user.value.id
  {
    if op.user.Some? && !Falsy(op.user.value.id) then Some(op.user.value.id) else None
  }

  /** The id removal uses can differ from the id the permission checks matched: an entry
      `{ _id: "e1", user: { _id: "u1" } }` lets user "e1" edit but removes user "u1". */
  lemma RemovalTargetIsNotPermissionId()
    ensures var op := OperatorEntry("e1", Some(UserRef("u1", "Ana", "ana@example.com")));
      EntryOf("e1")(op) && OperatorRemovalTarget(op) == Some("u1")
  {
  }
}

/** The backend records the client receives and keeps in its state. A field the backend
    may omit is an `Option`: `None` stands for JavaScript's `undefined`. */
module Domain {
  import opened Wrappers

  /** `userData.permissions` */
  datatype Permissions = Permissions(isOperator: bool, isAssistant: bool)

  /** The signed-in user, `userData` of the authentication context. */
  datatype User = User(id: string, name: string, email: string, role: string,
                       permissions: Option<Permissions>)

  /** A user as listed by `/users` and as an event's assistant: `_id`, `name`, `email`. */
  datatype UserRef = UserRef(id: string, name: string, email: string)

  /** An entry of `event.operators`. Its own `_id` and the `_id` of its populated `user`
      are two different fields: the permission checks read the first, removal the second. */
  datatype OperatorEntry = OperatorEntry(id: string, user: Option<UserRef>)

  datatype Event = Event(id: string, title: Option<string>, mainImage: Option<string>,
                         operators: Option<seq<OperatorEntry>>,
                         assistants: Option<seq<UserRef>>)

  datatype Activity = Activity(id: string, title: Option<string>,
                               capacity: Option<int>, seatsOccupied: Option<int>,
                               witnesses: Option<seq<UserRef>>,
                               event: Option<Event>)

  /** `ticket.user`, `ticket.event` as populated in ticket lists. */
  datatype TicketUser = TicketUser(id: string, name: Option<string>)
  datatype TicketEvent = TicketEvent(id: string, title: Option<string>)
  datatype Ticket = Ticket(id: string, user: Option<TicketUser>, event: Option<TicketEvent>,
                           kind: Option<string>)

  /** A rating as returned for an activity: `calificator` is the populated author. */
  datatype Rating = Rating(id: string, calificator: Option<UserRef>, calification: int)

  function EventIdOf(e: Event): string { e.id }
  function ActivityIdOf(a: Activity): string { a.id }

  /** `!x`, for a string: the empty string is falsy. */
  predicate Falsy(s: string) { s == "" }

  /** `userData.permissions?.isOperator`, read as a boolean. */
  predicate IsOperatorFlag(u: User) {
    u.permissions.Some? && u.permissions.value.isOperator
  }
}

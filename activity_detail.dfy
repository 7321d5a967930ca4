/** The decisions `ActivityDetailScreen` takes: who may edit an activity, the seat counter
    and its buttons, witness registration and the user's own rating. */
module ActivityDetail {
  import opened Wrappers
  import opened Domain
  import Lists
  import EventDetail

  /** `activity.event && activity.event.operators`: the activity carries its event's
      operator list. */
  predicate HasNestedOperators(a: Activity) {
    a.event.Some? && a.event.value.operators.Some?
  }

  /** `canEditActivity()`: with the event's operators at hand, the event's own rule (admin,
      or operator permission and listed); without them, admin or operator permission. */
  function CanEditActivity(user: Option<User>, activity: Option<Activity>): (r: bool)
    ensures user.None? || activity.None? ==> !r
    ensures activity.Some? && HasNestedOperators(activity.value) ==>
      r == EventDetail.CanEditEvent(user, activity.value.event)
    ensures user.Some? && activity.Some? && !HasNestedOperators(activity.value) ==>
      (r <==> EventDetail.IsAdmin(user) || IsOperatorFlag(user.value))
  {
    if user.None? || activity.None? then false
    else
      var u := user.value;
      var a := activity.value;
      if HasNestedOperators(a) then
        u.role == "admin" || (IsOperatorFlag(u) && Lists.Any(a.event.value.operators.value, EventDetail.EntryOf(u.id)))
      else u.role == "admin" || IsOperatorFlag(u)
  }

  /** Without the nested operator list the operator permission alone lets a user edit any
      activity, although the same user may not edit the activity's event. */
  lemma PermissionAloneEditsUnlinkedActivity(u: User, a: Activity, ev: Event)
    requires u.role != "admin" && IsOperatorFlag(u)
    requires a.event.None?
    requires !EventDetail.ListedOperator(u, ev)
    ensures CanEditActivity(Some(u), Some(a))
    ensures !EventDetail.CanEditEvent(Some(u), Some(ev))
  {
  }

  /** `x || 0` for a count the backend may omit (a missing count and 0 are both falsy). */
  function OrZero(n: Option<int>): int {
    if n.Some? then n.value else 0
  }

  /** `seatsAvailable`: capacity minus occupied seats, each missing count read as 0,
      with no clamping. */
  function SeatsAvailable(a: Activity): int {
    OrZero(a.capacity) - OrZero(a.seatsOccupied)
  }

  /** Nothing clamps the difference: with both counts present, the count shown is negative
      exactly when the activity is over-occupied, and then by the excess. */
  lemma SeatsAvailableCanBeNegative(a: Activity)
    requires a.capacity.Some? && a.seatsOccupied.Some?
    ensures SeatsAvailable(a) < 0 <==> a.seatsOccupied.value > a.capacity.value
    ensures SeatsAvailable(a) < 0 ==> -SeatsAvailable(a) == a.seatsOccupied.value - a.capacity.value
  {
  }

  /** `disabled={activity.seatsOccupied <= 0 || isLoading}`. A missing count compares as
      `NaN`, so `undefined <= 0` is false and does not disable the button. */
  predicate DecrementDisabled(a: Activity, loading: bool) {
    (a.seatsOccupied.Some? && a.seatsOccupied.value <= 0) || loading
  }

  /** `disabled={activity.seatsOccupied >= activity.capacity || isLoading}`, with the same
      reading of a missing count. */
  predicate IncrementDisabled(a: Activity, loading: bool) {
    (a.seatsOccupied.Some? && a.capacity.Some? && a.seatsOccupied.value >= a.capacity.value) || loading
  }

  /** With both counts present and nothing loading, increment is enabled exactly when a seat
      is available and decrement exactly when a seat is occupied; so an enabled button keeps
      the count within `0..capacity` after one step. */
  lemma SeatButtonBounds(a: Activity)
    requires a.capacity.Some? && a.seatsOccupied.Some?
    ensures !IncrementDisabled(a, false) <==> SeatsAvailable(a) > 0
    ensures !DecrementDisabled(a, false) <==> a.seatsOccupied.value > 0
    ensures !IncrementDisabled(a, false) ==> a.seatsOccupied.value + 1 <= a.capacity.value
    ensures !DecrementDisabled(a, false) ==> a.seatsOccupied.value - 1 >= 0
  {
  }

  /** While loading both buttons are disabled. */
  lemma LoadingDisablesSeatButtons(a: Activity)
    ensures DecrementDisabled(a, true) && IncrementDisabled(a, true)
  {
  }

  /** With a count missing, neither button is disabled by the comparison. */
  lemma MissingCountsEnableSeatButtons(a: Activity)
    requires a.seatsOccupied.None?
    ensures !DecrementDisabled(a, false) && !IncrementDisabled(a, false)
  {
  }

  function UserRefWithId(id: string): UserRef -> bool {
    (w: UserRef) => w.id == id
  }

  /** `isWitness`: the user appears among the activity's witnesses. */
  function IsWitness(u: User, a: Activity): (r: bool)
    ensures r <==>
              a.witnesses.Some? &&
              exists k :: 0 <= k < |a.witnesses.value| && a.witnesses.value[k].id == u.id
  {
    a.witnesses.Some? && Lists.Any(a.witnesses.value, UserRefWithId(u.id))
  }

  /** The "Registrarme como testigo" button is shown exactly when the user is no witness. */
  predicate ShowRegisterButton(u: User, a: Activity) {
    !IsWitness(u, a)
  }

  /** Once the backend has added the user to the witnesses, the register button disappears;
      other witnesses added do not hide it. */
  lemma {:induction false} RegisteringHidesButton(u: User, a: Activity, w: UserRef)
    requires a.witnesses.Some?
    ensures w.id == u.id ==>
      !ShowRegisterButton(u, a.(witnesses := Some(a.witnesses.value + [w])))
    ensures w.id != u.id ==>
      ShowRegisterButton(u, a.(witnesses := Some(a.witnesses.value + [w]))) == ShowRegisterButton(u, a)
  {
    var ws := a.witnesses.value + [w];
    assert ws[|a.witnesses.value|] == w;
    assert forall k :: 0 <= k < |a.witnesses.value| ==> ws[k] == a.witnesses.value[k];
  }

  function RatedBy(userId: string): Rating -> bool {
    (rating: Rating) => rating.calificator.Some? && rating.calificator.value.id == userId
  }

  /** `fetchUserRating()`: the user's rating becomes the `calification` of the first rating
      whose author is the user; when there is none, or the request fails, it stays as it was. */
  function UserRatingAfterFetch(current: int, u: User, response: Call<seq<Rating>>): (r: int)
    ensures response.Threw? ==> r == current
    ensures response.Returned? && !Lists.Any(response.value, RatedBy(u.id)) ==> r == current
    ensures response.Returned? && Lists.Any(response.value, RatedBy(u.id)) ==>
      exists k :: 0 <= k < |response.value| &&
        response.value[k].calificator.Some? && response.value[k].calificator.value.id == u.id &&
        r == response.value[k].calification &&
        forall j :: 0 <= j < k ==> !RatedBy(u.id)(response.value[j])
  {
    match response
    case Threw(_) => current
    case Returned(ratings) =>
      var found := Lists.FindIndex(ratings, RatedBy(u.id));
      if found.Some? then ratings[found.value].calification else current
  }
}

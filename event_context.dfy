/** The event/activity cache of `EventProvider`: the lists and flags it keeps consistent
    around each backend call. Each backend call is an oracle that returns or throws. */
module EventContext {
  import opened Wrappers
  import opened Domain
  import JsText
  import Lists
  import PhotoService

  const ErrLoadEvents: string := "Error al cargar los eventos"
  const ErrGetEvent: string := "Error al obtener la información del evento"
  const ErrEventIdMissing: string := "ID de evento no proporcionado"
  const ErrEventNotFound: string := "No se encontró el evento"
  const ErrLoadEvent: string := "Error al cargar el evento"
  const ErrLoadActivities: string := "Error al cargar actividades"
  const ErrCreateEvent: string := "Error al crear el evento"
  const ErrUpdateEvent: string := "Error al actualizar el evento"
  const ErrDeleteEvent: string := "Error al eliminar el evento"
  const ErrCreateActivity: string := "Error al crear la actividad"
  const ErrUpdateActivity: string := "Error al actualizar la actividad"
  const ErrDeleteActivity: string := "Error al eliminar la actividad"
  const ErrAddOperator: string := "Error al añadir el operador"
  const ErrAddAssistant: string := "Error al añadir el asistente"
  const ErrRemoveOperator: string := "Error al eliminar el operador"
  const ErrRemoveAssistant: string := "Error al eliminar el asistente"

  /** The arguments `addOperator` hands to the backend. */
  datatype OperatorRequest = OperatorRequest(eventId: string, userId: string, role: string,
                                             activities: seq<string>)

  /** `currentEvent` after the event `eventId` was updated to `updated`: replaced only when
      it is that event. */
  function CurrentAfterUpdate(current: Option<Event>, eventId: string, updated: Event): (r: Option<Event>)
    ensures r.Some? <==> current.Some?
    ensures r != current ==> r == Some(updated) && current.value.id == eventId
    ensures current.Some? && current.value.id == eventId ==> r == Some(updated)
  {
    if current.Some? && current.value.id == eventId then Some(updated) else current
  }

  /** `currentEvent` after the event `eventId` was deleted: cleared exactly when it is that
      event. */
  function CurrentAfterDelete(current: Option<Event>, eventId: string): (r: Option<Event>)
    ensures r.None? <==> current.None? || current.value.id == eventId
    ensures r.Some? ==> r == current
  {
    if current.Some? && current.value.id == eventId then None else current
  }

  class EventProvider {
    var events: seq<Event>
    var currentEvent: Option<Event>
    var activities: seq<Activity>
    var isLoading: bool
    var error: Option<string>
    /** The photo store the main image of a new event goes to. */
    const photos: PhotoService.PhotoStore

    ghost predicate Valid()
      reads this, photos
    {
      photos.Valid()
    }

    /** The provider's initial state. */
    constructor (photos: PhotoService.PhotoStore)
      requires photos.Valid()
      ensures Valid() && this.photos == photos
      ensures events == [] && currentEvent == None && activities == []
      ensures !isLoading && error == None
    {
      this.photos := photos;
      events, currentEvent, activities := [], None, [];
      isLoading, error := false, None;
    }

    /** `fetchEvents()`: the whole list, or `[]` and an error when the call fails. */
    method FetchEvents(response: Call<seq<Event>>) returns (r: seq<Event>)
      modifies this
      ensures currentEvent == old(currentEvent) && activities == old(activities) && !isLoading
      ensures response.Returned? ==> r == response.value && events == r && error == None
      ensures response.Threw? ==> r == [] && events == old(events) && error == Some(ErrLoadEvents)
    {
      isLoading := true;
      error := None;
      match response {
      case Threw(_) =>
        error := Some(ErrLoadEvents);
        r := [];
      case Returned(data) =>
        events := data;
        r := data;
      }
      isLoading := false;
    }

    /** `fetchEvent(eventId)` */
    method FetchEvent(eventId: string, response: Call<Option<Event>>) returns (r: Option<Event>)
      modifies this
      ensures events == old(events) && activities == old(activities) && !isLoading
      ensures Falsy(eventId) ==>
        r == None && error == Some(ErrEventIdMissing) && currentEvent == old(currentEvent)
      ensures !Falsy(eventId) && response == Returned(None) ==>
        r == None && error == Some(ErrEventNotFound) && currentEvent == old(currentEvent)
      ensures !Falsy(eventId) && response.Returned? && response.value.Some? ==>
        r == response.value && currentEvent == response.value && error == None
      ensures !Falsy(eventId) && response.Threw? ==>
        r == None && error == Some(ErrLoadEvent) && currentEvent == old(currentEvent)
    {
      isLoading := true;
      error := None;
      if Falsy(eventId) {
        error := Some(ErrEventIdMissing);
        r := None;
      } else {
        match response {
        case Threw(_) =>
          error := Some(ErrLoadEvent);
          r := None;
        case Returned(data) =>
          if data.None? {
            error := Some(ErrEventNotFound);
            r := None;
          } else {
            currentEvent := data;
            r := data;
          }
        }
      }
      isLoading := false;
    }

    /** `fetchActivities(eventId)`: a 404 means "no activities yet" and is not an error. */
    method FetchActivities(eventId: string, response: Call<Option<seq<Activity>>>)
      modifies this
      ensures events == old(events) && currentEvent == old(currentEvent) && isLoading == old(isLoading)
      ensures Falsy(eventId) ==> activities == old(activities) && error == old(error)
      ensures !Falsy(eventId) && response.Returned? ==>
        activities == (if response.value.Some? then response.value.value else []) && error == old(error)
      ensures !Falsy(eventId) && response == Threw(Some(404)) ==>
        activities == [] && error == old(error)
      ensures !Falsy(eventId) && response.Threw? && response.status != Some(404) ==>
        activities == [] && error == Some(ErrLoadActivities)
    {
      if Falsy(eventId) {
        return;
      }
      match response {
      case Returned(list) =>
        activities := if list.Some? then list.value else [];
      case Threw(status) =>
        if status == Some(404) {
          activities := [];
        } else {
          error := Some(ErrLoadActivities);
          activities := [];
        }
      }
    }

    /** `getEvent(eventId)`: reads an event without caching it; only a failed call touches
        the state, by setting `error`. */
    method GetEvent(eventId: string, response: Call<Option<Event>>) returns (r: Option<Event>)
      modifies this
      ensures events == old(events) && currentEvent == old(currentEvent)
      ensures activities == old(activities) && isLoading == old(isLoading)
      ensures Falsy(eventId) ==> r == None && error == old(error)
      ensures !Falsy(eventId) && response.Returned? ==> r == response.value && error == old(error)
      ensures !Falsy(eventId) && response.Threw? ==> r == None && error == Some(ErrGetEvent)
    {
      if Falsy(eventId) {
        return None;
      }
      match response {
      case Threw(_) =>
        error := Some(ErrGetEvent);
        r := None;
      case Returned(data) =>
        r := data;
      }
    }

    /** `createEvent(eventData, mainImage, logo)`: prepends the created event. A main image
        is stored through the photo store when given and the event has an id; its failure
        is swallowed. The logo call goes to `photoService.setLogo`, which does not exist:
        it throws and the handler swallows it, so a logo changes nothing. */
    method CreateEvent(response: Call<Event>, mainImage: Option<PhotoService.Io>, logo: bool)
      returns (r: Option<Event>)
      requires Valid()
      modifies this, photos
      ensures Valid()
      ensures currentEvent == old(currentEvent) && activities == old(activities) && !isLoading
      ensures response.Returned? ==>
        r == Some(response.value) && events == [response.value] + old(events) && error == None
      ensures response.Threw? ==>
        r == None && events == old(events) && error == Some(ErrCreateEvent)
      ensures response.Threw? || mainImage.None? || Falsy(response.value.id) ==>
        photos.store == old(photos.store)
      ensures response.Returned? && mainImage.Some? && !Falsy(response.value.id) ==>
        var io := mainImage.value;
        var key := PhotoService.MainImageKey("Event", response.value.id);
        if io.base64.Some? && io.storageOk
        then photos.store == old(photos.store)[key := PhotoService.MainImage(PhotoService.ImageRecord(
               "Event", response.value.id, PhotoService.JpegDataUriPrefix + io.base64.value,
               JsText.Lower("Event") + "_main_image_" + io.nameMillis + ".jpg", io.isoDate))]
        else photos.store == old(photos.store)
    {
      isLoading := true;
      error := None;
      match response {
      case Threw(_) =>
        error := Some(ErrCreateEvent);
        r := None;
      case Returned(newEvent) =>
        if mainImage.Some? && !Falsy(newEvent.id) {
          var stored := photos.SetMainImage("Event", newEvent.id, mainImage.value);
        }
        if logo && !Falsy(newEvent.id) {
          // `photoService.setLogo` is undefined: calling it throws, and the error is swallowed.
        }
        events := [newEvent] + events;
        r := Some(newEvent);
      }
      isLoading := false;
    }

    /** `updateEvent(eventId, eventData)`: replaces the event in the list and, when it is the
        current one, `currentEvent`. */
    method UpdateEvent(eventId: string, response: Call<Event>) returns (r: Option<Event>)
      modifies this
      ensures activities == old(activities) && !isLoading
      ensures response.Returned? ==>
        r == Some(response.value) && error == None &&
        events == Lists.ReplaceById(old(events), EventIdOf, eventId, response.value) &&
        currentEvent == CurrentAfterUpdate(old(currentEvent), eventId, response.value)
      ensures response.Threw? ==>
        r == None && error == Some(ErrUpdateEvent) &&
        events == old(events) && currentEvent == old(currentEvent)
    {
      isLoading := true;
      error := None;
      match response {
      case Threw(_) =>
        error := Some(ErrUpdateEvent);
        r := None;
      case Returned(updated) =>
        currentEvent := CurrentAfterUpdate(currentEvent, eventId, updated);
        if |events| > 0 {
          events := Lists.ReplaceById(events, EventIdOf, eventId, updated);
        }
        r := Some(updated);
      }
      isLoading := false;
    }

    /** `deleteEvent(eventId)` */
    method DeleteEvent(eventId: string, backendOk: bool) returns (r: bool)
      modifies this
      ensures activities == old(activities) && !isLoading
      ensures r == backendOk
      ensures backendOk ==>
        error == None && events == Lists.RemoveById(old(events), EventIdOf, eventId) &&
        currentEvent == CurrentAfterDelete(old(currentEvent), eventId)
      ensures !backendOk ==>
        error == Some(ErrDeleteEvent) && events == old(events) && currentEvent == old(currentEvent)
    {
      isLoading := true;
      error := None;
      if backendOk {
        events := Lists.RemoveById(events, EventIdOf, eventId);
        currentEvent := CurrentAfterDelete(currentEvent, eventId);
        r := true;
      } else {
        error := Some(ErrDeleteEvent);
        r := false;
      }
      isLoading := false;
    }

    /** `createActivity(eventId, activityData)`: appends the created activity. */
    method CreateActivity(eventId: string, response: Call<Activity>) returns (r: Option<Activity>)
      modifies this
      ensures events == old(events) && currentEvent == old(currentEvent) && !isLoading
      ensures response.Returned? ==>
        r == Some(response.value) && error == None && activities == old(activities) + [response.value]
      ensures response.Threw? ==>
        r == None && error == Some(ErrCreateActivity) && activities == old(activities)
    {
      isLoading := true;
      error := None;
      match response {
      case Threw(_) =>
        error := Some(ErrCreateActivity);
        r := None;
      case Returned(created) =>
        activities := activities + [created];
        r := Some(created);
      }
      isLoading := false;
    }

    /** `updateActivity(activityId, activityData)` */
    method UpdateActivity(activityId: string, response: Call<Activity>) returns (r: Option<Activity>)
      modifies this
      ensures events == old(events) && currentEvent == old(currentEvent) && !isLoading
      ensures response.Returned? ==>
        r == Some(response.value) && error == None &&
        activities == Lists.ReplaceById(old(activities), ActivityIdOf, activityId, response.value)
      ensures response.Threw? ==>
        r == None && error == Some(ErrUpdateActivity) && activities == old(activities)
    {
      isLoading := true;
      error := None;
      match response {
      case Threw(_) =>
        error := Some(ErrUpdateActivity);
        r := None;
      case Returned(updated) =>
        activities := Lists.ReplaceById(activities, ActivityIdOf, activityId, updated);
        r := Some(updated);
      }
      isLoading := false;
    }

    /** `deleteActivity(activityId)` */
    method DeleteActivity(activityId: string, backendOk: bool) returns (r: bool)
      modifies this
      ensures events == old(events) && currentEvent == old(currentEvent) && !isLoading
      ensures r == backendOk
      ensures backendOk ==>
        error == None && activities == Lists.RemoveById(old(activities), ActivityIdOf, activityId)
      ensures !backendOk ==> error == Some(ErrDeleteActivity) && activities == old(activities)
    {
      isLoading := true;
      error := None;
      if backendOk {
        activities := Lists.RemoveById(activities, ActivityIdOf, activityId);
        r := true;
      } else {
        error := Some(ErrDeleteActivity);
        r := false;
      }
      isLoading := false;
    }

    /** `addOperator(eventId, userId)` with its defaults: role "general", no activities.
        On success the event is reloaded with `fetchEvent`: its failure leaves the current
        event and sets `fetchEvent`'s message, yet the call still reports success. */
    method AddOperator(eventId: string, userId: string, backendOk: bool, reload: Call<Option<Event>>)
      returns (sent: OperatorRequest, r: bool)
      modifies this
      ensures sent == OperatorRequest(eventId, userId, "general", [])
      ensures r == backendOk
      ensures events == old(events) && activities == old(activities)
      ensures !backendOk ==>
        error == Some(ErrAddOperator) && currentEvent == old(currentEvent) && isLoading == old(isLoading)
      ensures backendOk ==> !isLoading
      ensures backendOk && !Falsy(eventId) && reload.Returned? && reload.value.Some? ==>
        currentEvent == reload.value && error == None
      ensures backendOk && Falsy(eventId) ==>
        currentEvent == old(currentEvent) && error == Some(ErrEventIdMissing)
      ensures backendOk && !Falsy(eventId) && reload == Returned(None) ==>
        currentEvent == old(currentEvent) && error == Some(ErrEventNotFound)
      ensures backendOk && !Falsy(eventId) && reload.Threw? ==>
        currentEvent == old(currentEvent) && error == Some(ErrLoadEvent)
    {
      sent := OperatorRequest(eventId, userId, "general", []);
      if backendOk {
        var reloaded := FetchEvent(eventId, reload);
        r := true;
      } else {
        error := Some(ErrAddOperator);
        r := false;
      }
    }

    /** `addAssistant(eventId, userId)`: like `addOperator`, without role or activities. */
    method AddAssistant(eventId: string, userId: string, backendOk: bool, reload: Call<Option<Event>>)
      returns (r: bool)
      modifies this
      ensures r == backendOk
      ensures events == old(events) && activities == old(activities)
      ensures !backendOk ==>
        error == Some(ErrAddAssistant) && currentEvent == old(currentEvent) && isLoading == old(isLoading)
      ensures backendOk ==> !isLoading
      ensures backendOk && !Falsy(eventId) && reload.Returned? && reload.value.Some? ==>
        currentEvent == reload.value && error == None
      ensures backendOk && Falsy(eventId) ==>
        currentEvent == old(currentEvent) && error == Some(ErrEventIdMissing)
      ensures backendOk && !Falsy(eventId) && reload == Returned(None) ==>
        currentEvent == old(currentEvent) && error == Some(ErrEventNotFound)
      ensures backendOk && !Falsy(eventId) && reload.Threw? ==>
        currentEvent == old(currentEvent) && error == Some(ErrLoadEvent)
    {
      if backendOk {
        var reloaded := FetchEvent(eventId, reload);
        r := true;
      } else {
        error := Some(ErrAddAssistant);
        r := false;
      }
    }

    /** `removeOperator(eventId, userId)`: the backend call, then a reload of the event. */
    method RemoveOperator(eventId: string, userId: string, backendOk: bool, reload: Call<Option<Event>>)
      returns (r: bool)
      modifies this
      ensures r == backendOk
      ensures events == old(events) && activities == old(activities)
      ensures !backendOk ==>
        error == Some(ErrRemoveOperator) && currentEvent == old(currentEvent) && isLoading == old(isLoading)
      ensures backendOk ==> !isLoading
      ensures backendOk && !Falsy(eventId) && reload.Returned? && reload.value.Some? ==>
        currentEvent == reload.value && error == None
      ensures backendOk && Falsy(eventId) ==>
        currentEvent == old(currentEvent) && error == Some(ErrEventIdMissing)
      ensures backendOk && !Falsy(eventId) && reload == Returned(None) ==>
        currentEvent == old(currentEvent) && error == Some(ErrEventNotFound)
      ensures backendOk && !Falsy(eventId) && reload.Threw? ==>
        currentEvent == old(currentEvent) && error == Some(ErrLoadEvent)
    {
      if backendOk {
        var reloaded := FetchEvent(eventId, reload);
        r := true;
      } else {
        error := Some(ErrRemoveOperator);
        r := false;
      }
    }

    /** `removeAssistant(eventId, userId)`: the backend call, then a reload of the event. */
    method RemoveAssistant(eventId: string, userId: string, backendOk: bool, reload: Call<Option<Event>>)
      returns (r: bool)
      modifies this
      ensures r == backendOk
      ensures events == old(events) && activities == old(activities)
      ensures !backendOk ==>
        error == Some(ErrRemoveAssistant) && currentEvent == old(currentEvent) && isLoading == old(isLoading)
      ensures backendOk ==> !isLoading
      ensures backendOk && !Falsy(eventId) && reload.Returned? && reload.value.Some? ==>
        currentEvent == reload.value && error == None
      ensures backendOk && Falsy(eventId) ==>
        currentEvent == old(currentEvent) && error == Some(ErrEventIdMissing)
      ensures backendOk && !Falsy(eventId) && reload == Returned(None) ==>
        currentEvent == old(currentEvent) && error == Some(ErrEventNotFound)
      ensures backendOk && !Falsy(eventId) && reload.Threw? ==>
        currentEvent == old(currentEvent) && error == Some(ErrLoadEvent)
    {
      if backendOk {
        var reloaded := FetchEvent(eventId, reload);
        r := true;
      } else {
        error := Some(ErrRemoveAssistant);
        r := false;
      }
    }

    /** `clearError()` */
    method ClearError()
      modifies this
      ensures error == None
      ensures events == old(events) && currentEvent == old(currentEvent)
      ensures activities == old(activities) && isLoading == old(isLoading)
    {
      error := None;
    }
  }
}

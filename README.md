# Event app client core in Dafny

This project models the client-side core of a React Native app for events and their activities.
It covers four areas.

- **Photo store** (`photo_service.dfy`). The app keeps gallery photos and a main image per entity `(entityType, entityId)` in the device's key-value store. Keys are `photos_<type>_<id>` and `main_image_<type>_<id>`. `PhotoStore` is a class over that map. Its methods read, append, filter and write back one key each.
- **Event cache** (`event_context.dfy`). `EventProvider` is a class holding `events`, `currentEvent`, `activities`, `isLoading` and `error`. Every backend call is an oracle argument that either returns a value or throws. Each method states the whole new state for every outcome.
- **Screen decisions.** These are pure functions and small classes for the screens' state:
  - edit permissions, tabs, content dispatch and action buttons (`event_detail.dfy`);
  - activity permissions, seat buttons, witness registration and the rating lookup (`activity_detail.dfy`);
  - the login, registration and user-editing forms with their ordered checks (`login_screen.dfy`, `register_screen.dfy`, `edit_user_screen.dfy`);
  - the e-mail pattern `^[^\s@]+@[^\s@]+\.[^\s@]+$` (`email.dfy`);
  - the pickers of users who are not yet operators or assistants, and the searchable user and ticket lists (`add_operator_screen.dfy`, `add_assistant_screen.dfy`, `user_list_screen.dfy`, `ticket_list_screen.dfy`, `user_search.dfy`).
- **Shared pieces.** `wrappers.dfy` holds `Option`, `Result` and the `Call` oracle. `js_text.dfy` holds JavaScript's `trim`, `toLowerCase` and `includes`. `lists.dfy` holds `filter`, `find` and the id-keyed replace and remove. `domain.dfy` holds the backend records. A field the backend may omit is an `Option`, and `None` behaves as JavaScript's `undefined`.

Three details of the photo store in the code:
- keys use the lowercase prefixes `photos_` and `main_image_`;
- the store has no logo operation, so `createEvent`'s call to `photoService.setLogo` throws, and the error is swallowed;
- `deletePhoto(photoId, entityType, entityId)` always answers `{ success: true }`, even when nothing matched.

## Model

| member | source | states |
|---|---|---|
| Lists.Filter | src/context/EventContext.js:185 | `filter` keeps at most the input's length; every kept element is an input element that passes; every passing input element is kept |
| Lists.FilterCounts | src/context/EventContext.js:185 | `filter` keeps each passing element exactly as often as it occurs in the input, and no other element |
| Lists.FilterIsSubsequence | src/screens/TicketListScreen.js:60 | what `filter` keeps is an order-preserving subset of its input |
| Lists.FindIndex | src/screens/ActivityDetailScreen.js:88-90 | `findIndex` gives the first index whose element passes, and nothing exactly when no element passes |
| Lists.Find | src/screens/EventDetailScreen.js:492 | `find` gives an element exactly when some element passes. That element passes, and no earlier element does |
| Lists.RemoveByIdSpec | src/context/EventContext.js:185 | removing by id keeps every record with another id exactly as often as it occurs, in order, and no record with that id. A second removal changes nothing |
| Lists.RemoveByIdAppended | src/context/EventContext.js:266-268 | removing the id of an activity just appended, when that id was new, restores the list |
| Lists.RemoveByIdPrepended | src/context/EventContext.js:185 | removing the id of an event just prepended, when that id was new, restores the list |
| Lists.ReplaceById | src/context/EventContext.js:163-165 | replace-by-id keeps the length and replaces exactly the records carrying the id, leaving the rest in place |
| Lists.ReplaceByIdAbsent | src/context/EventContext.js:164 | replacing an id no record carries leaves the list unchanged |
| JsText.BlankIffAllWhitespace | src/screens/LoginScreen.js:52 | `!s.trim()` holds exactly when every character is white space |
| JsText.Lower | src/screens/AddOperatorScreen.js:60 | `toLowerCase` keeps the length and lowers each character on its own |
| JsText.LowerIdempotent | src/screens/AddOperatorScreen.js:60-61 | lower-casing twice equals lower-casing once |
| PhotoService.KeyPrefixes | src/services/photoService.js:6-7 | a gallery key starts with `photos_` and not `main_image_`, and a main-image key the other way round |
| PhotoService.KeysNeverCollide | src/services/photoService.js:113 | no gallery key equals any main-image key |
| PhotoService.SplitAtFirstUnderscore | src/services/photoService.js:39 | `type + "_" + id` determines both parts when the type has no underscore |
| PhotoService.KeysInjective | src/services/photoService.js:39 | distinct entities whose types have no underscore get distinct gallery keys and distinct main-image keys |
| PhotoService.KeysCollideWithUnderscore | src/services/photoService.js:39 | `("A_B","C")` and `("A","B_C")` share both keys |
| PhotoService.GalleryIsolation | src/services/photoService.js:39-47 | writing one entity's gallery leaves every other entity's gallery unchanged, for types without underscore |
| PhotoService.MainImageWriteKeepsGalleries | src/services/photoService.js:113-114 | writing a main image changes no gallery |
| PhotoService.GalleryWriteKeepsMainImages | src/services/photoService.js:47 | writing a gallery changes no main image |
| PhotoService.UploadThenDeleteRestores | src/services/photoService.js:44-47 | deleting the photo an upload appended, when its id was new, gives back the gallery from before |
| PhotoService.AppendKeepsIdsDistinct | src/services/photoService.js:44 | appending a photo with a new id keeps the gallery's ids pairwise distinct |
| PhotoService.PhotoStore.constructor | src/services/photoService.js:5-7 | the store starts as the device holds it, with galleries under `photos_` and main images under `main_image_` |
| PhotoService.PhotoStore.UploadPhoto | src/services/photoService.js:11-54 | succeeds exactly when transcoding and storage succeed. On success the gallery becomes the old gallery (or `[]`) plus the returned photo, and no other key changes. The photo has `isMainImage == false`, the given type and id, `imageData` with the JPEG data-URI prefix, and `photo_<ms>_<suffix>` as id. On failure nothing changes |
| PhotoService.PhotoStore.GetEntityPhotos | src/services/photoService.js:58-67 | the stored gallery, or `[]` when the key is absent or reading fails |
| PhotoService.PhotoStore.DeletePhoto | src/services/photoService.js:70-84 | writes the old gallery without the photos carrying `photoId`, in order, even when the key was absent. Reports success whether or not anything matched. A storage failure changes nothing |
| PhotoService.PhotoStore.SetMainImage | src/services/photoService.js:87-122 | replaces the entity's main image (last write wins) and changes no other key. A following `getMainImage` returns the same record |
| PhotoService.PhotoStore.GetMainImage | src/services/photoService.js:125-134 | the stored main image, or `null` when the key is absent or reading fails |
| EventContext.CurrentAfterUpdate | src/context/EventContext.js:157-159 | `currentEvent` becomes the updated event exactly when it is the event updated; otherwise it is unchanged |
| EventContext.CurrentAfterDelete | src/context/EventContext.js:186-188 | `currentEvent` becomes `null` exactly when it is the deleted event |
| EventContext.EventProvider.constructor | src/context/EventContext.js:9-13 | empty lists, no current event, not loading, no error |
| EventContext.EventProvider.FetchEvents | src/context/EventContext.js:17-31 | on success `events` is the response and is returned. On failure `[]` is returned, `events` is kept and the error is set. Loading ends false |
| EventContext.EventProvider.FetchEvent | src/context/EventContext.js:34-59 | an empty id returns `null` with 'ID de evento no proporcionado'. Falsy data returns `null` with 'No se encontró el evento'. A throw returns `null` with 'Error al cargar el evento'. In all three cases `currentEvent` is unchanged. Otherwise the event becomes current and is returned. Loading ends false |
| EventContext.EventProvider.FetchActivities | src/context/EventContext.js:62-92 | an empty id changes nothing. A falsy response gives `[]`. A 404 gives `[]` with the error kept. Any other failure gives `[]` and 'Error al cargar actividades'. `isLoading` is untouched |
| EventContext.EventProvider.GetEvent | src/context/EventContext.js:95-104 | returns the fetched event without caching it; only a throw touches the state, by setting the error |
| EventContext.EventProvider.CreateEvent | src/context/EventContext.js:107-146 | on success `events` becomes the new event followed by the old list, and the new event is returned. When the event has an id and the image is given, the photo store then holds, under `main_image_Event_<id>`, exactly the record `setMainImage` builds for `('Event', id)`. No other key changes. A failed image store and the logo call change nothing. On failure it returns `null`, keeps `events` and sets 'Error al crear el evento' |
| EventContext.EventProvider.UpdateEvent | src/context/EventContext.js:149-176 | on success `events` is replaced by id and `currentEvent` follows `CurrentAfterUpdate`. On failure both are kept and 'Error al actualizar el evento' is set |
| EventContext.EventProvider.DeleteEvent | src/context/EventContext.js:179-197 | on success it returns true, `events` loses exactly that id and `currentEvent` follows `CurrentAfterDelete`. On failure it returns false with both kept and 'Error al eliminar el evento' set |
| EventContext.EventProvider.CreateActivity | src/context/EventContext.js:200-232 | on success the new activity is appended. On failure the list is kept and 'Error al crear la actividad' is set |
| EventContext.EventProvider.UpdateActivity | src/context/EventContext.js:235-257 | on success `activities` is replaced by id. On failure it is kept and 'Error al actualizar la actividad' is set |
| EventContext.EventProvider.DeleteActivity | src/context/EventContext.js:260-277 | on success it returns true and `activities` loses exactly that id. On failure it returns false and 'Error al eliminar la actividad' is set |
| EventContext.EventProvider.AddOperator | src/context/EventContext.js:280-297 | sends the role `"general"` and no activities. On success it returns true and reloads the event. A reload that finds the event makes it current with no error. A reload that fails (empty id, no event, a throw) keeps the current event and sets `fetchEvent`'s message. On failure it returns false and 'Error al añadir el operador' is set |
| EventContext.EventProvider.RemoveOperator | src/context/EventContext.js:299-312 | On success it returns true and reloads the event. A reload that finds the event makes it current with no error. A reload that fails (empty id, no event, a throw) keeps the current event and sets `fetchEvent`'s message. On failure it returns false and 'Error al eliminar el operador' is set |
| EventContext.EventProvider.AddAssistant | src/context/EventContext.js:314-327 | On success it returns true and reloads the event. A reload that finds the event makes it current with no error. A reload that fails (empty id, no event, a throw) keeps the current event and sets `fetchEvent`'s message. On failure it returns false and 'Error al añadir el asistente' is set |
| EventContext.EventProvider.RemoveAssistant | src/context/EventContext.js:329-342 | On success it returns true and reloads the event. A reload that finds the event makes it current with no error. A reload that fails (empty id, no event, a throw) keeps the current event and sets `fetchEvent`'s message. On failure it returns false and 'Error al eliminar el asistente' is set |
| EventContext.EventProvider.ClearError | src/context/EventContext.js:344-346 | clears the error and nothing else |
| EventDetail.IsAdminOrOperator | src/screens/EventDetailScreen.js:412-422 | false without a user. True for admins. For anyone else, with an event, true exactly when some operator entry's `_id` is the user's id |
| EventDetail.CanEditEvent | src/screens/EventDetailScreen.js:398-408 | false without user or event. True for admins. True for a user with the operator permission who is listed. In every other case false. It implies `IsAdminOrOperator` |
| EventDetail.ListedWithoutPermissionCannotEdit | src/screens/EventDetailScreen.js:398-422 | a listed user without the operator permission is admin-or-operator yet cannot edit, so the converse of the implication fails |
| EventDetail.AdminOrOperatorIgnoresPermissions | src/screens/EventDetailScreen.js:412-422 | `isAdminOrOperator` does not depend on the permission flags |
| EventDetail.Tabs | src/screens/EventDetailScreen.js:444-462 | the tabs are 'event', then one tab per activity in list order (titled 'Actividad' when untitled), then 'operators', 'assistants' and 'tickets' exactly when `IsAdminOrOperator` holds |
| EventDetail.RenderContent | src/screens/EventDetailScreen.js:489-510 | a non-fixed id matching an activity shows the first such activity. Each fixed id shows its list. Every other id shows the event information |
| EventDetail.ShadowedActivityNeverShown | src/screens/EventDetailScreen.js:489-496 | an activity whose id is a fixed tab id is never shown |
| EventDetail.ActionButtons | src/screens/EventDetailScreen.js:952-1008 | nothing unless `CanEditEvent` holds. The event tab gets edit-event, plus delete exactly for admins. Activity tabs get edit-activity, plus delete exactly for admins. The other fixed tabs get none |
| EventDetail.UserTicketsForEvent | src/screens/EventDetailScreen.js:223-225 | exactly the tickets whose populated event has this id, each as often as it occurs, in order |
| EventDetail.HeaderImage | src/screens/EventDetailScreen.js:1130-1135 | the cached main image, else the event's `mainImage`, else the placeholder URL; never empty |
| EventDetail.OperatorRemovalTarget | src/screens/EventDetailScreen.js:874-882 | removal uses the entry's `user._id`, and nothing when that id is missing |
| EventDetail.RemovalTargetIsNotPermissionId | src/screens/EventDetailScreen.js:875-877 | an entry can grant rights to one id while removal targets another |
| ActivityDetail.CanEditActivity | src/screens/ActivityDetailScreen.js:168-181 | false without user or activity. With the event's operators nested it equals `CanEditEvent` for that event. Otherwise it is admin or the operator permission |
| ActivityDetail.PermissionAloneEditsUnlinkedActivity | src/screens/ActivityDetailScreen.js:180 | without nested operators the permission alone suffices, even for a user who cannot edit the event |
| ActivityDetail.SeatsAvailableCanBeNegative | src/screens/ActivityDetailScreen.js:278 | capacity minus occupied is not clamped: with both counts present the count is negative exactly when occupied exceeds capacity, and then by the excess |
| ActivityDetail.SeatButtonBounds | src/screens/ActivityDetailScreen.js:370-385 | with both counts present and nothing loading, increment is enabled exactly when a seat is free and decrement exactly when one is taken, so one step stays within `0..capacity` |
| ActivityDetail.LoadingDisablesSeatButtons | src/screens/ActivityDetailScreen.js:373-385 | while loading both seat buttons are disabled |
| ActivityDetail.MissingCountsEnableSeatButtons | src/screens/ActivityDetailScreen.js:370-385 | a missing occupied count disables neither button, because `undefined <= 0` is false |
| ActivityDetail.IsWitness | src/screens/ActivityDetailScreen.js:273-275 | true exactly when some witness has the user's id |
| ActivityDetail.RegisteringHidesButton | src/screens/ActivityDetailScreen.js:441-447 | once the user is among the witnesses the register button is hidden; adding someone else leaves it as it was |
| ActivityDetail.UserRatingAfterFetch | src/screens/ActivityDetailScreen.js:82-100 | the rating becomes the `calification` of the first rating by the user. It is unchanged when there is none or the request fails |
| Email.ValidEmail | src/screens/LoginScreen.js:51 | an accepted address has at least five characters |
| Email.ValidEmailMatchesPattern | src/screens/LoginScreen.js:51 | the executable check accepts exactly `^[^\s@]+@[^\s@]+\.[^\s@]+$`, in both directions |
| Email.MatchHasOneAtAndNoBlank | src/screens/LoginScreen.js:51 | a match has exactly one `@`, no white space and is not blank |
| Email.MatchIsNotBlank | src/screens/LoginScreen.js:52-55 | a blank address never matches |
| Email.PaddedEmailFailsPattern | src/screens/LoginScreen.js:52-55 | an address with white space in front or behind passes the trim check but fails the pattern |
| LoginScreen.EmailProblem | src/screens/LoginScreen.js:50-61 | no message exactly when the pattern matches. 'El correo electrónico es obligatorio' when blank, 'Introduce un correo electrónico válido' otherwise |
| LoginScreen.PasswordProblem | src/screens/LoginScreen.js:63-73 | no message exactly when the length is at least 6. The 'obligatoria' message when empty, the 'al menos 6' message when shorter |
| LoginScreen.LoginForm.constructor | src/screens/LoginScreen.js:18-22 | all fields and messages start empty |
| LoginScreen.LoginForm.SetEmail | src/screens/LoginScreen.js:40-43 | typing an address clears its error and the login error |
| LoginScreen.LoginForm.SetPassword | src/screens/LoginScreen.js:45-48 | typing a password clears its error and the login error |
| LoginScreen.LoginForm.ValidateEmail | src/screens/LoginScreen.js:50-61 | returns whether the pattern matches and leaves `EmailProblem`'s message |
| LoginScreen.LoginForm.ValidatePassword | src/screens/LoginScreen.js:63-73 | returns whether the length is at least 6 and leaves `PasswordProblem`'s message |
| LoginScreen.LoginForm.HandleLogin | src/screens/LoginScreen.js:75-102 | both validators run and set their messages. `login` is called exactly when both pass. On false the login error is the context's error, else the fixed message. On a throw it is the 'Ha ocurrido un error' message |
| RegisterScreen.HandleRegister | src/screens/RegisterScreen.js:36-67 | `register(name, email, password)` is called exactly when all six checks pass. Otherwise the alert is the first failed check's message, in the source's order |
| RegisterScreen.RegisteredCredentialsPassLoginForm | src/screens/RegisterScreen.js:54-57 | every accepted registration also passes the login form's checks (the pattern and the minimum of 6) |
| EditUserScreen.FormFromDoc | src/screens/EditUserScreen.js:50-54 | a missing name or e-mail becomes empty, a missing or empty role becomes 'user', and missing flags become false |
| EditUserScreen.FormProblem | src/screens/EditUserScreen.js:67-83 | no message exactly when the name is not blank and the pattern matches. Otherwise the first failed check's message |
| EditUserScreen.UneditedSaveRoundTrip | src/screens/EditUserScreen.js:94-102 | saving an unedited, complete user sends back the loaded name, e-mail, role and flags |
| EditUserScreen.EditUserForm.constructor | src/screens/EditUserScreen.js:25-32 | empty name and e-mail, role 'user', flags false, loading |
| EditUserScreen.EditUserForm.LoadUserData | src/screens/EditUserScreen.js:44-60 | on success the form is `FormFromDoc` of the response. On failure the form is kept and the error is set. Loading ends false |
| EditUserScreen.EditUserForm.HandleSaveChanges | src/screens/EditUserScreen.js:86-118 | the PUT is sent exactly when `FormProblem` finds nothing, with exactly `{ name, email, role, permissions: { isOperator, isAssistant } }`. A failed PUT sets the error |
| UserSearch.SearchUsers | src/screens/UserListScreen.js:57-67 | an empty text gives all users. Any other text gives exactly the users whose lower-cased name or e-mail contains the lower-cased text, each as often as it occurs, in order |
| UserSearch.MatchIgnoresTextCase | src/screens/UserListScreen.js:60-61 | matching a field ignores the case of the search text |
| UserSearch.SearchIgnoresCase | src/screens/UserListScreen.js:58-63 | the search gives the same list for a text and its lower-cased form |
| UserSearch.IncludesPrefix | src/screens/UserListScreen.js:60 | a field containing a text contains each prefix of it |
| UserSearch.NarrowingSearch | src/screens/UserListScreen.js:58-63 | typing more characters only removes users from the list |
| UserSearch.WithoutIds | src/screens/AddOperatorScreen.js:41 | exactly the users whose id is not among the given ids, each as often as it occurs, in order |
| AddOperatorScreen.AvailableUsers | src/screens/AddOperatorScreen.js:40-44 | exactly the users whose id is no operator entry's `_id`, each as often as it occurs, in order. Nothing when the event has no operator list |
| AddOperatorScreen.OperatorPicker.constructor | src/screens/AddOperatorScreen.js:19-23 | empty lists and search, loading |
| AddOperatorScreen.OperatorPicker.LoadUsers | src/screens/AddOperatorScreen.js:27-50 | on success the users are `AvailableUsers` and the filtered list is their search result. A failed request or a missing list sets 'No se pudieron cargar los usuarios' |
| AddOperatorScreen.OperatorPicker.SetSearchText | src/screens/AddOperatorScreen.js:57-67 | the filtered list becomes the search over the available users |
| AddOperatorScreen.OperatorPicker.HandleAddOperator | src/screens/AddOperatorScreen.js:70-79 | asks the context to add the user with role "general" and no activities. The success alert shows even when the context reports failure |
| AddAssistantScreen.AvailableUsers | src/screens/AddAssistantScreen.js:36-40 | exactly the users who are not assistants, each as often as it occurs, in order. Nothing when the event has no assistant list |
| AddAssistantScreen.AssistantPicker.constructor | src/screens/AddAssistantScreen.js:19-23 | empty lists and search, loading |
| AddAssistantScreen.AssistantPicker.LoadUsers | src/screens/AddAssistantScreen.js:26-46 | on success the users are `AvailableUsers` and the filtered list is their search result. A failed request or a missing list sets the load error |
| AddAssistantScreen.AssistantPicker.SetSearchText | src/screens/AddAssistantScreen.js:52-62 | the filtered list becomes the search over the available users |
| AddAssistantScreen.AssistantPicker.HandleAddAssistant | src/screens/AddAssistantScreen.js:64-73 | asks the context to add the user. The success alert shows even when the context reports failure |
| UserListScreen.UserList.constructor | src/screens/UserListScreen.js:20-25 | empty lists and search, loading |
| UserListScreen.UserList.LoadUsers | src/screens/UserListScreen.js:36-50 | on success both lists are the response when the search is empty (in general the filtered list is the search over it). On failure the list is kept and the error is set. Loading and refreshing end false |
| UserListScreen.UserList.HandleRefresh | src/screens/UserListScreen.js:70-73 | reloads with the same outcomes |
| UserListScreen.UserList.SetSearchText | src/screens/UserListScreen.js:57-67 | the filtered list becomes the search over `users`, and is `users` for an empty text |
| TicketListScreen.SearchTickets | src/screens/TicketListScreen.js:58-69 | an empty text gives all tickets. Any other text gives exactly the tickets whose lower-cased holder name, event title or type contains it, each as often as it occurs, in order |
| TicketListScreen.BareTicketNeverFound | src/screens/TicketListScreen.js:61-63 | a ticket with none of the three fields is never found |
| TicketListScreen.TicketSearchIgnoresCase | src/screens/TicketListScreen.js:59-65 | the ticket search ignores the case of the search text |
| TicketListScreen.TicketList.constructor | src/screens/TicketListScreen.js:20-25 | empty lists and search, loading |
| TicketListScreen.TicketList.LoadTickets | src/screens/TicketListScreen.js:37-51 | on success both lists are the response when the search is empty. On failure the list is kept and the error is set |
| TicketListScreen.TicketList.HandleRefresh | src/screens/TicketListScreen.js:72-75 | reloads with the same outcomes |
| TicketListScreen.TicketList.SetSearchText | src/screens/TicketListScreen.js:58-69 | the filtered list becomes the search over `tickets`, and is `tickets` for an empty text |

## Left out

- Image transcoding and base64 encoding (`manipulateAsync`, `readAsStringAsync`) are foreign library calls. The payload is an opaque string, and their failure is `Io.base64 == None`.
- `Date.now()`, `Math.random()` and `toISOString()` are nondeterministic. They are passed in as strings in `Io`.
- JSON text is not modelled. The store holds parsed values, and a key holding text that does not parse is out of scope.
- The gallery append race is not modelled. Concurrent uploads or deletes on one gallery can lose a write between the read and the write back; the model is sequential.
- No logo role. `photoService.setLogo` does not exist, so the call in `createEvent` throws and the handler swallows it. `EventContext.EventProvider.CreateEvent` takes a `logo` flag that changes nothing.
- The dead `getRating` helper at the end of `EventContext.js` is not modelled. It refers to an undefined `api`.
- The outer `catch` of `fetchActivities` is not modelled. Nothing in its body can reach it.
- Network, authentication and navigation are oracle arguments or are left out. This covers `api.js`, `AuthContext.js`, alerts, `navigation.goBack`, and the admin-only redirects of the user screens.
- React's update scheduling is not modelled. State updates take effect at once, and a handler reads the state current when it runs, not a stale render's copy.
- Effects are modelled where they change state. The search effect runs inside the load and search methods. `LoginScreen`'s copying of the context error into `loginError` on every change is not modelled.
- `null` and `undefined` are not distinguished. A missing field is `None` with `undefined`'s comparison rules, which matters for the seat buttons.
- JsText.Lower: lowers ASCII letters only. JavaScript's `toLowerCase` follows full Unicode case mapping.
- JsText.IsWhitespace: string length counts characters, not UTF-16 code units. White space is the ECMAScript set.
- Filter: its own contract states bounds and membership. The occurrence counts are stated by `Lists.FilterCounts`, which the searches and removals use.
- Email.ValidEmail: its own contract states only a minimum length. The full pattern equivalence is `Email.ValidEmailMatchesPattern`.
- Date and locale formatting, numeric parsing, star rounding and the purely presentational screens are not modelled. They are not part of this core.

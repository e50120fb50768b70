# Utsavia vendor app: session layer and screen logic

This project models the logic of the Utsavia vendor app, a React Native client for event vendors. The logic covered is:

- The session and API layer. It keeps a persistent key/value store with `token`, `refreshToken` and `vendorId`. Each call reads the store, sends its request and decodes the reply. Sign-up and sign-in write the store. The profile call follows a bounded protocol for a 401: refresh the token once, then retry once.
- The business-profile screen: its ordered validation rules and the payload it submits.
- The bookings screen: three lists, a tab lookup and the confirm move.
- The add-item screen: a guarded submit that uploads the image and then posts the item.
- The added-items screen: it loads the list and deletes by id.

Modules, one file each:

- `Common` (common.dfy): optional values, results and the ways a call rejects.
- `Records` (records.dfy): the records the app exchanges with its server.
- `Lists` (lists.dfy): filtering and finding records by `_id`.
- `Session` (session.dfy) models `utils/_api.js`. The device store is the class `Storage`.
  - A call is described by its outcome and its effects. Effects are the requests it sends and the store writes it makes, in order.
  - The store after a call is the store before it with those writes replayed (`Replay`).
  - Server replies are parameters of the calls: no reply at all, or a status, the body text and the decoded body.
- `SessionProperties` (session_properties.dfy): lemmas that relate the calls to the store and to each other.
- `ProfileScreen`, `BookingsScreen`, `AddItemScreen`, `AddedItemsScreen`: one class per screen.
  - A class's fields are the screen's state variables.
  - Its methods are the event handlers.
  - Each method is specified through the pure functions beside it.

A JavaScript test like `!token` is read as "absent or the empty string" (`Usable`).

`getProfile` throws a plain error when no refresh token is stored (utils/_api.js:142), as it does on every other failure. It catches all of its own errors and resolves to `null` (utils/_api.js:166-169). The model follows this: the profile call never rejects. None of the modelled files ever writes `refreshToken`: sign-up and sign-in store only `token` and `vendorId`. So in the app as shipped, every 401 from the profile endpoint ends at "Refresh token missing." (utils/_api.js:142). The model still covers the refresh path for a store that does hold one.

## Model

| member | source | states |
|---|---|---|
| Lists.RemoveById | app/AddedItems.jsx:55 | the filtered list holds exactly the records of the input whose id differs from the given one, and is no longer than the input |
| Lists.FindById | app/ShowBooking.jsx:58 | `None` exactly when no record has the id; otherwise the record at the first index with that id |
| Lists.RemoveByIdConcat | app/AddedItems.jsx:55 | filtering distributes over concatenation, so the records that remain keep their relative order |
| Lists.RemoveAbsentId | app/ShowBooking.jsx:57 | filtering an id that no record carries returns the list unchanged |
| Lists.RemoveByIdIdempotent | app/AddedItems.jsx:55 | filtering the same id a second time removes nothing more |
| Lists.RemoveUniqueId | app/AddedItems.jsx:55 | when ids are unique, filtering the id of a listed record shortens the list by exactly one |
| Session.Decode | utils/_api.js:216-219 | the shared reply handling: success exactly for an ok status with a JSON body; a non-ok reply rejects with the body's `message` or the fallback text; no reply is a network error and a non-JSON body a parse error |
| Session.AuthHeader | utils/_api.js:9 | the header value is the `Bearer` scheme followed by the token, and the token can be read back from it |
| Session.GetAuthHeader | utils/_api.js:6-10 | succeeds exactly when a usable token is stored, and then carries that token in bearer form; otherwise rejects with "Authentication failed. Please sign in again." |
| Session.AuthExchange | utils/_api.js:13-38 | the first effect is the request with the form; the outcome is the decoded reply with the sign-up or sign-in default message |
| Session.Authenticate | utils/_api.js:41-66 | the shared sign-up/sign-in steps on the device store: outcome and effects are those of `AuthExchange`, and the store ends as its writes make it |
| Session.SignUp | utils/_api.js:13-38 | sign-up is `AuthExchange` with the sign-up endpoint, and the new store is the old one with the call's writes replayed |
| Session.SignIn | utils/_api.js:41-66 | sign-in is `AuthExchange` with the sign-in endpoint, and the new store is the old one with the call's writes replayed |
| Session.FormatItem | utils/_api.js:74-81 | the posted record holds exactly one price entry, for the item's city and price, and the given vendor; item and vendor can be read back from it |
| Session.AddItem | utils/_api.js:69-99 | with no usable stored vendor id it rejects before any request; otherwise it sends exactly the formatted record with the stored vendor; succeeds exactly for an ok, decodable reply; a reply that is not ok rejects with the reply's text, or with "Failed to add item." when that text is empty; never writes the store |
| Session.FetchItems | utils/_api.js:227-248 | with no usable stored vendor id it rejects before any request; otherwise it sends one request with the stored vendor id and decodes the reply; never writes the store |
| Session.UpdateProfile | utils/_api.js:102-125 | with a token or vendor id missing it rejects before any request; otherwise it sends one request whose body is the profile plus the stored vendor id and whose bearer token is the stored token; never writes the store |
| Session.ProfileFlow | utils/_api.js:128-170 | the profile protocol step by step: with no usable token it fails with "No token found." before any request; otherwise the first effect is the profile request with the stored token's bearer header; it has one, two or four effects, and more than one only after a 401 |
| Session.ProfileReceived | utils/_api.js:163-165 | the last profile reply yields the body exactly when it is ok and decodable; a reply that is not ok throws "Failed to fetch profile." before any parsing; an ok reply that does not parse fails with a parse error |
| Session.GetProfile | utils/_api.js:128-170 | the imperative call: its effects are those of the profile protocol, it yields the profile exactly when the protocol succeeds and `null` otherwise, and the store ends as the protocol's writes make it |
| Session.ReplayTokenRefresh | utils/_api.js:140-160 | around the refresh path's one write, the store changes only in its token |
| Session.MimeType | utils/_api.js:174 | the declared type is `image/png` exactly for a URI ending in `.png`, else `image/jpeg` |
| Session.FileNameOfType | utils/_api.js:180 | for a `type/subtype` MIME type the file name is `upload.` followed by the subtype |
| Session.ImageFileName | utils/_api.js:180 | the two types the app declares give the file names `upload.png` and `upload.jpeg` |
| Session.UploadName | utils/_api.js:174-181 | the uploaded file's extension always names the declared type: `upload.png` for a `.png` URI, `upload.jpeg` otherwise |
| Session.UploadFileName | utils/_api.js:180 | the file name is defined exactly when the declared type contains a `/`, and it always begins with "upload." |
| Session.UploadToCloudinary | utils/_api.js:173-201 | sends one upload with the URI, declared type, file name, preset and folder; succeeds exactly for an ok, decodable reply, with the hosted URL as its value |
| Session.FetchBookings | utils/_api.js:204-224 | with no usable token it rejects before any request; otherwise one request with the stored bearer token and the decoded reply; never writes the store |
| Session.ConfirmBooking | utils/_api.js:251-271 | with no usable token it rejects before any request; otherwise one request for that booking id with the stored bearer token; never writes the store |
| SessionProperties.AuthExchangeStore | utils/_api.js:23-31 | sign-up/sign-in send exactly one request; the store changes only on an ok reply with a usable token and vendor id, and then exactly those two keys are set to those values |
| SessionProperties.SignUpScenario | utils/_api.js:26-31 | a reply carrying token `t1` and vendor id `v1` leaves those two values stored |
| SessionProperties.ProfileRequestsBounded | utils/_api.js:133-161 | the profile call sends at most three requests: a profile request, one refresh only after a 401, then one retried profile request, the retry happening exactly when the refresh succeeded |
| SessionProperties.ProfileTokenRefresh | utils/_api.js:141-158 | after a successful refresh the effects are profile request, refresh, write of the new token, retry with the new token, and only the token changes; on every other path the store is unchanged |
| SessionProperties.ProfileNullOnFailure | utils/_api.js:128-170 | the profile call resolves with the profile exactly when a token was stored, a 401 was followed by a successful refresh, and the last profile reply was ok and decodable; every other path is `null`, with the no-token and no-refresh-token messages |
| SessionProperties.ProfileBearerMatchesStore | utils/_api.js:133-160 | every bearer header the profile call sends is for the token stored at that moment, the retry included |
| ProfileScreen.ValidateForm | app/profile.jsx:27-58 | rejects an empty company name, phone, address or location with the required-fields message; a phone under 10 characters; a UPI id without `@`; in bank mode an empty bank field or an account number under 10 characters; bank messages never arise in UPI mode |
| ProfileScreen.FirstFired | app/profile.jsx:27-58 | an ordered rule list accepts exactly when no rule fires, and otherwise rejects with the message of the first firing rule |
| ProfileScreen.ValidateFormFollowsRules | app/profile.jsx:27-58 | the screen's if-chain is the first-firing-rule verdict of its five rules, so the form is accepted iff no rule fires |
| ProfileScreen.BuildPayload | app/profile.jsx:103-111 | every form field is copied; `upiId` is set iff the mode is UPI, `bankDetails` iff it is bank; exactly one is set, and read as a tagged union it is the payment information the mode selects |
| ProfileScreen.Profile.constructor | app/profile.jsx:13-25 | the form starts empty in UPI mode, not submitting |
| ProfileScreen.Profile.ChoosePaymentMode | app/profile.jsx:195-206 | a radio button sets `paymentMode` and nothing else |
| ProfileScreen.Profile.Submit | app/profile.jsx:98-126 | a rejected form sends nothing and leaves the flag; an accepted one sends the payload through `updateProfile` and ends with `isSubmitting` false on success and failure alike |
| BookingsScreen.ConfirmMove | app/ShowBooking.jsx:56-61 | no booking with the id is left in pending, the rest filtered in order; if the id was pending, confirmed gains exactly one entry at its end, the first matching booking with status `confirmed`, earlier entries unchanged; if not, both lists are unchanged |
| BookingsScreen.ConfirmTwice | app/ShowBooking.jsx:56-61 | confirming the same id again changes neither list |
| BookingsScreen.ConfirmKeepsTotal | app/ShowBooking.jsx:56-61 | with unique ids, confirming a pending booking keeps the number of pending plus confirmed bookings |
| BookingsScreen.Bookings.constructor | app/ShowBooking.jsx:19-25 | empty lists, pending tab, loading, no error, no new bookings |
| BookingsScreen.Bookings.LoadBookings | app/ShowBooking.jsx:27-49 | the three lists and the new-bookings flag are taken from the reply only when `pending` is an array; otherwise the lists stay as they were and the error is set; `loading` ends false on every path |
| BookingsScreen.Bookings.HandleConfirm | app/ShowBooking.jsx:52-67 | after a successful confirm the lists are `ConfirmMove` of the old ones; after a failed confirm they are unchanged; the cancelled list and the other fields are never touched |
| BookingsScreen.Bookings.SelectTab | app/ShowBooking.jsx:88-91 | a tab press changes only the selected tab |
| BookingsScreen.Bookings.FilteredBookings | app/ShowBooking.jsx:70-74 | exactly the list of the selected tab |
| AddedItemsScreen.AddedItems.constructor | app/AddedItems.jsx:22-23 | no items, loading |
| AddedItemsScreen.AddedItems.LoadItems | app/AddedItems.jsx:29-39 | the list becomes the fetched one on success and stays as it was on failure; `loading` ends false on every path |
| AddedItemsScreen.AddedItems.HandleDelete | app/AddedItems.jsx:41-64 | the delete call is made exactly when Delete is chosen; only a successful delete changes the list, to the old list filtered by the id |
| AddedItemsScreen.DeleteRemovesExactly | app/AddedItems.jsx:55 | a delete removes exactly the items with that id, keeps the others in order, and repeating it removes nothing more |
| AddedItemsScreen.DeleteListedItem | app/AddedItems.jsx:55 | with unique ids, deleting a listed item removes it and shortens the list by one |
| AddItemScreen.Complete | app/AddItem.jsx:53 | the submit guard holds only for a form with a picked image, and never for the empty form |
| AddItemScreen.ResetFormRejected | app/AddItem.jsx:53-56 | a form reset after an add fails the guard: submitting it again sends nothing |
| AddItemScreen.ItemOf | app/AddItem.jsx:64 | the item posted carries the hosted image URL and every other field as the form holds it (the price as typed: `parseFloat` is not modelled, see below) |
| AddItemScreen.Submission | app/AddItem.jsx:52-96 | an incomplete form makes no call; otherwise the upload comes first and the item is posted only after a successful upload; a successful submit made exactly the upload and the add request, with the uploaded URL as the item's image; never writes the store |
| AddItemScreen.AfterAddAsWritten | app/AddItem.jsx:67-75 | as written, every resolved add turns into a `TypeError`, and rejections pass through |
| AddItemScreen.SubmissionAsWritten | app/AddItem.jsx:52-96 | as written, the same requests are sent as in `Submission` but the outcome is never a success; an add the server accepted is reported as a `TypeError` |
| AddItemScreen.AddedItemReportedAsFailure | app/AddItem.jsx:61-75 | a concrete submit in which the server accepts the item, yet the code as written reports a failure after sending both requests |
| AddItemScreen.AddItem.constructor | app/AddItem.jsx:15-21 | empty fields, no image, not submitting |
| AddItemScreen.AddItem.PickImage | app/AddItem.jsx:44-46 | picking sets the image and nothing else |
| AddItemScreen.AddItem.HandleSubmit | app/AddItem.jsx:52-96 | the handler with the add step corrected (see Findings): an incomplete form changes nothing and sends nothing; otherwise the calls of `Submission` are made, all six fields are reset exactly when the item was added and left as they were on failure, and `isSubmitting` ends false |
| AddItemScreen.AddItem.HandleSubmitAsWritten | app/AddItem.jsx:52-96 | the handler as written: the same requests as the corrected one, never an add reported as successful, every field left as it was, and `isSubmitting` false after the guard |

## Left out

- Rendering, styles, navigation, alerts and logging are not modelled. An alert's message is kept only where it is the outcome of a call or a validation verdict.
- Transport is abstract: `fetch`, JSON encoding and decoding, the multipart form of the upload and the image host's endpoint. A reply is a status, the body as text and the decoded body. The upload's error message (`error.message` of the host's body) is the `message` of the decoded body.
- Device APIs are parameters or left out: location permission and reverse geocoding, the image library permission, and the rich-text editor. The image picker is reduced to the URI it yields (`PickImage`).
- Prices stay the text the vendor typed. `parseFloat` and floating-point numbers are not modelled.
- JavaScript string lengths count UTF-16 code units; the model counts characters.
- `deleteItem` does not appear among the exports of `utils/_api.js`. As shipped, it is `undefined` at app/AddedItems.jsx:54, so every Delete throws a `TypeError` that the handler catches, and the list is never filtered. The model treats it as an external call whose outcome is a parameter (`deleteSucceeds`). The success path is therefore unreachable in the shipped code. The request shape is not modelled.
- `cancelBooking` and `fetchConfirmedBookings` are not modelled. No screen calls either.
- `setPaymentMode` in app/profile.jsx is not modelled. Nothing calls it; the radio buttons set only `paymentMode`.
- Form field edits other than the payment mode and the picked image are plain setters and are not modelled.
- `app/SavedProfile.jsx` and `app/EditProfile.jsx` are not part of this model. They only display values or edit one key.
- Session.Storage: the device store never fails. `AsyncStorage.getItem`, `multiSet` and `setItem` can reject, and the model does not capture what follows:
  - `signUp`/`signIn` would reject after the server accepted (utils/_api.js:27-30).
  - `getProfile` would resolve to `null` without sending the retry (utils/_api.js:153).
- Session.Decode: a decoded body is always a record. A JSON `null` body is not represented. With a `null` body, a non-ok reply makes `data.message` throw a `TypeError` (utils/_api.js:24, utils/_api.js:217). The model reports the body's message or the fallback text instead.
- Session.GetProfile: the refresh reply is taken to carry an `accessToken` string. A reply without one would store `undefined`; that case is not modelled.
- Session.AuthExchange: the stored vendor id is the string the reply carries. The `toString()` of a numeric vendor id is not modelled.
- BookingsScreen.Bookings.LoadBookings: `confirmed` and `cancelled` are taken to be arrays once `pending` is one. The code does not check them.
- Each `await` and each state setter is one sequential step. React's batched, asynchronous state updates are not modelled, and neither are handlers that interleave. `handleConfirm` finds the booking in the pending list as it was before the filter, which is what the sequential model does too.
- The `name` and `email` route parameters of the profile screen are not modelled. `submit` does not send them.

## Findings

| source | as written | input that shows it | evidently intended | confidence | as-written member | corrected member |
|---|---|---|---|---|---|---|
| app/AddItem.jsx:67-75 | `addItem` already returns the decoded JSON body (utils/_api.js:94). The screen then calls `response.json()` on that plain object, which throws a `TypeError`, so every add the server accepted is reported as an error and the form is never reset | a complete form, an ok upload reply and an ok add reply: the item is created on the server, but the screen reports a failure | use the value `addItem` resolves with as the result: success, form reset | not executed | AddItemScreen.SubmissionAsWritten | AddItemScreen.Submission |
| app/AddItem.jsx:77-85 | the reset of the six fields follows the `.json()` call on the same path, so it is never reached: after an add the server accepted, the form keeps every value | the same complete form and ok replies: the form is still filled after the item was created | reset the form after every accepted add | not executed | AddItemScreen.AddItem.HandleSubmitAsWritten | AddItemScreen.AddItem.HandleSubmit |

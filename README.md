# Unified user gateway and notification orchestrator, in Dafny

This project models two decision cores of a microservice system and proves what they promise.

**The API gateway's aggregating handlers** (`apigateway/app/main.go`).
- `GET /users/{username}/profile` reads the account from the auth service and the profile from the profile service. It merges nine profile fields into the account's `user` object.
- `PATCH /users/{username}/profile` splits an update document between the two services using two fixed allow-lists. It renames profile keys to snake_case and calls only the services that have something to write. It then either reports the collected errors as a 500 or answers with a fresh unified read.
- `DELETE /users/{username}` relays the auth service's answer. It posts a `user.deleted` event to the orchestrator exactly when that answer is a 200.
- The model also covers the CORS layer and start-up configuration via `getEnv`.

**The orchestrator's notification service** (Java). The auth events `user.created`, `user.login`, `password.reset.requested` and `password.updated` each become one email and, when the user has a usable phone, one SMS. These are published on the broker. An alert batch becomes a single `service.alert` message.

How the model is built:
- Upstream HTTP exchanges are an oracle `upstream: Call -> UpstreamResult`. Each gateway handler is proved against a specification function that returns the response together with the list of requests it attempted. An attempted request need not have left the gateway: the list also holds requests whose `http.NewRequest` failed (`Unbuildable`), and the `user.deleted` event, whose exchange is not modelled.
- The order in which the two concurrent replies arrive is a parameter (`profileFirst`).
- The broker is a `RabbitTemplate` object with an append-only `outbox` and a set of routing keys whose sends throw.
- Each Java handler is a method on the service object. It is proved to append exactly `Deliveries(plan)` to the outbox, where `plan` is the publication plan its event yields. When a getter throws, the handler leaves the outbox untouched.
- Java's `null`, string concatenation of `null`, `trim().isEmpty()`, the `(String)` cast that can throw `ClassCastException`, and `Map.getOrDefault` are written out explicitly.

Three behaviours of the gateway are modelled exactly as the code behaves, each with a lemma that shows it:
- The update answers with a re-read that reuses the inbound request. That re-read therefore goes out with the inbound method (`ReadCallsUseInboundMethod`, `UpdateSuccessRereads`).
- A transport failure during an update is reported as `returned status 0` (`ErrorLines`).
- Five of the fourteen profile fields are written by the update but never merged back by the read (`WriteOnlyProfileFields`).

Files:
- `basics.dfy`: Option, `strings.Join`, the decimal rendering of `%d`.
- `java.dfy`: Java null strings, `trim`, exceptions.
- `json.dfy`: JSON values and `json.Unmarshal` into a map.
- `headers.dfy`: `http.Header` and the header-copy loops.
- `field_routing.dfy`: the update partition and renaming.
- `response_merge.dfy`: the read merge.
- `gateway.dfy`: the handlers.
- `gateway_properties.dfy`: the gateway's properties.
- `auth_event.dfy`, `notification_request.dfy`: the Java model classes.
- `orchestrator_service.dfy`: the service and the broker.
- `auth_event_listener.dfy`: the routing-key dispatch.
- `orchestrator_properties.dfy`: the orchestrator's properties.

## Model

| member | source | states |
|---|---|---|
| Gateway.GetEnv | apigateway/app/main.go:1133-1138 | a set, non-empty variable is returned; an unset or empty one gives the default |
| Gateway.LoadConfigDefaults | apigateway/app/main.go:1071-1077 | with an empty environment each setting has its documented default, and no setting is ever empty |
| Gateway.CorsPreflight | apigateway/app/main.go:108-117 | an OPTIONS request gets 200 with the three CORS headers and no body, whatever the wrapped handler is |
| Gateway.CorsPassesThrough | apigateway/app/main.go:108-121 | any other method runs the wrapped handler, on headers that already hold the CORS values |
| Headers.ForwardedKeepsValues | apigateway/app/main.go:135-139 | a proxied request carries exactly the inbound keys that have values, each list unchanged |
| Headers.AddHeadersExtends | apigateway/app/main.go:270-275 | adding upstream headers to the response keeps every value already there as a prefix and adds no key without values |
| Headers.AddEach | apigateway/app/main.go:136-138 | the inner loop appends the list's values under the key, in order (none for an empty list) |
| Headers.AddAll | apigateway/app/main.go:135-139 | the nested copy loop yields `AddHeaders(dst, src)` whatever order the keys are visited in |
| Json.DecodeObject | apigateway/app/main.go:391-396 | decoding into a map succeeds exactly for an object or `null` |
| Gateway.CollectResults | apigateway/app/main.go:371-374 | the collected map has exactly the arrived names, and each name holds its last arrival |
| Gateway.CollectReadResults | apigateway/app/main.go:346-377 | whichever reply arrives first, each read reply ends up under its own name |
| Gateway.DecideRead | apigateway/app/main.go:376-446 | the read's decision on the two replies, with the profile merged into `user` in place, equals `ReadOutcome` |
| Gateway.HandleGetUserUnified | apigateway/app/main.go:325-449 | the read handler's response and attempted requests equal `UnifiedRead` |
| GatewayProperties.MissingCredentials | apigateway/app/main.go:332-336 | an empty Authorization gives 401 with the JSON error and sends nothing, on read, update and delete |
| GatewayProperties.ReadCallsUseInboundMethod | apigateway/app/main.go:346-362 | both reads go to `/accounts/` and `/profiles/` plus the username, with the inbound method and headers and no body |
| GatewayProperties.ReadAuthUnavailable | apigateway/app/main.go:377-382 | an auth exchange without a reply gives 503 "Service unavailable" |
| GatewayProperties.ReadRelaysAuthFailure | apigateway/app/main.go:384-388 | a non-200 auth reply is relayed with its status and body, and the profile reply makes no difference |
| GatewayProperties.ReadAuthUnparseable | apigateway/app/main.go:391-396 | a 200 auth body that is not an object or null gives 500 "Error processing response" |
| GatewayProperties.ReadSucceeds | apigateway/app/main.go:399-446 | a usable auth reply gives 200 with the auth document merged with the usable profile data |
| GatewayProperties.UnusableProfileChangesNothing | apigateway/app/main.go:401-442 | a profile reply that is not 200, or whose body is not an object, leaves the auth document unchanged |
| GatewayProperties.MergeNeedsUserObject | apigateway/app/main.go:399-407 | an auth document that is not an object, or whose `user` is missing or not an object, is answered unmerged whatever the profile holds |
| ResponseMerge.OverlaySpec | apigateway/app/main.go:407-436 | each pair whose source key is present sets its target to that value (null included); every other key keeps its value; no key is added except the filled targets |
| ResponseMerge.MergePairsDistinct | apigateway/app/main.go:409-435 | the nine copies write nine different target keys |
| ResponseMerge.CopyIfPresent | apigateway/app/main.go:409-411 | one `if v, ok := profileData[src]; ok` copy is one more step of the merge fold |
| ResponseMerge.MergeProfileFields | apigateway/app/main.go:407-436 | the nine in-place copies yield `MergeUser(user, profile)` |
| GatewayProperties.MergeIntoSpec | apigateway/app/main.go:399-437 | the merge changes only `user`, and within it only the nine targets whose source is present |
| GatewayProperties.MergeKeepsOtherKeys | apigateway/app/main.go:407-436 | a `user` key that is not one of the nine targets keeps its value |
| GatewayProperties.IdentityFieldsAreNotTargets | apigateway/app/main.go:409-435 | id, username, email, role and status are never overwritten |
| GatewayProperties.EmptyProfileKeepsUser | apigateway/app/main.go:407-436 | an empty profile document changes nothing |
| GatewayProperties.MergeIdempotent | apigateway/app/main.go:407-436 | merging the same profile twice is merging it once |
| GatewayProperties.ReadBackNamesMatchUpdate | apigateway/app/main.go:409-435 | each merged field is a profile name the update writes, and the read takes it back from exactly the snake_case name the update writes it under |
| GatewayProperties.WriteOnlyProfileFields | apigateway/app/main.go:495-499 | mailingAddress, contactInfoPublic, facebookUrl, instagramUrl and websiteUrl are written by the update but never read back |
| FieldRouting.Restrict | apigateway/app/main.go:486-505 | an allow-list selection keeps exactly the listed keys of the input, values unchanged |
| FieldRouting.AllowListsDisjoint | apigateway/app/main.go:487-499 | no key is routed to both services |
| FieldRouting.SelectFields | apigateway/app/main.go:488-492 | one allow-list loop yields `Restrict(input, names)` |
| FieldRouting.SplitFields | apigateway/app/main.go:483-505 | the auth part holds exactly the input's auth-listed keys and the profile part its profile-listed keys, values unchanged, disjoint; every other key is dropped |
| FieldRouting.FieldMappingDomain | apigateway/app/main.go:547-558 | the table has ten entries, all profile names |
| FieldRouting.PassThroughNames | apigateway/app/main.go:547-566 | the four untranslated profile names are bio, nickname, organization and country, and no translation yields one of them |
| FieldRouting.RenamedNamesHaveUnderscore | apigateway/app/main.go:547-558 | every translated name contains an underscore |
| FieldRouting.ProfileNamesHaveNoUnderscore | apigateway/app/main.go:495-499 | no profile name contains an underscore |
| FieldRouting.FieldMappingInjective | apigateway/app/main.go:547-558 | no two table entries share a target |
| FieldRouting.SnakeNameInjective | apigateway/app/main.go:560-566 | two different profile names are never sent under the same name |
| FieldRouting.SnakeNameInjectiveOn | apigateway/app/main.go:560-566 | the renaming is injective on every set of profile names |
| FieldRouting.RenamedKeysSize | apigateway/app/main.go:560-566 | an injective renaming keeps the number of keys |
| FieldRouting.Rename | apigateway/app/main.go:560-566 | every entry appears under its renamed key with its value, and nothing else appears |
| FieldRouting.Translate | apigateway/app/main.go:560-566 | the profile payload holds every profile field under its snake_case name, values unchanged, same size |
| FieldRouting.RenameLoop | apigateway/app/main.go:560-566 | the renaming loop yields `Rename(fields, f)` |
| FieldRouting.TranslateProfileFields | apigateway/app/main.go:545-566 | the profile payload loop yields `Translate(profileFields)` |
| GatewayProperties.UpdateRejectsBadBody | apigateway/app/main.go:469-480 | an unreadable body gives 400 "Error reading request body" and one that is not an object or null gives 400 "Invalid JSON", both before any call |
| GatewayProperties.DispatchOnlyNonEmpty | apigateway/app/main.go:516-584 | one request per non-empty partition: a PATCH with the auth fields to the account, then a PUT with the translated fields to `/profiles/me` |
| Gateway.StartUpdates | apigateway/app/main.go:516-584 | the started requests equal `UpdateCalls` |
| Gateway.Exchange | apigateway/app/main.go:593-606 | each started request is paired with its outcome, in order |
| Gateway.CallsOf | apigateway/app/main.go:516-584 | the requests attempted are exactly those started, in order, including any whose `http.NewRequest` failed |
| Gateway.CollectUpdateResults | apigateway/app/main.go:593-606 | the collected error lines equal `ErrorsOf(arrived)`; results hold every name with a reply |
| GatewayProperties.ErrorsEmptyIff | apigateway/app/main.go:596-606 | there is no error line exactly when every collected result is a 200 reply |
| GatewayProperties.ErrorsBounded | apigateway/app/main.go:596-606 | at most one error line per result |
| GatewayProperties.ErrorLines | apigateway/app/main.go:597-605 | an unbuildable request gives "name: err"; a transport failure gives "returned status 0"; any other non-200 gives its status in decimal; 200 gives nothing |
| GatewayProperties.ArrivalOnlyReorders | apigateway/app/main.go:587-606 | the arrival order changes only the order of the error lines |
| GatewayProperties.UpdateReportsErrors | apigateway/app/main.go:609-614 | with errors the answer is 500 with "Partial update failed: " and the lines joined by "; ", and no re-read |
| GatewayProperties.UpdateSuccessRereads | apigateway/app/main.go:617 | with no errors the answer is the unified read, sent with the inbound method |
| GatewayProperties.FinishWithNothingStarted | apigateway/app/main.go:609-617 | with no update started the handler answers with the read |
| GatewayProperties.NothingToUpdateRereads | apigateway/app/main.go:483-617 | a document with no allow-listed key calls neither service and answers with the read |
| Gateway.FinishUpdate | apigateway/app/main.go:587-617 | collecting, then reporting or re-reading, equals `UpdateFinish` |
| Gateway.HandleUpdateUserUnified | apigateway/app/main.go:455-620 | the update handler's response and attempted requests equal `UnifiedUpdate` |
| Gateway.HandleDeleteUser | apigateway/app/main.go:241-281 | the delete handler's response and attempted requests equal `DeleteUser`; the `user.deleted` event counts as attempted whenever it is started |
| GatewayProperties.DeleteEventIffOK | apigateway/app/main.go:264-278 | the event is posted exactly when the auth service answered 200; the reply status and body are relayed |
| GatewayProperties.DeletedEventContents | apigateway/app/main.go:284-312 | the event is a POST to `/orchestrator/user-deleted` of type user.deleted naming the user, from "api-gateway", with the caller's Authorization |
| GatewayProperties.DeleteUnavailable | apigateway/app/main.go:257-262 | a delete exchange without a reply gives 503 and no event |
| GatewayProperties.DeleteIgnoresEventOutcome | apigateway/app/main.go:264-267 | the response does not depend on how the event post went |
| Basics.Join | apigateway/app/main.go:610 | one line is itself; more lines start with the first and the separator |
| Basics.JoinLength | apigateway/app/main.go:610 | the joined text is as long as the lines plus one separator between each two |
| Basics.DecimalRoundTrip | apigateway/app/main.go:603-604 | the `%d` rendering of a status reads back as the same number |
| Basics.IntToString | apigateway/app/main.go:603-604 | a status renders as its decimal digits, with a minus sign when negative |
| AuthEvents.StringEntry | orchestrator/src/main/java/com/microservicios/orchestrator/model/AuthEvent.java:52-78 | null for a null map, a missing key or a JSON null; the text of a string; a ClassCastException for any other value |
| AuthEvents.AuthEvent.GetUserId | orchestrator/src/main/java/com/microservicios/orchestrator/model/AuthEvent.java:52-54 | `(String) data.get("id")`: null for a null `data`, a missing key or a JSON null; the text of a string entry; a ClassCastException for any other entry |
| AuthEvents.AuthEvent.GetUsername | orchestrator/src/main/java/com/microservicios/orchestrator/model/AuthEvent.java:56-58 | `(String) data.get("username")`: null for a null `data`, a missing key or a JSON null; the text of a string entry; a ClassCastException for any other entry |
| AuthEvents.AuthEvent.GetEmail | orchestrator/src/main/java/com/microservicios/orchestrator/model/AuthEvent.java:60-62 | `(String) data.get("email")`: null for a null `data`, a missing key or a JSON null; the text of a string entry; a ClassCastException for any other entry |
| AuthEvents.AuthEvent.GetPhone | orchestrator/src/main/java/com/microservicios/orchestrator/model/AuthEvent.java:64-66 | `(String) data.get("phone")`: null for a null `data`, a missing key or a JSON null; the text of a string entry; a ClassCastException for any other entry |
| AuthEvents.AuthEvent.GetIpAddress | orchestrator/src/main/java/com/microservicios/orchestrator/model/AuthEvent.java:68-70 | `(String) meta.get("ip")`: null for a null `meta`, a missing key or a JSON null; the text of a string entry; a ClassCastException for any other entry |
| AuthEvents.AuthEvent.GetTimestamp | orchestrator/src/main/java/com/microservicios/orchestrator/model/AuthEvent.java:72-74 | `(String) meta.get("timestamp")`: null for a null `meta`, a missing key or a JSON null; the text of a string entry; a ClassCastException for any other entry |
| AuthEvents.AuthEvent.GetToken | orchestrator/src/main/java/com/microservicios/orchestrator/model/AuthEvent.java:76-78 | `(String) data.get("token")`: null for a null `data`, a missing key or a JSON null; the text of a string entry; a ClassCastException for any other entry |
| AuthEvents.AuthEvent.Empty | orchestrator/src/main/java/com/microservicios/orchestrator/model/AuthEvent.java:13-16 | no type, empty `data` and `meta` |
| AuthEvents.AuthEvent.constructor | orchestrator/src/main/java/com/microservicios/orchestrator/model/AuthEvent.java:18-24 | type, data and meta stored as given |
| AuthEvents.AuthEvent.SetType | orchestrator/src/main/java/com/microservicios/orchestrator/model/AuthEvent.java:31-33 | sets the type and nothing else |
| AuthEvents.AuthEvent.SetData | orchestrator/src/main/java/com/microservicios/orchestrator/model/AuthEvent.java:39-41 | sets `data` and nothing else |
| AuthEvents.AuthEvent.SetMeta | orchestrator/src/main/java/com/microservicios/orchestrator/model/AuthEvent.java:47-49 | sets `meta` and nothing else |
| AuthEvents.EmptyEventReadsNull | orchestrator/src/main/java/com/microservicios/orchestrator/model/AuthEvent.java:13-16 | every getter of a no-argument event returns null |
| AuthEvents.NullDataReadsNull | orchestrator/src/main/java/com/microservicios/orchestrator/model/AuthEvent.java:52-66 | with a null `data` every data getter returns null without throwing |
| AuthEvents.NullMetaReadsNull | orchestrator/src/main/java/com/microservicios/orchestrator/model/AuthEvent.java:68-74 | with a null `meta` the meta getters return null |
| AuthEvents.StringEntryThrowsIff | orchestrator/src/main/java/com/microservicios/orchestrator/model/AuthEvent.java:52-78 | a getter throws exactly when its entry holds something other than a string or null |
| NotificationRequests.NotificationRequest.Blank | orchestrator/src/main/java/com/microservicios/orchestrator/model/NotificationRequest.java:12 | every field null |
| NotificationRequests.NotificationRequest.constructor | orchestrator/src/main/java/com/microservicios/orchestrator/model/NotificationRequest.java:14-17 | type and recipient set, every other field null |
| NotificationRequests.NotificationRequest.EmailNotification | orchestrator/src/main/java/com/microservicios/orchestrator/model/NotificationRequest.java:20-25 | a new request with type, recipient, template and data set, message null |
| NotificationRequests.NotificationRequest.SmsNotification | orchestrator/src/main/java/com/microservicios/orchestrator/model/NotificationRequest.java:27-31 | a new request with type, recipient and message set, template and data null |
| NotificationRequests.NotificationRequest.SetType | orchestrator/src/main/java/com/microservicios/orchestrator/model/NotificationRequest.java:38-40 | the getter returns the value set; no other field changes |
| NotificationRequests.NotificationRequest.SetRecipient | orchestrator/src/main/java/com/microservicios/orchestrator/model/NotificationRequest.java:46-48 | the getter returns the value set; no other field changes |
| NotificationRequests.NotificationRequest.SetTemplate | orchestrator/src/main/java/com/microservicios/orchestrator/model/NotificationRequest.java:54-56 | the getter returns the value set; no other field changes |
| NotificationRequests.NotificationRequest.SetMessage | orchestrator/src/main/java/com/microservicios/orchestrator/model/NotificationRequest.java:62-64 | the getter returns the value set; no other field changes |
| NotificationRequests.NotificationRequest.SetData | orchestrator/src/main/java/com/microservicios/orchestrator/model/NotificationRequest.java:70-72 | the getter returns the value set; no other field changes |
| NotificationRequests.EmailValue | orchestrator/src/main/java/com/microservicios/orchestrator/model/NotificationRequest.java:20-25 | what an email request holds: message null, template and data set |
| NotificationRequests.SmsValue | orchestrator/src/main/java/com/microservicios/orchestrator/model/NotificationRequest.java:27-31 | what an SMS request holds: template and data null, message set |
| NotificationRequests.NullableString | orchestrator/src/main/java/com/microservicios/orchestrator/service/NotificationOrchestratorService.java:51-53 | a null String is stored as JSON null, any other as its text |
| OrchestratorService.RabbitTemplate.ConvertAndSend | orchestrator/src/main/java/com/microservicios/orchestrator/service/NotificationOrchestratorService.java:170 | a send on a failing key throws and leaves the outbox alone; any other send appends one message |
| OrchestratorService.NotificationOrchestratorService.PublishNotification | orchestrator/src/main/java/com/microservicios/orchestrator/service/NotificationOrchestratorService.java:168-175 | the send is attempted and its exception swallowed: the outbox grows by the message, or not at all |
| OrchestratorService.NotificationOrchestratorService.DeliveriesOfTwo | orchestrator/src/main/java/com/microservicios/orchestrator/service/NotificationOrchestratorService.java:168-175 | two publications are delivered independently, one after the other |
| OrchestratorService.NotificationOrchestratorService.PublishEmailThenSms | orchestrator/src/main/java/com/microservicios/orchestrator/service/NotificationOrchestratorService.java:58-71 | the email is published, then the SMS when the phone rule allows it |
| OrchestratorService.NotificationOrchestratorService.HandleUserCreated | orchestrator/src/main/java/com/microservicios/orchestrator/service/NotificationOrchestratorService.java:42-72 | a throwing getter leaves the outbox alone and rethrows; otherwise the outbox grows by the deliveries of `CreatedPlan` |
| OrchestratorService.NotificationOrchestratorService.HandleUserLogin | orchestrator/src/main/java/com/microservicios/orchestrator/service/NotificationOrchestratorService.java:77-109 | the same, for `LoginPlan` |
| OrchestratorService.NotificationOrchestratorService.HandlePasswordResetRequested | orchestrator/src/main/java/com/microservicios/orchestrator/service/NotificationOrchestratorService.java:114-128 | the same, for `ResetPlan` |
| OrchestratorService.NotificationOrchestratorService.HandlePasswordUpdated | orchestrator/src/main/java/com/microservicios/orchestrator/service/NotificationOrchestratorService.java:133-163 | the same, for `PasswordUpdatedPlan` |
| OrchestratorService.GetOrDefault | orchestrator/src/main/java/com/microservicios/orchestrator/service/NotificationOrchestratorService.java:205-208 | a present label's value (null included), else the default |
| OrchestratorService.NotificationOrchestratorService.HandleAlert | orchestrator/src/main/java/com/microservicios/orchestrator/service/NotificationOrchestratorService.java:196-228 | nothing sent without items; a null first item throws NullPointerException; otherwise one `service.alert` message with `AlertPayload`, send failures swallowed |
| OrchestratorProperties.SmsIffUsablePhone | orchestrator/src/main/java/com/microservicios/orchestrator/service/NotificationOrchestratorService.java:61-71 | an SMS is added exactly when the phone is non-null and has a character above space; it goes to that phone with the handler's type and text |
| OrchestratorProperties.WhitespacePhoneGetsNoSms | orchestrator/src/main/java/com/microservicios/orchestrator/service/NotificationOrchestratorService.java:61 | a phone of whitespace only gets no SMS |
| Java.BlankIffAllTrimmable | orchestrator/src/main/java/com/microservicios/orchestrator/service/NotificationOrchestratorService.java:61 | `trim().isEmpty()` holds exactly when every character is at most a space |
| OrchestratorProperties.CreatedThrowsIff | orchestrator/src/main/java/com/microservicios/orchestrator/service/NotificationOrchestratorService.java:42-46 | user.created fails exactly when one of its four getters throws, and the first throwing getter in source order (id, username, email, phone) decides the ClassCastException |
| OrchestratorProperties.CreatedSendsConfirmation | orchestrator/src/main/java/com/microservicios/orchestrator/service/NotificationOrchestratorService.java:50-71 | whatever the phone, the first publication is the "account.confirmation" email to the event's email, template "welcome", data {username, confirmationUrl = link + id}; a second (SMS) publication exists exactly when the phone rule holds, so a null phone leaves the email alone |
| OrchestratorProperties.CreatedWithoutIdLinksToNull | orchestrator/src/main/java/com/microservicios/orchestrator/service/NotificationOrchestratorService.java:42-53 | for any data the handler accepts whose id is null (null data, no key or JSON null), the confirmation link ends in "/confirm/null"; a null username goes into the data as JSON null |
| OrchestratorProperties.CreatedSmsFollowsEmail | orchestrator/src/main/java/com/microservicios/orchestrator/service/NotificationOrchestratorService.java:55-71 | with a usable phone the email is followed by the "account.created" welcome SMS to that phone |
| OrchestratorProperties.LoginDefaults | orchestrator/src/main/java/com/microservicios/orchestrator/service/NotificationOrchestratorService.java:77-105 | for any data and meta the handler accepts, the first publication is the "security.login" email to the event's email, template "security-alert", data {username, ip, timestamp}; a null ip (null meta, missing key or JSON null) reads "IP desconocida" and a null timestamp is the clock; the SMS, present exactly when the phone rule holds, carries the same ip and time |
| OrchestratorProperties.LoginUsesMeta | orchestrator/src/main/java/com/microservicios/orchestrator/service/NotificationOrchestratorService.java:77-105 | meta's ip and timestamp reach the email data and the "security.login" SMS text |
| OrchestratorProperties.ResetNeverSms | orchestrator/src/main/java/com/microservicios/orchestrator/service/NotificationOrchestratorService.java:114-128 | exactly one publication: the "password.reset" email to the event's email, template "password-reset", with the reset link built from the token; never an SMS |
| OrchestratorProperties.ResetIgnoresOtherFields | orchestrator/src/main/java/com/microservicios/orchestrator/service/NotificationOrchestratorService.java:115-116 | only the email and token entries affect the reset |
| OrchestratorProperties.PasswordUpdatedDefaults | orchestrator/src/main/java/com/microservicios/orchestrator/service/NotificationOrchestratorService.java:133-159 | for any data and meta the handler accepts, the first publication is the "security.password_change" email to the event's email, template "password-changed", data {username, timestamp}; a null timestamp (null meta, missing key or JSON null) is the clock; the SMS, present exactly when the phone rule holds, carries the same time |
| OrchestratorProperties.DeliveriesAppend | orchestrator/src/main/java/com/microservicios/orchestrator/service/NotificationOrchestratorService.java:168-175 | each publication is sent on its own, so deliveries distribute over concatenation |
| OrchestratorProperties.HealthyBrokerDeliversAll | orchestrator/src/main/java/com/microservicios/orchestrator/service/NotificationOrchestratorService.java:168-175 | with no failing key every publication arrives, in order, on its channel's routing key |
| OrchestratorProperties.FailedEmailKeepsSms | orchestrator/src/main/java/com/microservicios/orchestrator/service/NotificationOrchestratorService.java:168-175 | a failed email send does not stop the SMS |
| OrchestratorProperties.DeliveriesBounded | orchestrator/src/main/java/com/microservicios/orchestrator/service/NotificationOrchestratorService.java:168-175 | no message on a failing key, and no more messages than publications |
| OrchestratorProperties.AlertNothingWithoutItems | orchestrator/src/main/java/com/microservicios/orchestrator/service/NotificationOrchestratorService.java:197-200 | a null event, null list or empty list sends nothing |
| OrchestratorProperties.AlertUsesFirstItem | orchestrator/src/main/java/com/microservicios/orchestrator/service/NotificationOrchestratorService.java:202 | only the first alert is read |
| OrchestratorProperties.AlertNullFirstThrows | orchestrator/src/main/java/com/microservicios/orchestrator/service/NotificationOrchestratorService.java:202-203 | a null first alert throws |
| OrchestratorProperties.AlertUnknownLabels | orchestrator/src/main/java/com/microservicios/orchestrator/service/NotificationOrchestratorService.java:203-218 | an alert without labels reports every label as "unknown" |
| OrchestratorProperties.AlertLabelsCarried | orchestrator/src/main/java/com/microservicios/orchestrator/service/NotificationOrchestratorService.java:205-214 | for any labels map, the payload has exactly the six keys; each of service, alertname, instance and severity is carried when present (null included) and is "unknown" when absent; type is "service.alert" and timestamp the clock |
| AuthEventListeners.Route | orchestrator/src/main/java/com/microservicios/orchestrator/listener/AuthEventListener.java:29-43 | a handler is chosen exactly for the four known keys |
| AuthEventListeners.RouteInjective | orchestrator/src/main/java/com/microservicios/orchestrator/listener/AuthEventListener.java:29-43 | different keys never choose the same handler |
| AuthEventListeners.EachKeyRunsItsHandler | orchestrator/src/main/java/com/microservicios/orchestrator/listener/AuthEventListener.java:30-40 | each known key runs exactly its own handler |
| AuthEventListeners.UnknownKeyIgnored | orchestrator/src/main/java/com/microservicios/orchestrator/listener/AuthEventListener.java:42-43 | any other key publishes nothing and does not throw |
| AuthEventListeners.AuthEventListener.HandleAuthEvent | orchestrator/src/main/java/com/microservicios/orchestrator/listener/AuthEventListener.java:25-50 | the dispatched handler's publications reach the outbox, and its exception is rethrown with the outbox untouched |

## Left out

- Network I/O of `proxyRequest`: each exchange's outcome is given by the `upstream` parameter. Client timeouts and reading the reply body are not modelled.
- `publishUserDeletedEvent` runs in its own goroutine and its outcome never reaches the response. The model records the event request as attempted when it is started. It does not model the event's exchange: a failure of `json.Marshal`, of `http.NewRequest` or of the POST itself is only logged, and the orchestrator's reply is not read.
- Goroutines, the WaitGroup and the result channel: arrival order is the `profileFirst` parameter, and the collection loops run over the arrived list.
- The `results` map of the update handler is filled but never read by the source. It is modelled (`CollectUpdateResults`) but plays no part in the response.
- JSON byte syntax, number precision and key order from `encoding/json`: a body is either a JSON value or malformed. The encoder's trailing newline is not modelled.
- Header-key canonicalisation by `http.Header`: keys are compared as given.
- Logging throughout (`log.Printf`, SLF4J), `loggingMiddleware` and the response-writer wrapper.
- The single-upstream pass-through handlers, health, documentation and OpenAPI handlers, routing and `main`: these are outside the aggregation core.
- Clocks: `time.Now` in the delete event and `LocalDateTime.now()` in the handlers are the `now` parameter.
- `formatTimestampForSms`: date parsing and formatting are the `smsTime` parameter.
- `RabbitTemplate.convertAndSend` serialisation and the Spring wiring: the outbox stores a value snapshot of each message. The message of a thrown exception is not modelled in detail.
- OrchestratorService.RabbitTemplate.ConvertAndSend: broker failure is modelled per routing key, not per send. Every send on a key in `failing` throws and every other send succeeds. The model therefore cannot express a one-off failure, or an email and an SMS key with the same value where only one of the two sends fails. `DeliveriesBounded`'s "no message on a failing key" holds only under this choice.
- `NotificationRequest.toString`, `AuthEvent.toString` and the plain field getters of `AuthEvent`, `AlertEvent` and `AlertItem`: the model reads the fields directly.
- Aliasing of the Java maps: the `data` map passed to a request, and the maps stored in an event, are values in the model. Later mutation through another reference is not modelled.
- A null event or a null routing key given to `handleAuthEvent`: the message converter always supplies both. These cases are not modelled.
- The controller, configuration and health classes of the orchestrator, and all test and build files.

# node-apn Notification, modelled in Dafny

This project models the `Notification` object of node-apn, the message that
is handed to the Apple Push Notification service. What the object promises is
taken from its test suite, `test/notification/index.js`. The implementation,
`lib/notification`, is not part of this model.

A notification holds mutable message state:

- an application `payload` object;
- an optional `rawPayload` that replaces the whole body when set;
- the aps accessors `alert`/`alertBody`, `badge` and `sound`, plus `mdm`;
- the header fields `priority`, `id`, `expiry`, `topic`, `collapseId`,
  `requestId`, `channelId` and `pushType`;
- the compile memo, a `compiled` flag plus the cached string.

From that state it produces a JSON body (`toJSON()`, and the memoized
`compile()` and `length()`) and a sparse header map (`headers()`). It has two
shaping operations, `addPushTypeToPayloadIfNeeded()` and
`removeNonChannelRelatedProperties()`.

Files:

- `json.dfy` holds `Wrappers.Option` and the module `Json`. A JavaScript
  object is an ordered list of members. `JSON.stringify` writes string keys in
  insertion order, but keys that are array indices (`"0"`, `"1"`, …) come
  first, in ascending numeric order; the model keeps every key in insertion
  order (see "Left out"). The module has object access (`Get`, `Set`, `Remove`, each
  working on a copy) and the text `JSON.stringify` produces (`Stringify`, with
  its string escapes and integer digits).
- `notification.dfy` holds the module `Notifications`:
  - `NoteState`, a value snapshot of the message state;
  - pure functions for what the object computes: `Assigned`, `Constructed`,
    `ToJSON`, `Headers`, `WithDefaultPushType` and `ChannelOnly`;
  - `class Notification`, whose real fields are assigned in place. Each of its
    methods is specified by the function above that it implements.
- `notification_tests.dfy` holds the module `NotificationScenarios`. Each case
  of the test suite is a method that performs the same steps on a
  `Notification` and states, as its postcondition, what the test expects.

Constants the tests do not fix are chosen in the model:

- the default priority is 10 (the tests only need 5 to be non-default);
- the default expiry is -1 (the tests need a negative default).

The tests fix the push type that is added to a payload: `"liveactivity"`.

A `payload.aps` the caller placed by hand is replaced by the setter-built aps
object, and is left out when that object is empty, as
`test/notification/index.js:94-107` expects. Setter values are not merged into
it key by key. So the model treats `toJSON()` as
`{...payload, aps: <setter-built aps>}`.

Every object a JavaScript program holds has each key at most once, at every
depth. `Notifications.WellFormed` states this of the payload, the raw payload
and the aps object, and `Notification.Valid()` is that predicate on the
object's fields. The constructor and `Assign` accept only object values of
that kind (`ValidProperty`); every method keeps `Valid()`, and `Compile` uses
it to show that the compiled text is the serialization of such a value.

## Model

| member | source | states |
|---|---|---|
| Json.Get | test/notification/index.js:99-106 | `o[k]` is absent exactly when k is not a key; when present, the member is in the object, and in an object without duplicate keys it is that member's value |
| Json.Set | test/notification/index.js:124-129 | after `o[k] = v`, k maps to v and every other key maps to what it did before |
| Json.SetExistingKeys | test/notification/index.js:124-129 | overwriting an existing key keeps every key in its position |
| Json.SetNewAppends | test/notification/index.js:118-122 | a new key is appended after all existing members |
| Json.SetUnique | test/notification/index.js:83-91 | setting a key keeps the object free of duplicate keys |
| Json.SetMembers | test/notification/index.js:83-91 | every member after `o[k] = v` is the new member or was in the object before |
| Json.SetValid | test/notification/index.js:83-91 | setting a key of a valid object to a valid value keeps the object valid: no key twice at any depth |
| Json.Remove | test/notification/index.js:104-106 | after `delete o[k]`, k is absent and every other key maps to what it did before |
| Json.RemoveAbsent | test/notification/index.js:77-80 | deleting a key the object lacks leaves the object unchanged |
| Json.RemoveUnique | test/notification/index.js:99-106 | deleting a key keeps the object free of duplicate keys and adds no key |
| Json.RemoveConcat | test/notification/index.js:99-106 | deleting from a concatenation deletes from each part and concatenates the results, so the members that stay keep their order |
| Json.RemoveSingle | test/notification/index.js:99-106 | a single member is kept by a deletion exactly when its key differs from the deleted one |
| Json.RemoveMembers | test/notification/index.js:99-106 | every member left after a deletion was in the object before and has another key |
| Json.RemoveValid | test/notification/index.js:99-106 | deleting a key keeps a valid object valid |
| Json.Stringify | test/notification/index.js:21-24 | the serialized text is non-empty; an object serializes between braces, a string between quotation marks |
| Json.Escape | test/notification/index.js:111-114 | escaping never shortens a string and leaves a string of plain characters as it is |
| Json.EscapeChar | test/notification/index.js:111-114 | a character is written as itself exactly when it is plain (not a quotation mark, backslash or control character) |
| Json.QuotePlain | test/notification/index.js:111-114 | a plain string is written between quotation marks unchanged, so it takes two more characters than it has |
| Json.Digits | test/notification/index.js:11-19 | an integer's digits are non-empty, decimal, without a leading zero, and denote that integer |
| Notifications.Assigned | test/notification/index.js:36-54 | after an assignment, the slot it writes holds the assigned value (with AssignedFrame: every other slot is unchanged) |
| Notifications.AssignedFrame | test/notification/index.js:36-54 | an assignment leaves every other slot as it was |
| Notifications.AssignedWellFormed | test/notification/index.js:83-91 | assigning a valid value keeps the payload, the raw payload and the aps object free of duplicate keys at every depth |
| Notifications.Constructed | test/notification/index.js:10-19 | the constructor leaves the last property it was given stored as given (with ConstructedStores and ConstructedUntouched: each earlier property unless overwritten, and the defaults elsewhere) |
| Notifications.ConstructedStores | test/notification/index.js:11-19 | the constructor stores each property as given, unless a later property writes the same slot |
| Notifications.ConstructedSnoc | test/notification/index.js:11-19 | constructing with one more property is the same as assigning that property afterwards |
| Notifications.ConstructedUntouched | test/notification/index.js:21-24 | a slot that no property writes keeps its default |
| Notifications.ConstructedWellFormed | test/notification/index.js:11-19 | a notification constructed from valid values has no key twice at any depth in its payload, raw payload or aps object |
| Notifications.ToJSON | test/notification/index.js:28-107 | a raw payload is the output; otherwise the output is an object with the payload's keys, except `aps`, which holds the setter-built aps object, or is absent when that object is empty |
| Notifications.ToJSONValid | test/notification/index.js:94-107 | the output of a well-formed state has no key twice at any depth, on the raw path and on the payload path |
| Notifications.ToJSONPlainPayload | test/notification/index.js:75-81 | with no aps key in the payload and no aps setter used, the output is the payload itself |
| Notifications.RawPayloadWins | test/notification/index.js:36-54 | while a raw payload is set, no other assignment changes the raw payload or the output |
| Notifications.Headers | test/notification/index.js:162-244 | each header appears exactly under its own rule: priority when not the default, expiration when the expiry is at least 0, the string fields when set and non-empty; each carries its field's value; no other key appears |
| Notifications.WithDefaultPushType | test/notification/index.js:117-138 | a raw payload or an existing push-type leaves the state unchanged; otherwise `push-type: "liveactivity"` is appended to the payload and nothing else changes |
| Notifications.WithDefaultPushTypeIdempotent | test/notification/index.js:124-129 | adding the default push type twice is the same as adding it once |
| Notifications.ChannelOnlyHeaders | test/notification/index.js:141-159 | the headers afterwards are exactly the channel headers (channel id, expiration, request id) the state had, with their values, and the body is unchanged |
| Notifications.Notification.constructor | test/notification/index.js:10-24 | the new object's state is the defaults with each given property assigned in turn; it is valid and not compiled yet |
| Notifications.Notification.Assign | test/notification/index.js:36-54 | the state after `note.key = value` is `Assigned` of the old state and stays valid; the compile memo is untouched |
| Notifications.Notification.Update | test/notification/index.js:36-54 | the object's fields afterwards hold exactly the given state; the compile memo is untouched |
| Notifications.Notification.Compile | test/notification/index.js:247-282 | returns the cached string while `compiled` holds, otherwise the serialization of the current `toJSON()`, which is the text of a value with no key twice; afterwards the result is cached and `compiled` holds |
| Notifications.Notification.Length | test/notification/index.js:110-114 | the length of the compiled string, compiling first when needed |
| Notifications.Notification.AddPushTypeToPayloadIfNeeded | test/notification/index.js:117-138 | the new state is `WithDefaultPushType` of the old; only the payload may change |
| Notifications.Notification.RemoveNonChannelRelatedProperties | test/notification/index.js:141-159 | the new state is `ChannelOnly` of the old: priority back to the default, and id, topic, collapseId and pushType unset |
| NotificationScenarios.AcceptsInitializationValues | test/notification/index.js:11-19 | payload `{foo: 'bar'}`, priority 5 and topic `io.apn.node` are stored, and the body is `{"foo":"bar","aps":{"badge":5}}` |
| NotificationScenarios.NoInitializationValues | test/notification/index.js:21-24 | a fresh notification compiles to `{}` |
| NotificationScenarios.RawPayloadIsOutput | test/notification/index.js:28-34 | the raw payload is kept and is the compiled body |
| NotificationScenarios.RawPayloadNotClobberedByAps | test/notification/index.js:36-44 | after `alertBody` is assigned, the raw payload and the compiled body are still the original, aps included |
| NotificationScenarios.RawPayloadOverMdm | test/notification/index.js:46-54 | after `mdm` is assigned, the raw payload and the compiled body are unchanged |
| NotificationScenarios.RawPayloadFromConstructor | test/notification/index.js:56-72 | a raw payload from the constructor is compiled with all its properties, aps included |
| NotificationScenarios.PayloadWithoutAps | test/notification/index.js:76-81 | a payload without aps compiles to exactly its own keys |
| NotificationScenarios.SettersLeavePayloadAlone | test/notification/index.js:83-91 | after the badge and sound setters and `toJSON()`, the payload is still `{foo, baz}`, and the body adds aps after them |
| NotificationScenarios.PayloadApsIsReplaced | test/notification/index.js:94-107 | a payload with its own aps compiles to foo and baz only, with no aps key |
| NotificationScenarios.LengthOfAlert | test/notification/index.js:110-114 | with only `alert = 'length'`, `length()` is 26 |
| NotificationScenarios.AddsLiveActivityPushType | test/notification/index.js:118-122 | an empty payload becomes `{'push-type': 'liveactivity'}` |
| NotificationScenarios.KeepsExistingPushType | test/notification/index.js:124-129 | a payload with push-type `alert` keeps it |
| NotificationScenarios.NoPushTypeWithRawPayload | test/notification/index.js:131-138 | with a raw payload, the raw payload and the compiled body are unchanged |
| NotificationScenarios.ChannelHeadersOnly | test/notification/index.js:142-159 | after every header field is set and the channel filter runs, the headers are exactly channel id, expiration 1000 and request id |
| NotificationScenarios.NoHeadersByDefault | test/notification/index.js:163-165 | a fresh notification has no headers |
| NotificationScenarios.PriorityHeaderWhenNonDefault | test/notification/index.js:167-172 | priority 5 gives `apns-priority: 5` |
| NotificationScenarios.IdHeaderWhenSet | test/notification/index.js:174-180 | a set id gives `apns-id` with that id |
| NotificationScenarios.ExpirationHeaderWhenPositive | test/notification/index.js:182-188 | expiry 1000 gives `apns-expiration: 1000` |
| NotificationScenarios.ExpirationHeaderWhenZero | test/notification/index.js:190-196 | expiry 0 gives `apns-expiration: 0` |
| NotificationScenarios.NoExpirationHeaderWhenNegative | test/notification/index.js:198-204 | expiry -1 gives no `apns-expiration` |
| NotificationScenarios.TopicHeaderWhenSet | test/notification/index.js:206-212 | a set topic gives `apns-topic` |
| NotificationScenarios.CollapseIdHeaderWhenSet | test/notification/index.js:214-220 | a set collapseId gives `apns-collapse-id` |
| NotificationScenarios.RequestIdHeaderWhenSet | test/notification/index.js:222-228 | a set requestId gives `apns-request-id` |
| NotificationScenarios.ChannelIdHeaderWhenSet | test/notification/index.js:230-236 | a set channelId gives `apns-channel-id` |
| NotificationScenarios.PushTypeHeaderWhenSet | test/notification/index.js:238-244 | a set pushType gives `apns-push-type` |
| NotificationScenarios.CompilesJSONPayload | test/notification/index.js:255-259 | a string body `payload` compiles to `"payload"`, quotation marks included |
| NotificationScenarios.ReturnsJSONPayload | test/notification/index.js:261-265 | an empty object body compiles to `{}` |
| NotificationScenarios.MemoizesJSONPayload | test/notification/index.js:267-274 | after a first compile, a changed body still compiles to the first string, `"payload1"` |
| NotificationScenarios.RecompilesWhenReset | test/notification/index.js:276-282 | after `compiled` is reset, the changed body is compiled, `"payload2"` |

## Left out

- `lib/notification` itself is not part of this model. Only the behaviour its tests assert is modelled.
- The compile tests replace `toJSON()` with a stub. The model gets the same effect by setting `rawPayload` to the stubbed value, since a raw payload is returned unchanged.
- `JSON.parse`, which the tests use to read the compiled text back, is not modelled. The scenarios state which value the compiled text serializes.
- Aliasing is not modelled. Payloads are values, so a caller's payload object can never be changed through the notification. The model therefore does not show the copy-on-write that avoids such a change; it only shows that the payload the notification holds stays as given.
- `Notifications.ToJSON` leaves `mdm` out of the body on the payload path. How `mdm` appears there is not shown; only its override by a raw payload is tested.
- Only the aps accessors the tests use are modelled: `alert`, `alertBody`, `badge` and `sound`. Other aps keys, and alerts given as objects, are not modelled. `alertBody` writes the alert text, as `alert` does.
- Json.Set, Json.SetNewAppends, Json.Stringify: keys that look like array indices (`"0"`, `"1"`, …) stay in insertion order. JavaScript enumerates such keys first, in ascending numeric order. No payload in the tests has such a key.
- Numbers are integers only: no floating point and no exponent notation.
- `Notifications.Notification.Length` counts characters of the compiled string, not UTF-8 bytes. The two agree on the ASCII text the tests use.
- Network transport, HTTP/2 framing, connection handling and payload-size enforcement are outside this object and not modelled.
- Serialization failures such as circular references cannot occur with a finite JSON datatype, so they are not modelled.

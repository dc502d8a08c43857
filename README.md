# Hands-On RESTful Python Web Services — the logic behind the handlers

This project models the parts of the book's sample services that have
their own logic, apart from the web frameworks they are wired into:

- **The simulated drone** of the Tornado service. `Hexacopter` has a motor
  speed bounded to 0..500 and is on exactly when the speed is non-zero.
  `LightEmittingDiode` has a brightness level bounded to 0..255.
  `Altimeter` reads a random altitude in 0..3000 feet. `Drone` has three
  LEDs keyed by their ids. The property setters check a value before they
  assign it. A rejected value raises `ValueError`, here an `Outcome`
  value, and changes nothing (`drone.dfy`).
- **The authenticated Flask service's model logic**: the ordered
  password-strength checks that guard hashing, the uniqueness checks on
  notification messages and category names, and the hook that normalises
  a notification's category before it is loaded (`service_models.dfy`).
- **Two in-memory stores that allocate ids.** The first Flask notification
  service and the Pyramid surfboard-metrics service each keep a dictionary
  from id to record. Ids come from a class-level counter that every manager
  of the class shares and that never goes down (`ids.dfy`,
  `notification_model.dfy`, `notification_service.dfy`, `metrics.dfy`).
  The notification handlers are modelled with them: the 404 guard, delete,
  partial update by PATCH, list and create.
- **The `HttpStatus` enumeration** and its five class predicates
  (section 15 of RFC 9110, formerly section 6 of RFC 7231). It also
  holds 428, 429, 431 and 511 from RFC 6585 and 451 from RFC 7725
  (`http_status.dfy`).

Code that changes state in place is modelled as classes with `modifies`
frames: the drone parts, the user's password hash, the request's `data`
dictionary, the managers and their shared counter, and the patched record.
Enumerations and predicates are datatypes and functions. `wrappers.dfy`,
`collections.dfy` and `text.dfy` hold small shared helpers: `Option` and
`Result`, a first-match search, the least element of a set, and decimal
rendering of integers for error messages.

## Model

| member | source | states |
|---|---|---|
| Drone.Hexacopter.constructor | Chapter11/restful_python_2_11_02/Tornado01/drone.py:15-17 | a new hexacopter has motor speed 0 and is turned off |
| Drone.Hexacopter.SetMotorSpeed | Chapter11/restful_python_2_11_02/Tornado01/drone.py:23-30 | a speed below 0 or above 500 fails with the minimum/maximum message and leaves speed and flag unchanged; an accepted speed is stored exactly and the hexacopter is on iff the speed is non-zero; the bounds invariant is kept |
| Drone.Hexacopter.Status | Chapter11/restful_python_2_11_02/Tornado01/drone.py:37-40 | the snapshot's speed and flag equal the current fields, so it obeys the same bounds and on-iff-moving rule; nothing changes |
| Drone.LightEmittingDiode.constructor | Chapter11/restful_python_2_11_02/Tornado01/drone.py:47-50 | a new LED keeps the given id and description, which are constants from then on, and has brightness 0 |
| Drone.LightEmittingDiode.BrightnessLevel | Chapter11/restful_python_2_11_02/Tornado01/drone.py:52-55 | the getter returns the stored level, which lies in 0..255 |
| Drone.LightEmittingDiode.SetBrightnessLevel | Chapter11/restful_python_2_11_02/Tornado01/drone.py:57-64 | a level below 0 or above 255 fails with the minimum/maximum message and leaves the level unchanged; an accepted level is stored exactly |
| Drone.SetThenReadBrightness | Chapter11/restful_python_2_11_02/Tornado01/drone.py:52-64 | a set succeeds iff the level is in 0..255; the next read then returns the level set, or the previous level after a rejection |
| Drone.Altimeter.Altitude | Chapter11/restful_python_2_11_02/Tornado01/drone.py:67-71 | a reading is some altitude in 0..3000 feet |
| Drone.Drone.constructor | Chapter11/restful_python_2_11_02/Tornado01/drone.py:74-84 | a new drone has fresh parts: a stopped hexacopter and three dark, distinct LEDs named Red, Green and Blue; `leds` maps exactly 1, 2, 3 to the LED whose id is that key |
| Drone.Drone.Led | Chapter11/restful_python_2_11_02/Tornado01/drone.py:81-84 | looking an id up in `leds` succeeds iff the id is 1, 2 or 3, and yields the LED with that id |
| Ids.IdCounter.constructor | Chapter01/restful_python_2_01_02/Flask01/service/service.py:10 | the class-level counter starts at 0 |
| NotificationModels.NotificationModel.constructor | Chapter01/restful_python_2_01_01/Flask01/service/models.py:2-10 | a new record has id 0, displayed_times 0 and displayed_once false, and stores message, ttl, creation date and category as given |
| NotificationService.NotificationManager.constructor | Chapter01/restful_python_2_01_02/Flask01/service/service.py:11-12 | a new manager shares the given counter and starts with no notifications |
| NotificationService.NotificationManager.InsertNotification | Chapter01/restful_python_2_01_02/Flask01/service/service.py:14-17 | the shared counter goes up by exactly 1; its new value becomes the record's id, which is above every id stored before; the record is stored under it and every earlier entry is kept |
| NotificationService.NotificationManager.GetNotification | Chapter01/restful_python_2_01_02/Flask01/service/service.py:19-20 | returns the record stored under the id, or a KeyError for an id not stored |
| NotificationService.NotificationManager.DeleteNotification | Chapter01/restful_python_2_01_02/Flask01/service/service.py:22-23 | removes exactly that key and keeps all others; a missing id raises KeyError and changes nothing |
| NotificationService.InsertedNotificationIsFound | Chapter01/restful_python_2_01_02/Flask01/service/service.py:14-20 | after an insert, looking up the new id returns the inserted record |
| NotificationService.NotificationIdsNeverReused | Chapter01/restful_python_2_01_02/Flask01/service/service.py:9-23 | two managers share the counter: after insert and delete through one, an insert through the other gets the next id, and the deleted id stays unknown |
| NotificationService.GetHandler | Chapter01/restful_python_2_01_02/Flask01/service/service.py:42-51 | an unknown id aborts with 404 and "Notification {id} not found"; a known id answers with the stored record |
| NotificationService.DeleteHandler | Chapter01/restful_python_2_01_02/Flask01/service/service.py:53-56 | an unknown id aborts with 404 and leaves the store unchanged; a known id is removed alone and the answer is 204 with an empty body |
| NotificationService.PatchHandler | Chapter01/restful_python_2_01_02/Flask01/service/service.py:58-77 | an unknown id aborts with 404; otherwise each of message, ttl, displayed_times and displayed_once is overwritten iff its parsed argument is present, the rest keep their values, the id is unchanged and the record is answered |
| NotificationService.ListHandler | Chapter01/restful_python_2_01_02/Flask01/service/service.py:80-83 | the answer lists exactly the stored records, one per stored id, in increasing id order (dictionary insertion order) |
| NotificationService.PostHandler | Chapter01/restful_python_2_01_02/Flask01/service/service.py:85-99 | creates a fresh record from the arguments and the clock reading with default display fields, stores it under the next id (counter + 1) and answers 201 |
| Metrics.SurferStatus.Value | Chapter09/restful_python_2_09_01/Pyramid01/metrics/metrics/models/metrics.py:33-38 | every member's value lies in 0..4 |
| Metrics.SurferStatusFromValue | Chapter09/restful_python_2_09_01/Pyramid01/metrics/metrics/models/metrics.py:33-38 | lookup by value succeeds iff the value is in 0..4 and returns the member with that value |
| Metrics.SurferStatusFromName | Chapter09/restful_python_2_09_01/Pyramid01/metrics/metrics/models/metrics.py:33-38 | lookup by name returns only a member with that name |
| Metrics.SurferStatusesNumberedInOrder | Chapter09/restful_python_2_09_01/Pyramid01/metrics/metrics/models/metrics.py:33-38 | the enumeration has five members, numbered 0..4 in the order IDLE, PADDLING, RIDING, RIDE_FINISHED, WIPED_OUT |
| Metrics.SurferStatusLookupRoundTrip | Chapter09/restful_python_2_09_01/Pyramid01/metrics/metrics/models/metrics.py:33-38 | lookup by value and by name finds each member again, so values and names are distinct |
| Metrics.SurfboardMetricModel.constructor | Chapter09/restful_python_2_09_01/Pyramid01/metrics/metrics/models/metrics.py:7-13 | a new metric has id 0 and stores status, speed, altitude and water temperature as given |
| Metrics.SurfboardMetricManager.constructor | Chapter09/restful_python_2_09_01/Pyramid01/metrics/metrics/models/metrics.py:18-19 | a new manager shares the given counter and starts with no metrics |
| Metrics.SurfboardMetricManager.InsertMetric | Chapter09/restful_python_2_09_01/Pyramid01/metrics/metrics/models/metrics.py:21-24 | the shared counter goes up by exactly 1; its new value becomes the metric's id, which is above every stored id; the metric is stored under it and every earlier entry is kept |
| Metrics.SurfboardMetricManager.GetMetric | Chapter09/restful_python_2_09_01/Pyramid01/metrics/metrics/models/metrics.py:26-27 | returns the metric stored under the id, or a KeyError for an id not stored |
| Metrics.SurfboardMetricManager.DeleteMetric | Chapter09/restful_python_2_09_01/Pyramid01/metrics/metrics/models/metrics.py:29-30 | removes exactly that key and keeps all others; a missing id raises KeyError and changes nothing |
| Metrics.InsertedMetricIsFound | Chapter09/restful_python_2_09_01/Pyramid01/metrics/metrics/models/metrics.py:21-27 | after an insert, looking up the new id returns the inserted metric |
| Metrics.MetricIdsNeverReused | Chapter09/restful_python_2_09_01/Pyramid01/metrics/metrics/models/metrics.py:16-30 | two managers share the counter: after insert and delete through one, an insert through the other gets the next id, and the deleted id stays unknown |
| ServiceModels.FirstFailedCheck | Chapter04/restful_python_2_04_01/Flask01/service/models.py:37-48 | the index returned is that of the first check the password fails: every earlier check holds, and the check at the index fails unless the index is past the end |
| ServiceModels.FirstFailingCheckReported | Chapter04/restful_python_2_04_01/Flask01/service/models.py:37-48 | the checks run in the order short, long, uppercase, lowercase, digit, symbol; the first one that fails is the one reported |
| ServiceModels.PasswordAcceptedIff | Chapter04/restful_python_2_04_01/Flask01/service/models.py:36-50 | the verdict is ('', True) iff the length is 8..32 and the password has an A–Z letter, an a–z letter, a digit and a symbol; a rejection carries the failed check's message |
| ServiceModels.ShortPasswordRejected | Chapter04/restful_python_2_04_01/Flask01/service/models.py:37-38 | a password shorter than 8 characters fails the "too short" check |
| ServiceModels.LongPasswordRejected | Chapter04/restful_python_2_04_01/Flask01/service/models.py:39-40 | a password longer than 32 characters fails the "too long" check |
| ServiceModels.TestUserPasswordAccepted | Chapter04/restful_python_2_04_01/Flask01/service/models.py:36-50 | the test suite's password `T3s!p4s5w0RDd12#` passes every check |
| ServiceModels.AtSignIsNoSymbol | Chapter04/restful_python_2_04_01/Flask01/service/models.py:47-48 | `@` is outside the symbol class, so `Passw0rd@` fails the symbol check |
| ServiceModels.User.constructor | Chapter04/restful_python_2_04_01/Flask01/service/models.py:52-53 | a new user keeps the given name and has no password hash yet |
| ServiceModels.User.CheckPasswordStrengthAndHashIfOk | Chapter04/restful_python_2_04_01/Flask01/service/models.py:36-50 | returns the message of the first failing check and False, or ('', True); only a password that passes stores its hash, and a rejection leaves the hash untouched |
| ServiceModels.IsMessageUnique | Chapter04/restful_python_2_04_01/Flask01/service/models.py:66-75 | holds iff no notification has the message, or the first one that has it has the given id |
| ServiceModels.IsNameUnique | Chapter04/restful_python_2_04_01/Flask01/service/models.py:87-96 | holds iff no category has the name, or the first one that has it has the given id |
| ServiceModels.MessageUniqueUnderConstraint | Chapter04/restful_python_2_04_01/Flask01/service/models.py:56-75 | in a table whose message column is unique, the check holds iff every notification with that message has the given id |
| ServiceModels.NameUniqueUnderConstraint | Chapter04/restful_python_2_04_01/Flask01/service/models.py:83-96 | in a table whose name column is unique, the check holds iff every category with that name has the given id |
| ServiceModels.NewCategoryNameUniqueIff | Chapter04/restful_python_2_04_01/Flask01/service/models.py:87-96 | called with id 0 for a new category, while stored ids are 1 or more, the check holds iff no category has the name |
| ServiceModels.PatchWithOwnMessageRefused | Chapter04/restful_python_2_04_01/Flask01/service/views.py:94-98 | the PATCH handler checks with id 0, so resending a notification's own message is refused; the check with the notification's id allows it |
| ServiceModels.PatchWithOwnMessageAllowed | Chapter04/restful_python_2_04_01/Flask01/service/models.py:66-75 | in a table whose message column is unique, the check made with the notification's id always lets the notification keep its own message |
| ServiceModels.NormalizedCategoryShape | Chapter04/restful_python_2_04_01/Flask01/service/models.py:131-143 | the stored category is always a dictionary whose only possible key is `name`; it is empty iff the field was missing or falsy |
| ServiceModels.NormalizedCategoryIdempotent | Chapter04/restful_python_2_04_01/Flask01/service/models.py:131-143 | normalising an already normalised category changes nothing |
| ServiceModels.ProcessNotificationCategory | Chapter04/restful_python_2_04_01/Flask01/service/models.py:131-143 | returns the same dictionary; sets `notification_category` to `{name: d.get('name')}` for a dictionary `d`, to `{name: v}` for another truthy `v`, and to `{}` when missing or falsy; every other key keeps its value |
| HttpStatusCodes.HttpStatus.Value | Chapter04/restful_python_2_04_02/Flask01/service/http_status.py:4-50 | every member's value is a status code in 100..599 |
| HttpStatusCodes.SuffixIsDigits | Chapter04/restful_python_2_04_02/Flask01/service/http_status.py:5-50 | every member name's numeric suffix is three decimal digits |
| HttpStatusCodes.SuffixSpellsValue | Chapter04/restful_python_2_04_02/Flask01/service/http_status.py:5-50 | every member name's numeric suffix spells its value |
| HttpStatusCodes.NameEndsWithValue | Chapter04/restful_python_2_04_02/Flask01/service/http_status.py:5-50 | every member name ends with an underscore and three digits that spell the member's value |
| HttpStatusCodes.FromValue | Chapter04/restful_python_2_04_02/Flask01/service/http_status.py:4-50 | lookup by value returns only a member with that value |
| HttpStatusCodes.ValueLookupRoundTrip | Chapter04/restful_python_2_04_02/Flask01/service/http_status.py:5-50 | looking up a member's value finds that member |
| HttpStatusCodes.ValuesDistinct | Chapter04/restful_python_2_04_02/Flask01/service/http_status.py:5-50 | no two members share a value, so none is an alias |
| HttpStatusCodes.HttpStatus.IsInformational | Chapter04/restful_python_2_04_02/Flask01/service/http_status.py:52-54 | holds iff the code's class digit is 1 (100..199), as intended |
| HttpStatusCodes.HttpStatus.IsSuccess | Chapter04/restful_python_2_04_02/Flask01/service/http_status.py:56-58 | holds iff the code's class digit is 2 (200..299) |
| HttpStatusCodes.HttpStatus.IsRedirect | Chapter04/restful_python_2_04_02/Flask01/service/http_status.py:60-62 | holds iff the code's class digit is 3 (300..399) |
| HttpStatusCodes.HttpStatus.IsClientError | Chapter04/restful_python_2_04_02/Flask01/service/http_status.py:64-66 | holds iff the code's class digit is 4 (400..499) |
| HttpStatusCodes.HttpStatus.IsServerError | Chapter04/restful_python_2_04_02/Flask01/service/http_status.py:68-70 | holds iff the code's class digit is 5 (500..599) |
| HttpStatusCodes.ExactlyOneClass | Chapter04/restful_python_2_04_02/Flask01/service/http_status.py:52-70 | every member satisfies exactly one of the five class predicates, so the classes are pairwise disjoint |
| HttpStatusCodes.IsInformationalAsWritten | Chapter04/restful_python_2_04_02/Flask01/service/http_status.py:52-54 | the declared static method succeeds iff it gets exactly two arguments, and then tests the second one's value against 100..199 |
| HttpStatusCodes.InformationalOneArgumentCallFails | Chapter04/restful_python_2_04_02/Flask01/service/http_status.py:52-54 | a one-argument call fails with an arity error, even for `continue_100`, which is informational |

## Left out

- The `sleep` calls of the drone parts are latencies and are not modelled.
- Drone.Altimeter.Altitude: `randint(0, 3000)` becomes a nondeterministic choice in 0..3000. The model does not say that every value can occur.
- Drone.Hexacopter.SetMotorSpeed: models integer speeds only. Python would also accept a float, and then `0.0 is not 0` is true, so a speed of `0.0` turns the hexacopter on.
- Drone.LightEmittingDiode.SetBrightnessLevel: models integer levels only.
- The feet-to-meters conversion of the Tornado handlers is floating-point arithmetic. The handlers, the thread-pool offload and their concurrency are not part of this model.
- ServiceModels.User.CheckPasswordStrengthAndHashIfOk: the passlib hash is a function parameter. Salting, the hash format and `verify_password` are library behaviour and are not modelled.
- ServiceModels.HasDigit: counts only ASCII `0`–`9`. Python's `\d` also matches other Unicode decimal digits.
- Password length is counted in Unicode code points, as Python's `len` counts a `str`.
- ServiceModels.IsMessageUnique and ServiceModels.IsNameUnique: the query's `.first()` is the first matching row of the table as a sequence. The database's row order is not modelled.
- ServiceModels.ProcessNotificationCategory: JSON values have no floats, so float truthiness is not covered.
- The SQLAlchemy session and commits, and the marshmallow schemas and their `validate.Length` minimums, are library behaviour and are not modelled.
- The Chapter 2 copy of `process_notification_category` is the same code, so it is modelled once, from Chapter 4.
- NotificationService.PatchHandler: arguments arrive already parsed, with `None` for an absent one. The request parser's conversions are not modelled; with `type=bool` it turns any non-empty string into true.
- NotificationService.PostHandler: parsing of the three required arguments, and the 400 answer when one is missing, belong to the request parser. `datetime.now(utc)` is the parameter `now`.
- Response marshalling (`marshal_with` and its field formats), routing and the `abort` mechanism are framework wiring. A handler's answer is a `Reply` value.
- The views of the database-backed services (pagination, user creation, category handlers) are not modelled, apart from the PATCH uniqueness call listed under Findings. Another defect there is also not modelled: the PATCH handler reads `duration` when `ttl` is given (`Chapter04/restful_python_2_04_01/Flask01/service/views.py:101`).
- The Pyramid metric views and the marshmallow-enum schema are not modelled.
- HttpStatusCodes.HttpStatus.IsInformational: models the predicate as it is evidently intended, not the declared signature. The declared form is `HttpStatusCodes.IsInformationalAsWritten`.

## Findings

| source | as written | input that shows it | evidently intended | confidence | as-written member | corrected member |
|---|---|---|---|---|---|---|
| Chapter04/restful_python_2_04_02/Flask01/service/http_status.py:52-54 | `is_informational` is a `staticmethod` declared with `(cls, status_code)`, so it takes two positional arguments | `HttpStatus.is_informational(HttpStatus.continue_100)`, called like the other four predicates, raises `TypeError` for a missing argument | a one-argument predicate that holds for 100..199 | not executed | HttpStatusCodes.InformationalOneArgumentCallFails | HttpStatusCodes.HttpStatus.IsInformational |
| Chapter04/restful_python_2_04_01/Flask01/service/views.py:96 | the notification PATCH handler checks `is_message_unique(id=0, message=…)` | notification 5 has message "Hello"; a PATCH of notification 5 with message "Hello" is refused as a duplicate | check with the id of the notification being patched, as the category PATCH handler does at line 196 | not executed | ServiceModels.PatchWithOwnMessageRefused | ServiceModels.PatchWithOwnMessageAllowed |

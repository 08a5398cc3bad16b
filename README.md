# PORT-PLAISANCE marina back office, in Dafny

PORT-PLAISANCE is the back office of a marina. Its staff manage three kinds of record:

- catways (berths), identified by their number
- reservations of a catway by a client for a boat between two dates
- the users who may log in

The server is an Express application over MongoDB (Mongoose) and comes in two revisions:

- the older one: `services/*.js` and `models/user.js`
- the current one under `api/`: services, user routes, models and two middlewares

A React front end validates forms, keeps the login session and shows a dashboard.

This project models the handlers of both revisions as methods over a store class that
holds the collections as maps:

- `ApiStore.Db` holds catways keyed by number, reservations and users keyed by id, and
  the unique e-mail index.
- `RootStore.Db` holds catways keyed by their number as text, reservations keyed by id,
  and users keyed by e-mail.

Each method states its answer (an HTTP status and body, or the error the service
throws) and the new state of the store. The pure parts become functions with contracts:

- the schemas' validators
- the pre-save hashing hook
- the bearer-header parsing and the catway-existence guard
- the front end's validators and forms, the reservation status and the dashboard filter

The login session of the front end is a class with the module's variables as fields.

Some JavaScript behaviour is written out in `Js`:

- truthiness
- `trim` and `toLowerCase`
- `split`
- `Number` and `String` on integers

bcrypt and jsonwebtoken are function values in a `Crypto.Library`. Their promises (a
password matches its own hash; a signed token verifies to its claims) are the
predicates `HashSound` and `TokenSound`. Fresh ids and the current time are
parameters. Dates are integer timestamps.

Three gaps of the source are modelled as written and exhibited by members:

- The api reservation update runs no validator. `Scenarios.UpdateInvertsDates` stores
  an end before the start, which create refuses.
- Deleting a catway leaves its reservations in place.
  `Scenarios.BookThenDeleteCatway` leaves a reservation naming a deleted catway.
- The older user update hashes the password, then the pre-save hook hashes it again.
  `RootUsers.DoubleHashMayRefuseLogin` shows a hash library, keeping bcrypt's promise,
  under which the new password no longer logs in.

## Model

| member | source | states |
|---|---|---|
| Js.OrElse | api/services/catways.js:89-90 | `x \|\| fallback` is the value exactly when it is truthy and the fallback otherwise; empty only when both are, so the idiom never clears a field |
| Js.Trim | frontend/src/services/users.js:144 | `trim()` leaves no white space at either end and never lengthens (that it removes only end white space is `Js.TrimSlice`) |
| Js.TrimBlank | frontend/src/components/UserForm.jsx:29 | `s.trim()` is empty exactly when every character of `s` is white space |
| Js.TrimSlice | frontend/src/components/Catway.jsx:28 | the trimmed string is a contiguous slice of the original, and everything dropped before and after it is white space |
| Js.TrimIdempotent | api/models/user.js:24 | trimming twice is trimming once |
| Js.ToLower | api/models/user.js:31 | `toLowerCase()` keeps the length and lower-cases each character on its own |
| Js.Normalize | api/models/user.js:31-32 | the `lowercase` then `trim` setters; never lengthens (its shape is `Js.NormalizeShape`) |
| Js.NormalizeShape | api/models/user.js:31-32 | the `lowercase` and `trim` setters leave a lower-case, unpadded address |
| Js.NormalizeFixed | api/models/user.js:31-32 | an already lower-case, unpadded address is stored as given |
| Js.NormalizeIdempotent | api/models/user.js:31-32 | applying the setters twice is applying them once |
| Js.IndexOf | api/middleware/auth.js:20 | the first position of the separator, with none before it |
| Js.Split | api/middleware/auth.js:20 | `split(sep)` gives at least one part and no part holds the separator |
| Js.SplitJoin | api/middleware/auth.js:20 | joining the parts of `split` with the separator rebuilds the string |
| Js.SplitAfterWord | frontend/src/components/Reservation.jsx:95 | splitting `w + sep + rest` gives `w` then the parts of `rest` |
| Js.Digits | services/catways.js:39-46 | the decimal digits of a natural number, without a leading zero |
| Js.ParseDigitsOfDigits | services/catways.js:39-46 | reading the decimal digits of `n` gives `n` |
| Js.NumberToString | frontend/src/components/Catway.jsx:5 | `String(n)` is non-empty and unpadded |
| Js.StringToNumber | api/middleware/checkCatwayExists.js:15 | `Number(s)` of a blank string is 0 |
| Js.NumberRoundTrip | api/middleware/checkCatwayExists.js:15 | `Number(String(n)) === n` for every integer |
| Js.ToNumber | api/services/reservations.js:40 | `Number(undefined)` is NaN and `Number(n)` is `n` |
| Js.ScalarToString | services/catways.js:39-46 | `String(v)` keeps a string and, for a number, reads back as that number |
| EmailPatterns.StrictEmail | frontend/src/components/UserForm.jsx:35 | `/^[^\s@]+@[^\s@]+\.[^\s@]+$/`: a run without white space or '@', then '@', a run, '.', a run, filling the whole string |
| EmailPatterns.LooseEmail | api/models/user.js:33 | `/.+@.+\..+/` found anywhere: an '@', a later '.', with a character that is not a line terminator before, between and after |
| EmailPatterns.NonSpaceEmail | models/user.js:16 | `/\S+@\S+\.\S+/` found anywhere: as the api pattern, with no white space for `.` |
| EmailPatterns.StrictEmailShape | frontend/src/services/users.js:149 | an address matching `^[^\s@]+@[^\s@]+\.[^\s@]+$` has no white space and exactly one '@', not at either end |
| EmailPatterns.StrictIsNonSpace | models/user.js:16 | every address the front end accepts matches `/\S+@\S+\.\S+/` |
| EmailPatterns.StrictIsLooseAfterNormalize | api/models/user.js:31-33 | every address the front end accepts matches `/.+@.+\..+/` after the lowercase and trim setters |
| EmailPatterns.LooseAcceptsTwoAts | api/models/user.js:33 | the api pattern accepts "a@b@c.d", which the front end refuses |
| Crypto.ComparePassword | api/models/user.js:72-74 | `comparePassword` of both schemas (also models/user.js:35-37): a candidate whose hash is the stored value compares true |
| Crypto.SampleLibrary | api/models/user.js:50 | a hash library that keeps bcrypt's promise that a password matches its own hash |
| UserModel.View | api/models/user.js:39-44 | the user without its password: id, username, e-mail and creation time |
| UserModel.UsernameAccepted | api/models/user.js:21-26 | after the `trim` setter, at least 3 characters (`required` and `minlength`) |
| UserModel.EmailAccepted | api/models/user.js:27-34 | after the `lowercase` and `trim` setters, the address matches `/.+@.+\..+/` |
| UserModel.PasswordAccepted | api/models/user.js:35-40 | at least 6 characters, checked before the hook hashes it |
| UserModel.FieldsAccepted | api/models/user.js:20-40 | all three fields present, each accepted by its validator |
| UserModel.StoredValid | api/models/user.js:20-40 | what a save leaves: a trimmed name of at least 3 characters and a lower-case, trimmed address matching the pattern |
| UserModel.HashIfModified | api/models/user.js:48-53 | the hook hashes exactly when the password was modified; the stored hash matches the password |
| UserModel.SettersKeepValid | api/models/user.js:20-45 | whatever is sent, the stored name is trimmed and the stored address lower-case and trimmed |
| UserModel.NewUser | api/models/user.js:20-53 | a saved user is valid, stores the trimmed name and normalized address, is stamped now, and its password compares |
| UserModel.AuthToken | api/models/user.js:59-65 | the token verifies to exactly id, e-mail and username |
| CatwayModel.IsCatwayType | api/models/catway.js:22 | the type is "long" or "short" |
| CatwayModel.SchemaValid | api/models/catway.js:12-32 | a type from the enum and a non-empty state |
| ReservationModel.EndAfterStart | api/models/reservation.js:45-50 | the end is strictly after the start |
| ReservationModel.SchemaValid | api/models/reservation.js:14-51 | non-empty client and boat names and an end strictly after the start |
| ApiStore.Db.constructor | api/models/catway.js:12-32 | an empty store is valid |
| ApiStore.Db.UserByEmail | api/services/users.js:78 | finds a user exactly when one has the address, through the unique index |
| ApiStore.Db.PublicUsers | api/services/users.js:44 | every user, each without its password |
| ApiStore.Db.InsertUser | api/routes/users.js:51-52 | saves a valid user under a fresh id and a free address, indexing the address; the store stays valid |
| ApiStore.Db.ReplaceUser | api/routes/users.js:219-222 | rewrites a user with a valid record whose address is its own or free, moving the index entry; the store stays valid |
| ApiStore.Db.RemoveUser | api/services/users.js:106 | deletes a user and frees its address; the store stays valid |
| ApiStore.UsersInsert | api/models/user.js:30 | inserting a user under a free address keeps the index and the schema invariant |
| ApiStore.UsersRemove | api/services/users.js:106 | removing a user frees its address and keeps the invariant |
| ApiStore.UsersMove | api/routes/users.js:219-222 | a user whose address changes to a free one keeps the invariant |
| ApiStore.IndexInsert | api/models/user.js:30 | the unique index stays exact after an insertion |
| ApiStore.IndexRemove | api/services/users.js:106 | the unique index stays exact after a removal |
| ApiStore.IndexReplace | api/routes/users.js:219-222 | the unique index stays exact when a user's address changes |
| ApiCatways.GetById | api/services/catways.js:27-40 | 404 exactly when no catway has the number, 200 with it otherwise, 500 when the path is not a number |
| ApiCatways.Create | api/services/catways.js:48-72 | 400 on a falsy field (number 0 included); with every field truthy, 400 exactly when the number is taken; 201 adds exactly the new catway; a failure writes nothing |
| ApiCatways.Update | api/services/catways.js:80-100 | 404 for an absent number; the number never changes; type and state merge by `\|\|`; only 200 writes |
| ApiCatways.Delete | api/services/catways.js:108-123 | 404 for an absent number; otherwise exactly that catway goes and reservations are untouched |
| ApiReservations.Create | api/services/reservations.js:30-59 | missing field, then unknown catway, then end not after start, each writing nothing; success stores exactly the new reservation with a numeric catway |
| ApiReservations.GetById | api/services/reservations.js:67-77 | a cast error for an id that is not an ObjectId; otherwise the stored reservation, or "not found" exactly when the id is absent |
| ApiReservations.Overwrite | api/services/reservations.js:98-102 | every sent field overwrites, every field not sent is kept |
| ApiReservations.WrittenNumber | api/services/reservations.js:88-96 | a truthy number is written as `Number(...)`; 0 is written as it is |
| ApiReservations.Update | api/services/reservations.js:86-112 | an unknown catway fails before the id is cast; then a cast error for a malformed id, "not found" for an absent one; success overwrites the sent fields without checking the dates |
| ApiReservations.Delete | api/services/reservations.js:120-130 | a cast error for a malformed id, "not found" for an absent one, each writing nothing; otherwise removes exactly that reservation |
| ApiReservations.GetByCatway | api/services/reservations.js:138-147 | exactly the reservations whose number is `Number(catwayId)` |
| ApiUsers.Add | api/services/users.js:8-35 | 400 for a missing field or a taken address, writing nothing; the 201 body has no password |
| ApiUsers.GetAll | api/services/users.js:42-49 | every user under its id, each exactly its public view (name, address, creation date), none with a password |
| ApiUsers.GetByEmail | api/services/users.js:56-68 | 404 exactly when no user has the address; otherwise the user without its password |
| ApiUsers.Saved | api/services/users.js:82-86 | the name changes only when truthy, the password only when sent, the address never; a refused field refuses the save |
| ApiUsers.Update | api/services/users.js:75-97 | 404 for an unknown address; otherwise the record becomes `Saved` or, when refused, 500 with no write |
| ApiUsers.Delete | api/services/users.js:104-114 | 404 for an unknown address; otherwise exactly that user goes and the address is free |
| AuthMiddleware.BearerToken | api/middleware/auth.js:20 | the token is the second space-separated segment and holds no space |
| AuthMiddleware.Authenticate | api/middleware/auth.js:13-29 | 401 exactly for a missing header or one without "Bearer "; 403 exactly when verification fails; otherwise `next` with the claims |
| AuthMiddleware.SignedTokenPasses | api/middleware/auth.js:20-25 | a header with a signed token passes with exactly its claims |
| AuthMiddleware.LaterSegmentsIgnored | api/middleware/auth.js:20 | only the second segment is read |
| AuthMiddleware.PrefixIsExact | api/middleware/auth.js:16-18 | "bearer t" and "Bearer" are refused with 401 |
| ApiUserRoutes.Stamp | api/models/user.js:41-44 | the creation date is the body's when it carries one, otherwise the default `Date.now` |
| ApiUserRoutes.Register | api/routes/users.js:49-69 | 201 exactly when every field is accepted and the address is free, with a token and a user without password, dated by `Stamp`; every failure is 400 with no write |
| ApiUserRoutes.Login | api/routes/users.js:108-137 | 400 for a missing field, 401 for an unknown address or a wrong password, otherwise the user without password and a token |
| ApiUserRoutes.RegisteredUserCanLogIn | api/routes/users.js:55-58 | a registered user's password compares and their token verifies to their claims |
| ApiUserRoutes.List | api/routes/users.js:158-166 | the middleware's refusal, or every user without password |
| ApiUserRoutes.PatchAccepted | api/routes/users.js:219-222 | with `runValidators`, every field the body carries passes its validator after the setters |
| ApiUserRoutes.Patched | api/routes/users.js:219-222 | the sent fields replace the stored ones through the setters; the password is stored unhashed; a sent creation date is written; validity is kept |
| ApiUserRoutes.UpdateById | api/routes/users.js:205-236 | auth, then 400 for an invalid id or a refused field, 404 for an absent id, 400 exactly for an address held by another user; the status is one of 200, 400, 401, 403, 404; only 200 writes |
| ApiUserRoutes.PlainPasswordMayNotCompare | api/routes/users.js:219-222 | a password set through this route does not compare under a hash library keeping bcrypt's promise |
| ApiUserRoutes.DeleteById | api/routes/users.js:266-282 | auth, then 400 for an invalid id, 404 for an absent one, 204 removing exactly that user |
| CheckCatwayExists.ChosenParam | api/middleware/checkCatwayExists.js:15 | `catwayId \|\| id` |
| CheckCatwayExists.LookedUpNumber | api/middleware/checkCatwayExists.js:15 | `Number` of the chosen parameter |
| CheckCatwayExists.Check | api/middleware/checkCatwayExists.js:13-34 | 500 when the lookup throws, 404 with the number when absent, otherwise passes that catway |
| CheckCatwayExists.CatwayIdTakesPrecedence | api/middleware/checkCatwayExists.js:15 | a truthy `catwayId` decides alone; otherwise `id` decides alone |
| CheckCatwayExists.StoredCatwayPasses | api/middleware/checkCatwayExists.js:16-26 | a stored catway is found through the text of its number |
| RootUserModel.PreSave | models/user.js:26-32 | the hook hashes exactly when the password was modified and leaves the document alone otherwise |
| RootUserModel.FieldsAccepted | models/user.js:6-23 | username and address present, the address matching `/\S+@\S+\.\S+/`, a password of at least 6 characters |
| RootStore.UsernameTaken | models/user.js:9 | the unique index on `username`: another user than the one written holds the name |
| RootStore.Db.constructor | models/user.js:6-23 | an empty store is valid |
| RootStore.UsersPut | models/user.js:7-17 | writing a user with a free username keeps usernames and addresses unique |
| RootCatways.GetById | services/catways.js:16-28 | 404 exactly when the number is absent |
| RootCatways.Add | services/catways.js:31-50 | 400 exactly on a falsy field; no duplicate pre-check, the unique index answers 500; failures write nothing |
| RootCatways.Update | services/catways.js:53-72 | 404 for an absent number; the body's number is ignored; type and state merge by `\|\|` |
| RootCatways.Delete | services/catways.js:75-88 | 404 for an absent number; otherwise exactly that catway goes |
| RootReservations.GetAll | services/reservations.js:7-22 | 404 without the catway; otherwise exactly its reservations |
| RootReservations.GetById | services/reservations.js:25-40 | 500 for an id that is not an ObjectId; otherwise found exactly when both the catway number and the id match |
| RootReservations.Add | services/reservations.js:43-70 | 404 without the catway, then 400 for a missing field; the number comes from the path |
| RootReservations.DateOrElse | services/reservations.js:94-95 | a supplied date replaces, a missing one keeps |
| RootReservations.Merged | services/reservations.js:90-97 | fields merge by `\|\|`, the number never changes, names cannot be cleared |
| RootReservations.Update | services/reservations.js:73-102 | 404 without the catway, then 500 for a malformed id, then 404 when the reservation does not match; 200 exactly otherwise; only 200 writes |
| RootReservations.Delete | services/reservations.js:105-127 | the update's checks (404, 500 for a malformed id, 404); otherwise removes exactly the matched reservation; only 200 writes |
| RootUsers.Add | services/users.js:8-33 | 400 exactly for a missing field or a taken address; the stored password is hashed |
| RootUsers.GetAll | services/users.js:36-43 | 200 with exactly the stored users, hashes included |
| RootUsers.GetByEmail | services/users.js:46-58 | 404 exactly when the address is absent |
| RootUsers.Revised | services/users.js:71-77 | name and address merge by `\|\|`; a supplied password is replaced by its hash |
| RootUsers.Update | services/users.js:61-84 | 404 for an unknown address; a supplied password is stored as the hash of its hash |
| RootUsers.DoubleHashMayRefuseLogin | services/users.js:74-77 | under a library keeping bcrypt's promise, the new password no longer compares |
| RootUsers.Delete | services/users.js:87-100 | 404 for an unknown address; otherwise exactly that user goes |
| UserValidation.ValidateUserData | frontend/src/services/users.js:141-161 | each error exactly under its condition; valid exactly when there is no error |
| UserValidation.AcceptedByApiSchema | frontend/src/services/users.js:141-161 | valid data with a password pass every api schema validator |
| UserValidation.AcceptedByRootSchema | frontend/src/services/users.js:149-151 | a valid address matches the older schema's pattern |
| UserValidation.MissingPasswordAccepted | frontend/src/services/users.js:153-155 | data without password are valid, though every schema requires one |
| FrontSession.RequestHeaders | frontend/src/services/auth.js:57-61 | JSON content and `Bearer <token>`, each overridden by the caller's header of that name |
| FrontSession.Session.IsAuthenticated | frontend/src/services/auth.js:46 | a user is set and the token is not null |
| FrontSession.Session.constructor | frontend/src/services/auth.js:5-7 | the token comes back from storage, the user does not, so the session is not authenticated |
| FrontSession.Session.Login | frontend/src/services/auth.js:9-37 | a refusal changes nothing; success sets the user (or null), the token, and stores the token |
| FrontSession.Session.Logout | frontend/src/services/auth.js:39-44 | user, token and stored token all cleared |
| FrontSession.Session.AuthenticatedFetch | frontend/src/services/auth.js:52-76 | no token: throws and sends nothing; 401: clears everything and throws; otherwise sends the bearer headers |
| FrontSession.SessionHeaderPasses | frontend/src/services/auth.js:57-61 | the session's header passes the api middleware with the signed claims |
| UserForm.Init | frontend/src/components/UserForm.jsx:4-8 | the password starts empty; name and address come from the edited user or are empty |
| UserForm.Validate | frontend/src/components/UserForm.jsx:26-48 | each error exactly under its condition, with the right kind; the format is checked untrimmed |
| UserForm.Submit | frontend/src/components/UserForm.jsx:50-60 | sent only when valid; the password is dropped exactly when editing with an empty one |
| UserForm.NewUserAcceptedByApi | frontend/src/components/UserForm.jsx:50-60 | a new user sent with a 3-character name passes the api schema |
| UserForm.SentPassesValidateUserData | frontend/src/components/UserForm.jsx:50-60 | what is sent with a 3-character name also passes `validateUserData` |
| UserForm.ShortNamePassesForm | frontend/src/components/UserForm.jsx:29-31 | "ab" passes the form, while `validateUserData` and the schema refuse it |
| CatwayForm.Init | frontend/src/components/Catway.jsx:4-8 | the number is empty exactly for no catway or catway 0, and otherwise reads back as the catway's number; the type defaults to "long" |
| CatwayForm.Validate | frontend/src/components/Catway.jsx:25-38 | an error exactly for a blank number or state; the type is never checked |
| CatwayForm.Submit | frontend/src/components/Catway.jsx:40-45 | the unmodified data, exactly when there is no error |
| CatwayForm.EditFormSubmits | frontend/src/components/Catway.jsx:4-45 | an existing catway's form, other than catway 0, can be sent as it opened |
| CatwayForm.CatwayZeroCannotBeEdited | frontend/src/components/Catway.jsx:5 | catway 0's form cannot be sent |
| CatwayForm.SentFieldsAreTruthy | frontend/src/components/Catway.jsx:40-45 | what is sent passes the api's falsy checks |
| CatwayForm.NonNumericNumberPasses | frontend/src/components/Catway.jsx:28-30 | "A1" passes the form but is NaN for the api |
| ReservationForm.Validate | frontend/src/components/Reservation.jsx:45-79 | each error exactly under its condition; an end not after the start is the end's error |
| ReservationForm.Submit | frontend/src/components/Reservation.jsx:81-90 | sent only when valid, with the catway through `Number` and the rest as entered |
| ReservationForm.AsApiFields | frontend/src/components/Reservation.jsx:84-88 | the payload as the api reads it |
| ReservationForm.SentPassesApiChecks | frontend/src/components/Reservation.jsx:81-90 | what is sent satisfies the api schema and, for a catway other than 0, its required-field check |
| ReservationForm.ZeroCatwayRefusedByApi | frontend/src/components/Reservation.jsx:48-50 | catway "0" passes the form and is missing for the api |
| ReservationForm.FormatDateForInput | frontend/src/components/Reservation.jsx:92-96 | "" for an empty value, otherwise a prefix of the ISO text without "T" |
| ReservationForm.FormatKeepsDay | frontend/src/components/Reservation.jsx:95 | on `day + "T" + time` the result is the day |
| ReservationStatus.Classify | frontend/src/pages/Reservations.jsx:95-107 | ended exactly when the end is past, current exactly when today is within the dates, upcoming otherwise |
| ReservationStatus.Label | frontend/src/pages/Reservations.jsx:101-105 | the badge text of each status |
| ReservationStatus.ClassName | frontend/src/pages/Reservations.jsx:101-105 | the badge class of each status |
| ReservationStatus.StatusesInOrder | frontend/src/pages/Reservations.jsx:95-107 | as days pass the status never goes back |
| Dashboard.CurrentOf | frontend/src/pages/Dashboard.jsx:31-36 | exactly the current reservations, never more than all of them |
| Dashboard.CurrentOfAppend | frontend/src/pages/Dashboard.jsx:32 | the filter keeps order |
| Dashboard.CurrentIsStatusCurrent | frontend/src/pages/Dashboard.jsx:35 | "current" is the "En cours" status |
| Dashboard.Board.constructor | frontend/src/pages/Dashboard.jsx:7-15 | zeros, an empty list, loading |
| Dashboard.Board.Load | frontend/src/pages/Dashboard.jsx:21-52 | the counters are the lists' lengths and the current count; a failure keeps them and sets the error; loading ends |
| Scenarios.CreateThenGet | api/services/catways.js:27-72 | a created catway is found under its number |
| Scenarios.DeleteTwice | api/services/catways.js:108-123 | a second delete answers 404 |
| Scenarios.BookThenDeleteCatway | api/services/catways.js:115 | a reservation outlives its catway |
| Scenarios.UpdateInvertsDates | api/services/reservations.js:98-102 | an update stores an end before the start |
| Scenarios.RegisterThenLogin | api/routes/users.js:49-137 | a registered user logs in and gets their own record |

## Left out

- I/O is not modelled. That covers HTTP, `fetch`, `localStorage` (a field), logging, React rendering and component state other than what the classes hold.
- Every handler is one atomic step. The check-then-insert races on the unique indexes are not modelled.
- Dates are integer timestamps. `new Date` parsing, invalid dates (whose comparisons are all false), `toISOString` and locale formatting are not modelled. `FormatDateForInput` takes the ISO text as a parameter.
- `Number` reads only an optional sign and decimal digits around JavaScript white space. Other spellings such as `1.5`, `1e3` and `0x10` are read as NaN.
- Only ASCII is lower-cased, and lengths count characters, not UTF-16 units.
- bcrypt and jsonwebtoken are not modelled inside: the salt, the secret and the 24-hour expiry in real time.
- The `getAll` handlers of api/services/catways.js and api/services/reservations.js are not modelled. They are plain listings.
- The route tables are not modelled. Which handlers sit behind `checkCatwayExists` is not part of this model; the guard is modelled on its own.
- ApiReservations.Update: a `catwayNumber` of "" is written by Mongoose as null. The model keeps the stored number instead.
- ApiReservations.Update: a date sent as "" is stored as null by Mongoose, bypassing the schema's `required`. The model keeps the stored date, because its reservations always carry both dates.
- ApiCatways.Update: `updatedAt` is always set to the time parameter. Mongoose leaves it alone on a save that changes nothing.
- RootReservations.Delete: `Document.remove()` is taken to delete the document. In Mongoose versions where `remove` no longer exists, the handler answers 500.
- RootCatways.Delete: the same assumption about `Document.remove()`.
- RootUsers.Delete: the same assumption about `Document.remove()`.
- Mongoose's ObjectId cast test is a parameter, `isObjectId`, of the reservation handlers that query by id.
- FrontSession.Session.Login: the session does not check the shape of the server's answer. A missing token is stored as the text "undefined".
- Dashboard.Board.Load: one fetch failing stands for `Promise.all` rejecting. The three requests are not modelled separately.

# StayEase booking backend: account, listing and booking rules

This project models the decisions that the Express handlers of the StayEase
API (`api/index.js`) make about accounts, listings ("places") and bookings.
It also models the booking document schema (`api/models/Booking.js`). The
handlers run one after another on an in-memory store:

- a user table keyed by email (`Store.users`);
- the places, in creation order, each with an `owner` id (`Store.places`);
- the bookings, in creation order, each with a `user` id (`Store.bookings`).

bcrypt (`hash`, `compare`) and jsonwebtoken (`sign`, `verify`, with the
secret already applied) are uninterpreted functions. They are packed in a
`Libraries` value that the store receives when it is built. A token that
`verify` rejects gives `None`. This is also what `getUserDataFromReq`
(api/index.js:32-39) computes, so handlers that use it call `libs.verify`
directly.

Modules:

- `Common` holds optional fields, ids, and JavaScript's `!x` on a string
  field (`Blank`: missing or `""`). It also holds the generic `Filter` that
  an equality query such as `find({owner: id})` performs.
- `BookingModel` states the booking schema as data, path by path. It gives
  each path its type, whether it is required, and its `ref`. `Conforms` is
  the required-field check mongoose runs before `Booking.create` stores a
  record. A required String path must also be non-empty, because that is
  mongoose's rule for strings.
- `Upload` holds `split('.')`, the last segment, `replace` with a string
  pattern (first occurrence only), and the loop of the `/upload` handler.
- `Api` holds the documents and the outcome of each handler. Each outcome
  carries the HTTP status of its reply: `Status()` for register and login,
  which always reply, and `Reply()` for the listing and booking handlers,
  which is `None` when the handler sends nothing and 200 otherwise (the
  default of `res.json`). The queries and login are functions of the tables. The
  handlers that write are methods of the `Store` class.

On these points the code does something a reader might not expect, and the
model follows the code:

- Tokens are signed with no expiry option, so tokens never expire.
- An unknown email gets a 404 reply. A wrong password gets a 401 reply. Both
  say "Invalid credentials".
- Email uniqueness is an application-level check made before the insert.
  In a sequential model this check is enough.
- The register and login replies carry the whole user document, including
  the password digest (`Registered(user)`, `LoggedIn(user, …)`). The token
  claims carry only `{email, id}`.
- `PUT /places` replies only to the owner. For a non-owner, a missing place
  or a rejected token, it sends nothing.

## Model

| member | source | states |
|---|---|---|
| `Common.Filter` | api/index.js:210 | every returned element is in the collection and matches the query; every matching element of the collection is returned |
| `Common.FilterCount` | api/index.js:256 | a query returns each matching document exactly as often as it is stored, and no other document |
| `Common.FilterAppend` | api/index.js:245 | querying a collection that grew at the end is querying the old part and the new part separately |
| `BookingModel.ConformsIff` | api/models/Booking.js:3-32 | a booking passes validation iff place, user, checkIn, checkOut are present and name, phone are non-empty strings |
| `BookingModel.PriceOptional` | api/models/Booking.js:29-31 | setting or removing `price` never changes whether a booking is valid |
| `BookingModel.OnlyPlaceIsReference` | api/models/Booking.js:4-8 | the only schema path with a `ref` is `place`, an ObjectId path referring to `Place` |
| `Upload.Split` | api/index.js:175 | `split` always yields at least one part, and no part contains the separator |
| `Upload.JoinSplit` | api/index.js:175 | joining the parts of `split` with the separator gives back the original name |
| `Upload.LastSegmentIsSuffix` | api/index.js:176 | the extension is a separator-free suffix of the name, preceded by a dot unless it is the whole name |
| `Upload.SplitLast` | api/index.js:175-176 | the last element of `originalname.split('.')` is exactly the name's last segment |
| `Upload.IndexOf` | api/index.js:179 | the returned index is the first occurrence of the pattern; `None` means the pattern does not occur |
| `Upload.ReplaceFirstSpec` | api/index.js:179 | `replace` with a string pattern leaves a string without the pattern unchanged, and otherwise replaces its first occurrence and nothing after it |
| `Upload.StoredNameInUploads` | api/index.js:177-179 | for a path under `uploads/` the reported name is the rest of the path, a dot and the extension |
| `Upload.RenameOne` | api/index.js:174-179 | one loop step, computed through `split` as the handler does, renames to `path + "." + last segment` and reports that path with the first `uploads/` removed |
| `Upload.RenameUploads` | api/index.js:172-181 | one reported name per file, in file order, each `path + "." + extension` with the first `uploads/` removed; one rename per file, from `path` to `path + "." + extension` |
| `Api.PlacesOfExactly` | api/index.js:210 | the owner query holds exactly the places whose owner is the given id |
| `Api.BookingsOfExactly` | api/index.js:256 | the user query holds exactly the bookings whose user is the given id, with their multiplicity |
| `Api.BookingsOfAfterBooking` | api/index.js:245-256 | a new booking appears at the end of its own user's query and in no other user's query |
| `Api.BookingFor` | api/index.js:244-246 | the record's `user` is the token's id, whatever the body says; it passes the schema iff the body gives place, both dates, and non-empty name and phone |
| `Api.FindPlace` | api/index.js:226 | a found index holds a place with that id and no earlier place has it; `None` means no place has that id |
| `Api.Populate` | api/index.js:256 | a populated place is a stored place with the referenced id; `None` means no reference or no such place |
| `Api.Login` | api/index.js:87-117 | missing email or password, unknown email and wrong password each give no token; success holds the stored user, claims exactly `{email, id}` of that user, and the token signed from those claims |
| `Api.LoginAsWritten` | api/index.js:85-122 | the handler as written sends exactly one reply; it faults iff both fields are given and the email is unknown; it sets a token iff its reply is 200 |
| `Api.LoginAsWrittenFaults` | api/index.js:98-105 | as written, an unknown email sends the 404 reply and then faults on the missing document |
| `Api.LoginAsWrittenAgrees` | api/index.js:89-117 | the handler as written and `Login` send the same single reply and the same token; they differ only by that fault |
| `Api.UserPlaces` | api/index.js:206-212 | a rejected token gives no answer; otherwise the answer holds exactly the places owned by the token's id |
| `Api.UserBookings` | api/index.js:254-257 | a rejected token gives no answer; otherwise every entry is a stored booking of the token's id with its referenced place populated, each of that user's bookings appears as often as it is stored, and the stored order is kept |
| `Api.Store.Register` | api/index.js:45-82 | a blank field or a known email is rejected and nothing changes; otherwise exactly one user is added, under its email, with the given name, a fresh id and the bcrypt digest (cost 12) of the password; the invariant (emails key their users, unique ids) is kept; the reply is 201 exactly when a user was added, and 401 otherwise |
| `Api.Store.CreatePlace` | api/index.js:187-204 | with a verified token, one place is appended with a fresh id, the ten listed fields and the token's id as owner; a rejected token changes nothing and gets no reply; a reply (200) is sent exactly when a place was added |
| `Api.Store.UpdatePlace` | api/index.js:219-236 | only when the token's id equals the stored owner is that place's details overwritten, with its id and owner kept and no other place touched; every other request leaves the store unchanged; only the applied update gets a reply (200) |
| `Api.Store.CreateBooking` | api/index.js:242-252 | with a verified token the record takes `user` from the token and is appended iff it passes the schema; otherwise nothing changes; a reply (200) is sent exactly when a booking was stored |
| `Api.SignUpAndLogIn` | api/index.js:45-117 | a registration followed by a login with the same password (given that `compare` accepts the password against its own digest) logs in the user that registration created, with claims `{email, id}` of that user |
| `Api.OwnershipScenario` | api/index.js:45-236 | after two registrations and logins and a listing by the first user, the second user's update is refused, the owner's update is applied, and a wrong password yields `WrongPassword` |

## Findings

| source | as written | input that shows it | evidently intended | confidence | as-written member | corrected member |
|---|---|---|---|---|---|---|
| api/index.js:98-105 | after sending the 404 reply for an unknown email, the handler does not return; it reads `password` of the missing (null) user document, which throws, and the catch block only logs the error | a non-empty email that is not in the user table, with any non-empty password | return right after the 404 reply, ending the request with that reply and no error | high; not executed | `Api.LoginAsWritten` (shown by `Api.LoginAsWrittenFaults`) | `Api.Login` |

## Left out

- Express routing, CORS, cookie parsing, static serving of `/uploads` and `app.listen`: transport only. The token cookie is the `token` argument.
- The MongoDB connection and the database: collections are a map and two sequences. New ids come from a counter (`nextId`) shared by users and places, standing in for the ObjectId generator.
- bcrypt internals: `hash` and `compare` are uninterpreted. The random salt of `bcrypt.hash` is folded into `hash`, and cost 12 is kept as `BcryptCost`. No cryptographic property is claimed.
- jsonwebtoken internals: `sign` and `verify` are uninterpreted. The `iat` claim that jsonwebtoken adds is a clock read and is left out. The hardcoded secret is configuration.
- Async and callback failure plumbing: a throw inside a callback, a rejected promise, or the missing `err` check in `/user-places`. Each is an outcome with no state change and no reply.
- Concurrency: the check-then-insert race of registration; the model is sequential.
- `/logout`, `/profile`, `/upload-by-link`, `GET /places` and `GET /places/:id`: they make no account, ownership or booking decision.
- multer, image-downloader and `fs.renameSync`: `RenameUploads` returns the list of renames it would perform and does not perform them.
- The Place schema: `api/models/Place.js` is not part of this model. Listing fields are plain strings, string lists and integers, and a request always supplies all ten.
- Mongoose casting: strings are not cast to ObjectId, Date or Number; request ids and dates arrive as ids and integers. The booking's `price` (a JavaScript Number) is an integer: no decision depends on its value, and fractions are not modelled. A body field checked with `!x` is a missing value or a string; other JSON values are not modelled.
- Schema timestamps (`timestamps: true`) and the meaning of `checkIn`/`checkOut` dates: no ordering is imposed between them.
- `numberOfGuests`: the bookings handler reads it, but the schema has no such path, so the stored record drops it (`BookingFor`).

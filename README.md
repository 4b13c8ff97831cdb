# Care-Connect-Live server core, modelled in Dafny

Care-Connect-Live is a hospital-and-doctor portal. This project models its
server side: the relational schema, the data-access class `DatabaseStorage`,
and the Express route handlers built on top of it.

- **Schema** (`schema.dfy`): one datatype per table row (users, hospitals,
  doctors, appointments, medical records, patient transfers), one insert
  shape per table, and the constructors that apply the column defaults:
  - role "patient";
  - status "pending";
  - rating "4.5";
  - `completedAt` NULL.
- **Text** (`text.dfy`): case-insensitive substring matching, the meaning
  of the `ILIKE '%q%'` filters. It is proved equal to a window definition
  ("some slice of the field equals the query").
- **Tables** (`tables.dfy`): a table is a `map` from serial id to row. It
  has a generic `SELECT ... WHERE` whose contract gives the exact set of
  rows returned, each once in ascending id order, plus a uniqueness lemma
  for such listings.
- **Storage** (`storage.dfy`): class `DatabaseStorage`.
  - It holds the six tables as `map` fields, with one next-serial counter each.
  - `Valid()` states the schema's rules: ids agree with their keys and lie
    below the counter; `national_id` and `email` are unique; every foreign
    key resolves.
  - Lookups, lists, searches and join views are functions. Inserts and
    updates are methods that change only their own table and counter.
  - `GetPatientTransfers` is a loop doing one destination-hospital lookup
    per row.
  - `Valid()` is what lets the join views build their nested user,
    hospital and doctor without a missing row. Those are the `row.users!`
    and `row.hospitals!` non-null assertions of the source.
- **Routes** (`routes.dfy`): one member per endpoint. Each takes the store,
  the session and the request fields, and yields a status code and a JSON
  body. The writing handlers change the store or the session through the
  storage methods.
  - Register refuses a taken national id or email.
  - Login tries the national id first and the email second.
  - The list endpoints dispatch between search and list-all.
  - Booking takes the patient id from the session.
  - The 401, 403 and 404 outcomes are covered.
- **Scenarios** (`scenarios.dfy`): two runs over a fresh store.
  - A patient logs in by national id, books with a doctor, and lists exactly
    that appointment, fully joined.
  - A transfer between two hospitals is created and listed with both
    hospitals resolved.

Outside behaviour appears as parameters:
- bcrypt's hash and compare are a function `hash` and a predicate `matches`;
- the random part of the Jitsi video link is a string `token`;
- `defaultNow()` is a timestamp `now`;
- a request body that fails zod validation is `None`.

An absent or empty `q` query parameter is the empty string; both are falsy
in the handler. An absent `hospitalId` is `None`.

The model follows the code where it is looser than the portal's intent:
- `PATCH /api/users/:id` can change `role`, although a role is meant to be
  fixed at creation.
- `PATCH /api/users/:id` stores a given `password` as it comes, without
  hashing it, and checks no session.
- A hospital's `specialties` array may be empty.
- Register rejects a duplicate itself with 400 "User already exists", before
  the insert. A `ConstraintViolation` from the insert is only a second line
  of defence.

## Model

| member | source | states |
|---|---|---|
| Schema.NewUser | shared/schema.ts:6-19 | the stored user takes the serial id and creation time; role defaults to "patient"; every other inserted field is kept as given |
| Schema.NewUserRoundTrip | shared/schema.ts:88-91 | the insert shape read back from a stored user rebuilds that same user |
| Schema.NewHospital | shared/schema.ts:21-33 | the stored hospital takes the serial id and time; rating defaults to "4.5" when omitted and stays NULL when given as null; other fields are kept |
| Schema.NewDoctor | shared/schema.ts:35-46 | the stored doctor takes the serial id and time; rating defaults to "4.5"; other fields are kept |
| Schema.NewAppointment | shared/schema.ts:48-62 | the stored appointment takes the serial id and time; status defaults to "pending"; other fields are kept |
| Schema.NewMedicalRecord | shared/schema.ts:64-74 | the stored record takes the serial id and time; every inserted field is kept |
| Schema.NewTransfer | shared/schema.ts:76-86 | the stored transfer takes the serial id; requestedAt is now; completedAt is NULL; status defaults to "pending" |
| Text.LowerChar | server/storage.ts:94-96 | ASCII upper-case letters map to lower case and every other character is unchanged; no upper-case letter remains |
| Text.Lower | server/storage.ts:94-96 | lower-casing keeps the length, folds each character in place, and leaves no upper-case letter |
| Text.LowerIdempotent | server/storage.ts:94-96 | folding twice is folding once |
| Text.ContainsAt | server/storage.ts:94-96 | the left-to-right search finds the query exactly when some window of the field equals it |
| Text.ILike | server/storage.ts:94-96 | `field ILIKE '%query%'`: the lower-cased query occurs somewhere in the lower-cased field |
| Text.EmptyQueryMatches | server/storage.ts:94-96 | the pattern `'%%'` matches every field |
| Text.ILikeIgnoresCase | server/storage.ts:94-96 | matching does not depend on the case of the field or of the query |
| Text.ILikeAt | server/storage.ts:94-96 | a field matches any query equal to one of its slices up to case |
| Tables.Where | server/storage.ts:216-218 | stands for every `select ... where` of the store (cited: getPatientRecords): a filtered select returns exactly the stored rows satisfying the filter, each once, in ascending id order |
| Tables.WhereCount | server/storage.ts:77-79 | an unfiltered select returns one element per row of the table |
| Tables.AscendingUnique | server/storage.ts:91-99 | two ascending listings with the same rows are equal |
| Tables.ScanRows | server/storage.ts:216-218 | behind every `select ... where` (cited: getPatientRecords), a scan of the keys below a bound lists exactly the stored rows under those keys that pass the filter, in ascending key order |
| Tables.AscendingSingleton | server/storage.ts:178-195 | a listing whose only row is `x` is exactly `[x]`; it closes the one-appointment and one-transfer listings of the scenarios |
| Storage.HospitalMatches | server/storage.ts:93-97 | a hospital matches a search when its name, location or region is `ILIKE '%q%'` |
| Storage.DoctorMatches | server/storage.ts:159-162 | a doctor matches a search when its specialty or its joined user's name is `ILIKE '%q%'` |
| Storage.ReplacePreservesUnique | shared/schema.ts:8-9 | writing a row that shares neither national id nor email with any other row keeps both unique indexes |
| Storage.Merge | server/storage.ts:71-74 | a patch keeps the id, and keeps the national id and the email unless it names them |
| Storage.MergeLaws | server/storage.ts:71-74 | an empty patch changes nothing; applying a patch twice equals applying it once |
| Storage.JoinDoctors | server/storage.ts:109-113 | reshaping joined rows keeps the doctor rows in order and nests each doctor's own user and hospital |
| Storage.JoinUsers | server/storage.ts:123-126 | reshaping keeps the doctor rows in order and nests each doctor's own user |
| Storage.JoinAppointments | server/storage.ts:187-194 | reshaping keeps the appointment rows in order; each nests its doctor, the doctor's user, and its own hospital |
| Storage.DatabaseStorage.Valid | shared/schema.ts:6-80 | the store invariant: every row sits under its own serial id below the counter; `national_id` and `email` are unique (lines 8-9); every foreign key names an existing row (lines 37-38, 50-52, 66-67, 78-80). Every operation requires it and every writing operation keeps it |
| Storage.DatabaseStorage.GetUser | server/storage.ts:51-54 | found exactly when the id is a key, and then it is that row |
| Storage.DatabaseStorage.GetUserByNationalId | server/storage.ts:56-59 | returns a stored row with that national id, and it is the row of any match, so at most one exists; absent when none matches |
| Storage.DatabaseStorage.GetUserByEmail | server/storage.ts:61-64 | returns a stored row with that email, and it is the row of any match; absent when none matches |
| Storage.DatabaseStorage.CreateUser | server/storage.ts:66-69 | succeeds exactly when neither national id nor email is taken; the row gets the next serial, which no row had; the lookups by id, national id and email then return it; on failure the table is unchanged; the sequence always advances |
| Storage.DatabaseStorage.UpdateUser | server/storage.ts:71-74 | NothingToSet for a patch naming no column and Unencodable for one naming `createdAt`, whatever the id, as the query builder refuses to build either; otherwise NotFound for an absent id; ConstraintViolation when the merged row would share a national id or email with another row; otherwise only row `id` changes, to the merge; the table is unchanged on failure |
| Storage.DatabaseStorage.AllHospitals | server/storage.ts:77-79 | every stored hospital once, no other rows, one element per row |
| Storage.DatabaseStorage.GetHospital | server/storage.ts:81-84 | found exactly when the id is a key, and then it is that row |
| Storage.DatabaseStorage.CreateHospital | server/storage.ts:86-89 | the row gets the next serial, and only that key is added; a lookup by the new id returns it |
| Storage.DatabaseStorage.SearchHospitals | server/storage.ts:91-99 | exactly the stored hospitals whose name, location or region contains the query case-insensitively |
| Storage.DatabaseStorage.SearchHospitalsWithinAll | server/storage.ts:91-99 | every search result is in the full listing, and the empty search equals the full listing |
| Storage.DatabaseStorage.AllDoctors | server/storage.ts:102-114 | one element per doctor row, each row once; each nests the user and the hospital its foreign keys name, so `user.id == userId` and `hospital.id == hospitalId` |
| Storage.DatabaseStorage.DoctorsByHospital | server/storage.ts:116-127 | exactly the doctors with that hospital id, each with its own user |
| Storage.DatabaseStorage.GetDoctor | server/storage.ts:129-145 | found exactly when the id is a key; the view nests the doctor's own user and hospital |
| Storage.DatabaseStorage.CreateDoctor | server/storage.ts:147-150 | succeeds exactly when the user and hospital exist; the new row gets the next serial; `GetDoctor` then returns it joined with that user and hospital; on failure the table is unchanged |
| Storage.DatabaseStorage.SearchDoctors | server/storage.ts:152-170 | exactly the doctors whose specialty or joined user's name contains the query case-insensitively, fully joined |
| Storage.DatabaseStorage.JoinedViewsEqual | server/storage.ts:109-113 | two joined doctor listings over the same rows are equal: the join is determined by the rows |
| Storage.DatabaseStorage.SearchDoctorsWithinAll | server/storage.ts:152-170 | every search result is in the full listing, and the empty search equals the full listing |
| Storage.DatabaseStorage.CreateAppointment | server/storage.ts:173-176 | succeeds exactly when patient, doctor and hospital exist; the new row gets the next serial; it is then listed for its doctor and for its patient; on failure the table is unchanged |
| Storage.DatabaseStorage.PatientAppointments | server/storage.ts:178-195 | exactly the patient's appointments, each with its doctor, that doctor's user, and the appointment's own hospital (not the doctor's) |
| Storage.DatabaseStorage.DoctorAppointments | server/storage.ts:197-199 | exactly the appointments with that doctor id |
| Storage.DatabaseStorage.UpdateAppointmentStatus | server/storage.ts:201-208 | absent exactly when the id is not a key, and then nothing changes; otherwise only that row's status changes, to any given string |
| Storage.DatabaseStorage.CreateMedicalRecord | server/storage.ts:211-214 | succeeds exactly when patient and uploader exist; the new row gets the next serial and is then listed for its patient |
| Storage.DatabaseStorage.PatientRecords | server/storage.ts:216-218 | exactly the patient's medical records |
| Storage.DatabaseStorage.CreateTransfer | server/storage.ts:221-224 | succeeds exactly when the patient and both hospitals exist; the new row gets the next serial |
| Storage.DatabaseStorage.GetPatientTransfers | server/storage.ts:226-249 | exactly the patient's transfers; each has its source hospital and its separately looked-up destination hospital, even when the two ids are equal |
| Routes.Public | server/routes.ts:37 | the public user carries every column of the user except the password; that nothing but the password is hidden is `PublicHidesOnlyPassword` |
| Routes.PublicHidesOnlyPassword | server/routes.ts:239 | two users with the same public profile differ at most in their password |
| Routes.ExistingUser | server/routes.ts:25-26 | a blocking user is found exactly when the national id or the email is taken; the national id holder is preferred |
| Routes.Session.LoggedIn | server/routes.ts:144 | `req.session.userId` is truthy: an id is present and it is not 0 (also line 158) |
| Routes.Accepts | server/routes.ts:47-52 | the login resolution: the national id holder, or the email holder when no row has that national id, whose stored hash matches the password |
| Routes.AcceptsUnique | server/routes.ts:47-52 | under the unique indexes at most one user can accept a given login |
| Routes.PostRegister | server/routes.ts:20-41 | 400 and no change on invalid input or a taken national id or email; otherwise 200 with the new user minus the password, and the stored password is the hash |
| Routes.PostLogin | server/routes.ts:43-61 | 200 exactly when the national id holder (or, if there is none, the email holder) accepts the password; the session then holds that user's id; otherwise 401 and the session is unchanged |
| Routes.GetHospitals | server/routes.ts:64-74 | a non-empty `q` lists exactly the matching hospitals; an empty one lists them all |
| Routes.GetHospitalById | server/routes.ts:76-86 | 404 exactly when the id is not a hospital; otherwise 200 with that row |
| Routes.PostHospital | server/routes.ts:88-96 | 400 and no change on invalid input; otherwise 200 with the stored hospital |
| Routes.GetDoctors | server/routes.ts:99-117 | a hospital id wins and lists that hospital's doctors, each once in id order, each with its own stored user; else a non-empty `q` searches; else every doctor is listed; the two search-or-list listings are fully joined, each doctor once in id order |
| Routes.GetDoctorById | server/routes.ts:119-129 | 404 exactly when the id is not a doctor; otherwise 200 with the joined view |
| Routes.PostDoctor | server/routes.ts:131-139 | 400 on invalid input or a dangling user or hospital id; otherwise 200 with the bare stored doctor |
| Routes.PostAppointment | server/routes.ts:142-154 | 401 without a session, with no change; otherwise the stored patient id is the session's user whatever the body says, and the video link is the Jitsi prefix plus the random token |
| Routes.GetPatientAppointments | server/routes.ts:156-168 | 200 exactly when the session user is the requested patient, listing exactly that patient's appointments fully joined; otherwise 403 |
| Routes.PatchAppointmentStatus | server/routes.ts:170-186 | 404 exactly when the appointment is absent; otherwise 200 with the row whose status alone changed |
| Routes.PostRecord | server/routes.ts:189-197 | 400 on invalid input or a dangling patient or uploader; otherwise 200 with the stored record |
| Routes.GetPatientRecords | server/routes.ts:199-208 | 200 with exactly the patient's records, no session consulted |
| Routes.PostTransfer | server/routes.ts:211-219 | 400 on invalid input or a dangling patient or hospital; otherwise 200 with the stored transfer |
| Routes.GetPatientTransfers | server/routes.ts:221-230 | 200 with exactly the patient's transfers, both hospitals resolved |
| Routes.GetUserById | server/routes.ts:233-243 | 404 exactly when the id is not a user; otherwise 200 with the profile minus the password |
| Routes.PatchUser | server/routes.ts:245-255 | 400 for a body naming no column or naming `createdAt`; otherwise 404 exactly when the user is absent; 400 when the merge collides on national id or email; otherwise 200 with the merged profile minus the password, and only that row changes |
| Scenarios.SignIn | server/routes.ts:47-56 | logging in with the patient's national id and password puts exactly that patient in the session |
| Scenarios.Book | server/routes.ts:142-154 | a logged-in patient's booking is stored pending, for the session's patient, with the generated link |
| Scenarios.BookingScenario | server/storage.ts:178-195 | after one booking the patient's listing is exactly that appointment, with the doctor, the doctor's user (a doctor) and the hospital matching its ids |
| Scenarios.TransferScenario | server/storage.ts:226-249 | after one transfer request the patient's listing is exactly that transfer, pending and not completed, with both hospitals matching its ids |

## Left out

- The database, drizzle query building and SQL: the tables are in-memory maps.
- Store connectivity failures and the 500 responses they cause: every store call succeeds or reports `NotFound`, `ConstraintViolation`, `NothingToSet` or `Unencodable`.
- Row order: SQL without `ORDER BY` promises none. Listings here are built, and promised, in ascending id order, which the source does not choose. So the equalities of two listings proved by `SearchHospitalsWithinAll` and `SearchDoctorsWithinAll` (the empty search equals the full listing) hold in the source only as sets of rows.
- Concurrency: the `Promise.all` of per-row lookups in `getPatientTransfers` is a sequential loop. The race between register's lookup and its insert, and the staleness window between the join and the secondary lookup, do not arise.
- `ILIKE` wildcards: `%`, `_` and the default escape character `\` inside the user's query are taken literally. Case folding is ASCII only, so "É" and "é" stay distinct.
- bcrypt, `Math.random` and `defaultNow()` become parameters. Timestamps are opaque integers.
- zod parsing is reduced to "the body parses or it does not". The text of error messages thrown by zod or by the store is not modelled (`Failure`).
- `parseInt` of path and query parameters (and NaN), Express, HTTP and JSON serialisation.
- The 32-bit range of serial ids: ids are unbounded integers.
- Storage.DatabaseStorage.UpdateUser: the patch cannot name `id`, although the source passes the raw request body to the update and so could rewrite the primary key. A patch giving `null` for a NOT NULL column (`name`, `email`, `password`, `nationalId`, `role`) cannot be written: the patch's fields for those columns hold a value or are omitted. So the store's refusal of such a patch (the 400 it causes in `PATCH /api/users/:id`) is not modelled.
- Routes.PatchUser: a body giving `null` for a NOT NULL column is not modelled (see `UpdateUser`). The source answers it with 400, and the model cannot express it.
- Routes.PostLogin: the identifier and the password are always strings. A body without `password` makes `bcrypt.compare` throw, and the source answers 400 rather than 401. The model does not cover that path.
- Routes.PatchAppointmentStatus: a body without `status` is not modelled. The status is always a string.
- Storage.DatabaseStorage.GetPatientTransfers: the destination hospital is always found, because the foreign-key invariant guarantees it. The source would return `undefined` for a dangling id.
- `db.ts`, `server/seed.ts` and all client files (pages, layout, file upload, API client, mock data, auth store) are not part of this model: they are connection setup, fixtures, presentation and network I/O.

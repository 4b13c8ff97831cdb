/**
 * The HTTP handlers of the portal's API, one member per route. A handler
 * takes the store, the session and the request fields it reads, and
 * produces a status code and a JSON body; the handlers that write change
 * the store or the session through the storage methods.
 *
 * Outside behaviour enters as parameters: the password hash and the
 * password check (bcrypt), the random part of a video link, and the clock.
 * A request body that fails schema validation arrives as `None`.
 */
module Routes {
  import opened Schema
  import opened Text
  import opened Tables
  import opened Storage

  /** A user as the API returns it: every column except the password. */
  datatype PublicUser = PublicUser(
    id: Id,
    nationalId: string,
    email: string,
    name: string,
    phone: Option<string>,
    bloodType: Option<string>,
    dateOfBirth: Option<string>,
    gender: Option<string>,
    role: string,
    avatar: Option<string>,
    createdAt: Timestamp)

  /** `{ ...user, password: undefined }`: the password is dropped when serialised. */
  function Public(u: User): (p: PublicUser)
    ensures p.id == u.id && p.nationalId == u.nationalId && p.email == u.email && p.name == u.name
    ensures p.phone == u.phone && p.bloodType == u.bloodType && p.dateOfBirth == u.dateOfBirth
    ensures p.gender == u.gender && p.role == u.role && p.avatar == u.avatar && p.createdAt == u.createdAt
  {
    PublicUser(u.id, u.nationalId, u.email, u.name, u.phone, u.bloodType, u.dateOfBirth,
               u.gender, u.role, u.avatar, u.createdAt)
  }

  /** Two users that show the same public profile differ at most in their password. */
  lemma PublicHidesOnlyPassword(u: User, v: User)
    ensures Public(u) == Public(v) <==> u == v.(password := u.password)
  {
  }

  /** A JSON response body. */
  datatype Body =
    | Message(error: string)                        // `{ error: "..." }` with a fixed text
    | Failure                                       // `{ error: error.message }` of a thrown error
    | UserBody(user: PublicUser)                    // `{ user: {...} }`
    | ProfileBody(profile: PublicUser)
    | HospitalsBody(hospitals: seq<Hospital>)
    | HospitalBody(hospital: Hospital)
    | DoctorViewsBody(doctorViews: seq<DoctorView>)
    | DoctorsWithUserBody(doctorsWithUser: seq<DoctorWithUser>)
    | DoctorViewBody(doctorView: DoctorView)
    | DoctorBody(doctor: Doctor)
    | AppointmentBody(appointment: Appointment)
    | AppointmentViewsBody(appointmentViews: seq<AppointmentView>)
    | RecordBody(record: MedicalRecord)
    | RecordsBody(records: seq<MedicalRecord>)
    | TransferBody(transfer: PatientTransfer)
    | TransferViewsBody(transferViews: seq<TransferView>)

  datatype Response = Response(status: int, body: Body)

  const VideoLinkPrefix := "https://meet.jit.si/CareConnect-"

  /** The server-side session of one client. */
  class Session {
    var userId: Option<Id>

    constructor ()
      ensures userId == None
    {
      userId := None;
    }

    /** `req.session.userId` is truthy: present and not 0. */
    predicate LoggedIn()
      reads this
    {
      userId.Some? && userId.value != 0
    }
  }

  // ---------------------------------------------------------- credentials

  /** Some user row already holds this national id or this email. */
  ghost predicate Taken(users: map<Id, User>, nationalId: string, email: string) {
    exists k :: k in users && (users[k].nationalId == nationalId || users[k].email == email)
  }

  ghost predicate HasNationalId(users: map<Id, User>, identifier: string) {
    exists k :: k in users && users[k].nationalId == identifier
  }

  /**
   * Row `k` is the one a login with `identifier` resolves to, and the
   * password check accepts `password` against it: a national id match wins,
   * and the email is consulted only when no row has that national id.
   */
  ghost predicate Accepts(users: map<Id, User>, identifier: string, password: string,
                          matches: (string, string) -> bool, k: Id) {
    && k in users
    && (users[k].nationalId == identifier || (!HasNationalId(users, identifier) && users[k].email == identifier))
    && matches(password, users[k].password)
  }

  /** At most one row can accept a login, by the two unique indexes. */
  lemma AcceptsUnique(users: map<Id, User>, identifier: string, password: string,
                      matches: (string, string) -> bool, j: Id, k: Id)
    requires UniqueLogins(users)
    requires Accepts(users, identifier, password, matches, j)
    requires Accepts(users, identifier, password, matches, k)
    ensures j == k
  {
    if users[j].nationalId == identifier {
      assert users[k].nationalId == identifier;
    } else {
      assert users[k].email == identifier;
    }
  }

  // -------------------------------------------------------- authentication

  /** The user that blocks a registration: the national id holder, else the email holder. */
  function ExistingUser(store: DatabaseStorage, nationalId: string, email: string): (r: Option<User>)
    reads store
    requires store.Valid()
    ensures r.Some? <==> Taken(store.users, nationalId, email)
    ensures r.Some? ==> Stored(store.users, UserKey, r.value)
    ensures r.Some? ==> r.value.nationalId == nationalId || (!HasNationalId(store.users, nationalId) && r.value.email == email)
  {
    var byNationalId := store.GetUserByNationalId(nationalId);
    if byNationalId.Some? then byNationalId else store.GetUserByEmail(email)
  }

  /**
   * `POST /api/auth/register`: refuses a national id or email already in use,
   * and otherwise stores the user with the hash of the password.
   */
  method PostRegister(store: DatabaseStorage, body: Option<InsertUser>, hash: string -> string, now: Timestamp)
    returns (resp: Response)
    requires store.Valid()
    modifies store`users, store`nextUserId
    ensures store.Valid()
    ensures body.None? || Taken(old(store.users), body.value.nationalId, body.value.email) ==>
              && store.users == old(store.users) && store.nextUserId == old(store.nextUserId)
    ensures body.None? ==> resp == Response(400, Failure)
    ensures body.Some? && Taken(old(store.users), body.value.nationalId, body.value.email) ==>
              resp == Response(400, Message("User already exists"))
    ensures body.Some? && !Taken(old(store.users), body.value.nationalId, body.value.email) ==>
              var u := NewUser(old(store.nextUserId), body.value.(password := hash(body.value.password)), now);
              && u.password == hash(body.value.password)
              && resp == Response(200, UserBody(Public(u)))
              && store.users == old(store.users)[u.id := u]
              && store.nextUserId == old(store.nextUserId) + 1
  {
    if body.None? {
      return Response(400, Failure);
    }
    var data := body.value;
    var hashedPassword := hash(data.password);
    var existing := ExistingUser(store, data.nationalId, data.email);
    if existing.Some? {
      return Response(400, Message("User already exists"));
    }
    var created := store.CreateUser(data.(password := hashedPassword), now);
    resp := Response(200, UserBody(Public(created.value)));
  }

  /**
   * `POST /api/auth/login`: looks the identifier up as a national id, then
   * as an email, checks the password, and records the user in the session.
   */
  method PostLogin(store: DatabaseStorage, session: Session, identifier: string, password: string,
                   matches: (string, string) -> bool)
    returns (resp: Response)
    requires store.Valid()
    modifies session
    ensures resp.status == 200 <==> exists k :: Accepts(store.users, identifier, password, matches, k)
    ensures resp.status == 200 ==>
              && session.userId.Some?
              && Accepts(store.users, identifier, password, matches, session.userId.value)
              && resp.body == UserBody(Public(store.users[session.userId.value]))
              && session.LoggedIn()
    ensures resp.status != 200 ==>
              resp == Response(401, Message("Invalid credentials")) && session.userId == old(session.userId)
  {
    var user := store.GetUserByNationalId(identifier);
    if user.None? {
      user := store.GetUserByEmail(identifier);
    }
    if user.None? || !matches(password, user.value.password) {
      return Response(401, Message("Invalid credentials"));
    }
    assert Accepts(store.users, identifier, password, matches, user.value.id);
    session.userId := Some(user.value.id);
    resp := Response(200, UserBody(Public(user.value)));
  }

  // ------------------------------------------------------------ hospitals

  /** `GET /api/hospitals?q=`: a non-empty query searches, otherwise every hospital is listed. */
  function GetHospitals(store: DatabaseStorage, q: string): (resp: Response)
    reads store
    requires store.Valid()
    ensures resp.status == 200 && resp.body.HospitalsBody?
    ensures forall h :: h in resp.body.hospitals <==>
              Stored(store.hospitals, HospitalKey, h) && (q == "" || HospitalMatches(h, q))
    ensures Ascending(resp.body.hospitals, HospitalKey)
  {
    if q != "" then Response(200, HospitalsBody(store.SearchHospitals(q)))
    else Response(200, HospitalsBody(store.AllHospitals()))
  }

  /** `GET /api/hospitals/:id`. */
  function GetHospitalById(store: DatabaseStorage, id: Id): (resp: Response)
    reads store
    requires store.Valid()
    ensures id !in store.hospitals <==> resp == Response(404, Message("Hospital not found"))
    ensures id in store.hospitals ==> resp == Response(200, HospitalBody(store.hospitals[id]))
  {
    var hospital := store.GetHospital(id);
    if hospital.None? then Response(404, Message("Hospital not found"))
    else Response(200, HospitalBody(hospital.value))
  }

  /** `POST /api/hospitals`. */
  method PostHospital(store: DatabaseStorage, body: Option<InsertHospital>, now: Timestamp) returns (resp: Response)
    requires store.Valid()
    modifies store`hospitals, store`nextHospitalId
    ensures store.Valid()
    ensures body.None? ==> && resp == Response(400, Failure)
                           && store.hospitals == old(store.hospitals)
                           && store.nextHospitalId == old(store.nextHospitalId)
    ensures body.Some? ==>
              var h := NewHospital(old(store.nextHospitalId), body.value, now);
              && resp == Response(200, HospitalBody(h))
              && store.hospitals == old(store.hospitals)[h.id := h]
              && store.nextHospitalId == old(store.nextHospitalId) + 1
  {
    if body.None? {
      return Response(400, Failure);
    }
    var hospital := store.CreateHospital(body.value, now);
    resp := Response(200, HospitalBody(hospital));
  }

  // -------------------------------------------------------------- doctors

  /**
   * `GET /api/doctors?hospitalId=&q=`: a hospital filter wins over a search,
   * which wins over listing every doctor.
   */
  function GetDoctors(store: DatabaseStorage, q: string, hospitalId: Option<Id>): (resp: Response)
    reads store
    requires store.Valid()
    ensures resp.status == 200
    ensures hospitalId.Some? ==> resp.body.DoctorsWithUserBody?
    ensures hospitalId.None? ==> resp.body.DoctorViewsBody?
    ensures resp.body.DoctorsWithUserBody? ==>
              var ds := resp.body.doctorsWithUser;
              && (forall d :: d in RowsOfDoctorsWithUser(ds) <==>
                    Stored(store.doctors, DoctorKey, d) && d.hospitalId == hospitalId.value)
              && Ascending(RowsOfDoctorsWithUser(ds), DoctorKey)
              && (forall i :: 0 <= i < |ds| ==>
                    ds[i].doctor.userId in store.users && ds[i].user == store.users[ds[i].doctor.userId])
    ensures resp.body.DoctorViewsBody? ==>
              var ds := resp.body.doctorViews;
              && (forall d :: d in RowsOfDoctorViews(ds) <==>
                    Stored(store.doctors, DoctorKey, d) && (q == "" || DoctorMatches(d, store.users[d.userId], q)))
              && Ascending(RowsOfDoctorViews(ds), DoctorKey)
              && (forall i :: 0 <= i < |ds| ==> store.DoctorJoined(ds[i]))
  {
    if hospitalId.Some? then Response(200, DoctorsWithUserBody(store.DoctorsByHospital(hospitalId.value)))
    else if q != "" then Response(200, DoctorViewsBody(store.SearchDoctors(q)))
    else Response(200, DoctorViewsBody(store.AllDoctors()))
  }

  /** `GET /api/doctors/:id`. */
  function GetDoctorById(store: DatabaseStorage, id: Id): (resp: Response)
    reads store
    requires store.Valid()
    ensures id !in store.doctors <==> resp == Response(404, Message("Doctor not found"))
    ensures id in store.doctors ==>
              && resp.status == 200 && resp.body.DoctorViewBody?
              && resp.body.doctorView.doctor == store.doctors[id]
              && store.DoctorJoined(resp.body.doctorView)
  {
    var doctor := store.GetDoctor(id);
    if doctor.None? then Response(404, Message("Doctor not found"))
    else Response(200, DoctorViewBody(doctor.value))
  }

  /** `POST /api/doctors`: a doctor whose user or hospital does not exist is refused. */
  method PostDoctor(store: DatabaseStorage, body: Option<InsertDoctor>, now: Timestamp) returns (resp: Response)
    requires store.Valid()
    modifies store`doctors, store`nextDoctorId
    ensures store.Valid()
    ensures body.None? ==> && resp == Response(400, Failure)
                           && store.doctors == old(store.doctors)
                           && store.nextDoctorId == old(store.nextDoctorId)
    ensures body.Some? ==> store.nextDoctorId == old(store.nextDoctorId) + 1
    ensures body.Some? && !(body.value.userId in store.users && body.value.hospitalId in store.hospitals) ==>
              resp == Response(400, Failure) && store.doctors == old(store.doctors)
    ensures body.Some? && body.value.userId in store.users && body.value.hospitalId in store.hospitals ==>
              var d := NewDoctor(old(store.nextDoctorId), body.value, now);
              resp == Response(200, DoctorBody(d)) && store.doctors == old(store.doctors)[d.id := d]
  {
    if body.None? {
      return Response(400, Failure);
    }
    var created := store.CreateDoctor(body.value, now);
    resp := if created.Ok? then Response(200, DoctorBody(created.value)) else Response(400, Failure);
  }

  // --------------------------------------------------------- appointments

  /**
   * `POST /api/appointments`: needs a session; the patient is the session's
   * user whatever the body says, and the video link is freshly generated.
   */
  method PostAppointment(store: DatabaseStorage, session: Session, body: Option<InsertAppointment>,
                         token: string, now: Timestamp)
    returns (resp: Response)
    requires store.Valid()
    modifies store`appointments, store`nextAppointmentId
    ensures store.Valid()
    ensures !session.LoggedIn() || body.None? ==>
              && store.appointments == old(store.appointments)
              && store.nextAppointmentId == old(store.nextAppointmentId)
    ensures !session.LoggedIn() ==> resp == Response(401, Message("Unauthorized"))
    ensures session.LoggedIn() && body.None? ==> resp == Response(400, Failure)
    ensures session.LoggedIn() && body.Some? ==>
              var ins := body.value.(patientId := session.userId.value, videoLink := Some(VideoLinkPrefix + token));
              var a := NewAppointment(old(store.nextAppointmentId), ins, now);
              && store.nextAppointmentId == old(store.nextAppointmentId) + 1
              && (if ins.patientId in store.users && ins.doctorId in store.doctors && ins.hospitalId in store.hospitals
                  then resp == Response(200, AppointmentBody(a)) && store.appointments == old(store.appointments)[a.id := a]
                  else resp == Response(400, Failure) && store.appointments == old(store.appointments))
    ensures resp.status == 200 ==>
              && resp.body.AppointmentBody?
              && Some(resp.body.appointment.patientId) == session.userId
              && resp.body.appointment.videoLink == Some(VideoLinkPrefix + token)
  {
    if !session.LoggedIn() {
      return Response(401, Message("Unauthorized"));
    }
    if body.None? {
      return Response(400, Failure);
    }
    var videoLink := VideoLinkPrefix + token;
    var created := store.CreateAppointment(body.value.(patientId := session.userId.value, videoLink := Some(videoLink)), now);
    resp := if created.Ok? then Response(200, AppointmentBody(created.value)) else Response(400, Failure);
  }

  /** `GET /api/appointments/patient/:patientId`: only the patient themself may list them. */
  function GetPatientAppointments(store: DatabaseStorage, session: Session, patientId: Id): (resp: Response)
    reads store, session
    requires store.Valid()
    ensures resp.status == 200 <==> session.LoggedIn() && session.userId.value == patientId
    ensures resp.status != 200 ==> resp == Response(403, Message("Forbidden"))
    ensures resp.status == 200 ==> resp.body.AppointmentViewsBody?
    ensures resp.status == 200 ==>
              var vs := resp.body.appointmentViews;
              && (forall a :: a in RowsOfAppointmentViews(vs) <==>
                    Stored(store.appointments, AppointmentKey, a) && a.patientId == patientId)
              && Ascending(RowsOfAppointmentViews(vs), AppointmentKey)
              && (forall i :: 0 <= i < |vs| ==>
                    && Some(vs[i].appointment.patientId) == session.userId
                    && store.AppointmentJoined(vs[i]))
  {
    if !session.LoggedIn() || session.userId.value != patientId then Response(403, Message("Forbidden"))
    else Response(200, AppointmentViewsBody(store.PatientAppointments(patientId)))
  }

  /** `PATCH /api/appointments/:id/status`. */
  method PatchAppointmentStatus(store: DatabaseStorage, id: Id, status: string) returns (resp: Response)
    requires store.Valid()
    modifies store`appointments
    ensures store.Valid()
    ensures id !in old(store.appointments) <==> resp == Response(404, Message("Appointment not found"))
    ensures id !in old(store.appointments) ==> store.appointments == old(store.appointments)
    ensures id in old(store.appointments) ==>
              var a := old(store.appointments)[id].(status := status);
              resp == Response(200, AppointmentBody(a)) && store.appointments == old(store.appointments)[id := a]
  {
    var updated := store.UpdateAppointmentStatus(id, status);
    if updated.None? {
      return Response(404, Message("Appointment not found"));
    }
    resp := Response(200, AppointmentBody(updated.value));
  }

  // ------------------------------------------------------ medical records

  /** `POST /api/records`: the patient and the uploader must both be users. */
  method PostRecord(store: DatabaseStorage, body: Option<InsertMedicalRecord>, now: Timestamp) returns (resp: Response)
    requires store.Valid()
    modifies store`medicalRecords, store`nextRecordId
    ensures store.Valid()
    ensures body.None? ==> && resp == Response(400, Failure)
                           && store.medicalRecords == old(store.medicalRecords)
                           && store.nextRecordId == old(store.nextRecordId)
    ensures body.Some? ==> store.nextRecordId == old(store.nextRecordId) + 1
    ensures body.Some? && !(body.value.patientId in store.users && body.value.uploadedBy in store.users) ==>
              resp == Response(400, Failure) && store.medicalRecords == old(store.medicalRecords)
    ensures body.Some? && body.value.patientId in store.users && body.value.uploadedBy in store.users ==>
              var m := NewMedicalRecord(old(store.nextRecordId), body.value, now);
              resp == Response(200, RecordBody(m)) && store.medicalRecords == old(store.medicalRecords)[m.id := m]
  {
    if body.None? {
      return Response(400, Failure);
    }
    var created := store.CreateMedicalRecord(body.value, now);
    resp := if created.Ok? then Response(200, RecordBody(created.value)) else Response(400, Failure);
  }

  /** `GET /api/records/patient/:patientId`: no session is consulted. */
  function GetPatientRecords(store: DatabaseStorage, patientId: Id): (resp: Response)
    reads store
    requires store.Valid()
    ensures resp.status == 200 && resp.body.RecordsBody?
    ensures forall m :: m in resp.body.records <==>
              Stored(store.medicalRecords, RecordKey, m) && m.patientId == patientId
    ensures Ascending(resp.body.records, RecordKey)
  {
    Response(200, RecordsBody(store.PatientRecords(patientId)))
  }

  // ---------------------------------------------------- patient transfers

  /** `POST /api/transfers`: the patient and both hospitals must exist. */
  method PostTransfer(store: DatabaseStorage, body: Option<InsertPatientTransfer>, now: Timestamp)
    returns (resp: Response)
    requires store.Valid()
    modifies store`patientTransfers, store`nextTransferId
    ensures store.Valid()
    ensures body.None? ==> && resp == Response(400, Failure)
                           && store.patientTransfers == old(store.patientTransfers)
                           && store.nextTransferId == old(store.nextTransferId)
    ensures body.Some? ==> store.nextTransferId == old(store.nextTransferId) + 1
    ensures body.Some? ==>
              var ins := body.value;
              var t := NewTransfer(old(store.nextTransferId), ins, now);
              if ins.patientId in store.users && ins.fromHospitalId in store.hospitals && ins.toHospitalId in store.hospitals
              then resp == Response(200, TransferBody(t)) && store.patientTransfers == old(store.patientTransfers)[t.id := t]
              else resp == Response(400, Failure) && store.patientTransfers == old(store.patientTransfers)
  {
    if body.None? {
      return Response(400, Failure);
    }
    var created := store.CreateTransfer(body.value, now);
    resp := if created.Ok? then Response(200, TransferBody(created.value)) else Response(400, Failure);
  }

  /** `GET /api/transfers/patient/:patientId`: no session is consulted. */
  method GetPatientTransfers(store: DatabaseStorage, patientId: Id) returns (resp: Response)
    requires store.Valid()
    ensures resp.status == 200 && resp.body.TransferViewsBody?
    ensures forall t :: t in RowsOfTransferViews(resp.body.transferViews) <==>
              Stored(store.patientTransfers, TransferKey, t) && t.patientId == patientId
    ensures Ascending(RowsOfTransferViews(resp.body.transferViews), TransferKey)
    ensures forall i :: 0 <= i < |resp.body.transferViews| ==> store.TransferJoined(resp.body.transferViews[i])
  {
    var transfers := store.GetPatientTransfers(patientId);
    resp := Response(200, TransferViewsBody(transfers));
  }

  // ---------------------------------------------------------------- users

  /** `GET /api/users/:id`: the profile without its password. */
  function GetUserById(store: DatabaseStorage, id: Id): (resp: Response)
    reads store
    requires store.Valid()
    ensures id !in store.users <==> resp == Response(404, Message("User not found"))
    ensures id in store.users ==> resp == Response(200, ProfileBody(Public(store.users[id])))
  {
    var user := store.GetUser(id);
    if user.None? then Response(404, Message("User not found"))
    else Response(200, ProfileBody(Public(user.value)))
  }

  /**
   * `PATCH /api/users/:id`: the body is merged into the row as given; an error
   * the store raises, including the refusal of an empty patch or of one
   * naming `createdAt`, is answered with 400.
   */
  method PatchUser(store: DatabaseStorage, id: Id, patch: UserPatch) returns (resp: Response)
    requires store.Valid()
    modifies store`users
    ensures store.Valid()
    ensures !Writable(patch) ==> resp == Response(400, Failure)
    ensures Writable(patch) ==> (id !in old(store.users) <==> resp == Response(404, Message("User not found")))
    ensures Writable(patch) && id in old(store.users) &&
            Clashes(old(store.users), id, Merge(old(store.users)[id], patch)) ==>
              resp == Response(400, Failure)
    ensures resp.status == 200 <==>
              Writable(patch) && id in old(store.users) &&
              !Clashes(old(store.users), id, Merge(old(store.users)[id], patch))
    ensures resp.status != 200 ==> store.users == old(store.users)
    ensures resp.status == 200 ==>
              && id in old(store.users)
              && var u := Merge(old(store.users)[id], patch);
              && resp == Response(200, ProfileBody(Public(u)))
              && store.users == old(store.users)[id := u]
  {
    var updated := store.UpdateUser(id, patch);
    if updated.Err? {
      return if updated.error == NotFound then Response(404, Message("User not found")) else Response(400, Failure);
    }
    resp := Response(200, ProfileBody(Public(updated.value)));
  }
}

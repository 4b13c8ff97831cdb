/**
 * The data-access layer: the store's six tables held in memory, the
 * schema's rules as the object invariant `Valid()`, the lookups, filtered
 * lists and searches as functions, the joined views that nest rows found
 * through foreign keys, and the inserts and updates as methods.
 */
module Storage {
  import opened Schema
  import opened Text
  import opened Tables

  /**
   * The failure kinds a store call reports instead of a row. `NothingToSet`
   * and `Unencodable` are the query builder's refusals of an update: a patch
   * that names no column, and a patch naming `createdAt`, whose value a JSON
   * body cannot carry as the `Date` the timestamp column encodes. Both are
   * raised before any row is looked at.
   */
  datatype StoreError = NotFound | ConstraintViolation | NothingToSet | Unencodable

  datatype Result<+T> = Ok(value: T) | Err(error: StoreError)

  /** A doctor with its user and its hospital. */
  datatype DoctorView = DoctorView(doctor: Doctor, user: User, hospital: Hospital)

  /** A doctor with its user only. */
  datatype DoctorWithUser = DoctorWithUser(doctor: Doctor, user: User)

  /** An appointment with its doctor (itself with its user) and its hospital. */
  datatype AppointmentView = AppointmentView(appointment: Appointment, doctor: DoctorWithUser, hospital: Hospital)

  /** A transfer with its source and destination hospitals. */
  datatype TransferView = TransferView(transfer: PatientTransfer, fromHospital: Hospital, toHospital: Hospital)

  function UserKey(u: User): Id { u.id }
  function HospitalKey(h: Hospital): Id { h.id }
  function DoctorKey(d: Doctor): Id { d.id }
  function AppointmentKey(a: Appointment): Id { a.id }
  function RecordKey(m: MedicalRecord): Id { m.id }
  function TransferKey(t: PatientTransfer): Id { t.id }

  /** The unique indexes on `national_id` and on `email`. */
  ghost predicate UniqueLogins(users: map<Id, User>) {
    && (forall j, k :: j in users && k in users && users[j].nationalId == users[k].nationalId ==> j == k)
    && (forall j, k :: j in users && k in users && users[j].email == users[k].email ==> j == k)
  }

  /** Some row other than `id` already holds `u`'s national id or email. */
  ghost predicate Clashes(users: map<Id, User>, id: Id, u: User) {
    exists k :: k in users && k != id && (users[k].nationalId == u.nationalId || users[k].email == u.email)
  }

  /** Replacing a row by one that clashes with no other row keeps both indexes unique. */
  lemma ReplacePreservesUnique(users: map<Id, User>, id: Id, u: User)
    requires UniqueLogins(users)
    requires forall k :: k in users && k != id ==> users[k].nationalId != u.nationalId && users[k].email != u.email
    ensures UniqueLogins(users[id := u])
  {
  }

  /** The case-insensitive hospital search: name, location or region contains the query. */
  predicate HospitalMatches(h: Hospital, query: string) {
    ILike(h.name, query) || ILike(h.location, query) || ILike(h.region, query)
  }

  /** The case-insensitive doctor search: specialty or the joined user's name contains the query. */
  predicate DoctorMatches(d: Doctor, u: User, query: string) {
    ILike(d.specialty, query) || ILike(u.name, query)
  }

  // The bare rows under a list of joined views.

  function RowsOfDoctorViews(vs: seq<DoctorView>): (r: seq<Doctor>)
    ensures |r| == |vs| && forall i :: 0 <= i < |vs| ==> r[i] == vs[i].doctor
  {
    seq(|vs|, i requires 0 <= i < |vs| => vs[i].doctor)
  }

  function RowsOfDoctorsWithUser(vs: seq<DoctorWithUser>): (r: seq<Doctor>)
    ensures |r| == |vs| && forall i :: 0 <= i < |vs| ==> r[i] == vs[i].doctor
  {
    seq(|vs|, i requires 0 <= i < |vs| => vs[i].doctor)
  }

  function RowsOfAppointmentViews(vs: seq<AppointmentView>): (r: seq<Appointment>)
    ensures |r| == |vs| && forall i :: 0 <= i < |vs| ==> r[i] == vs[i].appointment
  {
    seq(|vs|, i requires 0 <= i < |vs| => vs[i].appointment)
  }

  function RowsOfTransferViews(vs: seq<TransferView>): (r: seq<PatientTransfer>)
    ensures |r| == |vs| && forall i :: 0 <= i < |vs| ==> r[i] == vs[i].transfer
  {
    seq(|vs|, i requires 0 <= i < |vs| => vs[i].transfer)
  }

  // The `result.map(row => ({ ...row.doctors, user: row.users!, ... }))` reshaping.

  function JoinDoctors(rows: seq<Doctor>, users: map<Id, User>, hospitals: map<Id, Hospital>): (r: seq<DoctorView>)
    requires forall i :: 0 <= i < |rows| ==> rows[i].userId in users && rows[i].hospitalId in hospitals
    ensures RowsOfDoctorViews(r) == rows
    ensures forall i :: 0 <= i < |r| ==>
              r[i].user == users[rows[i].userId] && r[i].hospital == hospitals[rows[i].hospitalId]
  {
    seq(|rows|, i requires 0 <= i < |rows| =>
      DoctorView(rows[i], users[rows[i].userId], hospitals[rows[i].hospitalId]))
  }

  function JoinUsers(rows: seq<Doctor>, users: map<Id, User>): (r: seq<DoctorWithUser>)
    requires forall i :: 0 <= i < |rows| ==> rows[i].userId in users
    ensures RowsOfDoctorsWithUser(r) == rows
    ensures forall i :: 0 <= i < |r| ==> r[i].user == users[rows[i].userId]
  {
    seq(|rows|, i requires 0 <= i < |rows| => DoctorWithUser(rows[i], users[rows[i].userId]))
  }

  function JoinAppointments(rows: seq<Appointment>, doctors: map<Id, Doctor>, users: map<Id, User>,
                            hospitals: map<Id, Hospital>): (r: seq<AppointmentView>)
    requires forall i :: 0 <= i < |rows| ==>
               && rows[i].doctorId in doctors && doctors[rows[i].doctorId].userId in users
               && rows[i].hospitalId in hospitals
    ensures RowsOfAppointmentViews(r) == rows
    ensures forall i :: 0 <= i < |r| ==>
              && r[i].doctor.doctor == doctors[rows[i].doctorId]
              && r[i].doctor.user == users[doctors[rows[i].doctorId].userId]
              && r[i].hospital == hospitals[rows[i].hospitalId]
  {
    seq(|rows|, i requires 0 <= i < |rows| =>
      AppointmentView(rows[i],
                      DoctorWithUser(doctors[rows[i].doctorId], users[doctors[rows[i].doctorId].userId]),
                      hospitals[rows[i].hospitalId]))
  }

  /**
   * The body of a `PATCH`-style user update: a column named in the patch
   * takes the given value, every other column keeps its value. The primary
   * key cannot be patched.
   */
  datatype UserPatch = UserPatch(
    nationalId: Field<string>,
    email: Field<string>,
    password: Field<string>,
    name: Field<string>,
    phone: Field<Option<string>>,
    bloodType: Field<Option<string>>,
    dateOfBirth: Field<Option<string>>,
    gender: Field<Option<string>>,
    role: Field<string>,
    avatar: Field<Option<string>>,
    createdAt: Field<Timestamp>)

  const NoChange := UserPatch(Omitted, Omitted, Omitted, Omitted, Omitted, Omitted,
                              Omitted, Omitted, Omitted, Omitted, Omitted)

  /** A patch the query builder turns into an UPDATE statement. */
  predicate Writable(p: UserPatch) {
    p != NoChange && p.createdAt.Omitted?
  }

  function Merge(u: User, p: UserPatch): (r: User)
    ensures r.id == u.id
    ensures p.nationalId.Omitted? ==> r.nationalId == u.nationalId
    ensures p.email.Omitted? ==> r.email == u.email
  {
    User(u.id, p.nationalId.Or(u.nationalId), p.email.Or(u.email), p.password.Or(u.password),
         p.name.Or(u.name), p.phone.Or(u.phone), p.bloodType.Or(u.bloodType),
         p.dateOfBirth.Or(u.dateOfBirth), p.gender.Or(u.gender), p.role.Or(u.role),
         p.avatar.Or(u.avatar), p.createdAt.Or(u.createdAt))
  }

  /** An empty patch changes nothing; applying a patch twice is applying it once. */
  lemma MergeLaws(u: User, p: UserPatch)
    ensures Merge(u, NoChange) == u
    ensures Merge(Merge(u, p), p) == Merge(u, p)
  {
  }

  class DatabaseStorage {
    var users: map<Id, User>
    var hospitals: map<Id, Hospital>
    var doctors: map<Id, Doctor>
    var appointments: map<Id, Appointment>
    var medicalRecords: map<Id, MedicalRecord>
    var patientTransfers: map<Id, PatientTransfer>

    // the next value of each table's serial sequence
    var nextUserId: Id
    var nextHospitalId: Id
    var nextDoctorId: Id
    var nextAppointmentId: Id
    var nextRecordId: Id
    var nextTransferId: Id

    /** Primary keys, the two unique indexes, and every foreign key resolving. */
    ghost predicate Valid()
      reads this
    {
      && Serial(users, nextUserId, UserKey)
      && Serial(hospitals, nextHospitalId, HospitalKey)
      && Serial(doctors, nextDoctorId, DoctorKey)
      && Serial(appointments, nextAppointmentId, AppointmentKey)
      && Serial(medicalRecords, nextRecordId, RecordKey)
      && Serial(patientTransfers, nextTransferId, TransferKey)
      && UniqueLogins(users)
      && (forall k :: k in doctors ==>
            doctors[k].userId in users && doctors[k].hospitalId in hospitals)
      && (forall k :: k in appointments ==>
            && appointments[k].patientId in users
            && appointments[k].doctorId in doctors
            && appointments[k].hospitalId in hospitals)
      && (forall k :: k in medicalRecords ==>
            medicalRecords[k].patientId in users && medicalRecords[k].uploadedBy in users)
      && (forall k :: k in patientTransfers ==>
            && patientTransfers[k].patientId in users
            && patientTransfers[k].fromHospitalId in hospitals
            && patientTransfers[k].toHospitalId in hospitals)
    }

    constructor ()
      ensures Valid()
      ensures users == map[] && hospitals == map[] && doctors == map[]
      ensures appointments == map[] && medicalRecords == map[] && patientTransfers == map[]
    {
      users, hospitals, doctors := map[], map[], map[];
      appointments, medicalRecords, patientTransfers := map[], map[], map[];
      nextUserId, nextHospitalId, nextDoctorId := 1, 1, 1;
      nextAppointmentId, nextRecordId, nextTransferId := 1, 1, 1;
    }

    // ------------------------------------------------------------- joins

    ghost predicate DoctorJoined(v: DoctorView)
      reads this
    {
      && Stored(doctors, DoctorKey, v.doctor)
      && v.doctor.userId in users && v.user == users[v.doctor.userId]
      && v.doctor.hospitalId in hospitals && v.hospital == hospitals[v.doctor.hospitalId]
    }

    ghost predicate AppointmentJoined(v: AppointmentView)
      reads this
    {
      && Stored(appointments, AppointmentKey, v.appointment)
      && v.appointment.doctorId in doctors && v.doctor.doctor == doctors[v.appointment.doctorId]
      && v.doctor.doctor.userId in users && v.doctor.user == users[v.doctor.doctor.userId]
      && v.appointment.hospitalId in hospitals && v.hospital == hospitals[v.appointment.hospitalId]
    }

    ghost predicate TransferJoined(v: TransferView)
      reads this
    {
      && Stored(patientTransfers, TransferKey, v.transfer)
      && v.transfer.fromHospitalId in hospitals && v.fromHospital == hospitals[v.transfer.fromHospitalId]
      && v.transfer.toHospitalId in hospitals && v.toHospital == hospitals[v.transfer.toHospitalId]
    }

    // ------------------------------------------------------------- users

    function GetUser(id: Id): (r: Option<User>)
      reads this
      requires Valid()
      ensures r.Some? <==> id in users
      ensures r.Some? ==> r.value == users[id] && r.value.id == id
    {
      var rows := Where(users, nextUserId, UserKey, (u: User) => u.id == id);
      assert id in users ==> users[id] in rows;
      if rows == [] then None else Some(rows[0])
    }

    function GetUserByNationalId(nationalId: string): (r: Option<User>)
      reads this
      requires Valid()
      ensures r.Some? ==> Stored(users, UserKey, r.value) && r.value.nationalId == nationalId
      ensures forall k :: k in users && users[k].nationalId == nationalId ==> r == Some(users[k])
    {
      var rows := Where(users, nextUserId, UserKey, (u: User) => u.nationalId == nationalId);
      assert forall k :: k in users && users[k].nationalId == nationalId ==> users[k] in rows;
      if rows == [] then None else Some(rows[0])
    }

    function GetUserByEmail(email: string): (r: Option<User>)
      reads this
      requires Valid()
      ensures r.Some? ==> Stored(users, UserKey, r.value) && r.value.email == email
      ensures forall k :: k in users && users[k].email == email ==> r == Some(users[k])
    {
      var rows := Where(users, nextUserId, UserKey, (u: User) => u.email == email);
      assert forall k :: k in users && users[k].email == email ==> users[k] in rows;
      if rows == [] then None else Some(rows[0])
    }

    method CreateUser(ins: InsertUser, now: Timestamp) returns (r: Result<User>)
      requires Valid()
      modifies this`users, this`nextUserId
      ensures Valid()
      ensures nextUserId == old(nextUserId) + 1
      ensures r.Ok? <==> !exists k :: k in old(users) &&
                                     (old(users)[k].nationalId == ins.nationalId || old(users)[k].email == ins.email)
      ensures r.Err? ==> r.error == ConstraintViolation && users == old(users)
      ensures r.Ok? ==> && r.value == NewUser(old(nextUserId), ins, now)
                        && r.value.id !in old(users)
                        && users == old(users)[r.value.id := r.value]
      ensures r.Ok? ==> && GetUser(r.value.id) == Some(r.value)
                        && GetUserByNationalId(ins.nationalId) == Some(r.value)
                        && GetUserByEmail(ins.email) == Some(r.value)
    {
      var id := nextUserId;
      nextUserId := nextUserId + 1;
      if exists k :: k in users && (users[k].nationalId == ins.nationalId || users[k].email == ins.email) {
        r := Err(ConstraintViolation);
      } else {
        var u := NewUser(id, ins, now);
        forall k | k in users ensures users[k].nationalId != u.nationalId && users[k].email != u.email {
        }
        ReplacePreservesUnique(users, id, u);
        users := users[id := u];
        r := Ok(u);
      }
    }

    method UpdateUser(id: Id, patch: UserPatch) returns (r: Result<User>)
      requires Valid()
      modifies this`users
      ensures Valid()
      ensures patch == NoChange ==> r == Err(NothingToSet)
      ensures patch != NoChange && patch.createdAt.Given? ==> r == Err(Unencodable)
      ensures Writable(patch) && id !in old(users) ==> r == Err(NotFound)
      ensures Writable(patch) && id in old(users) && Clashes(old(users), id, Merge(old(users)[id], patch)) ==>
                r == Err(ConstraintViolation)
      ensures r.Ok? <==>
                Writable(patch) && id in old(users) && !Clashes(old(users), id, Merge(old(users)[id], patch))
      ensures r.Err? ==> users == old(users)
      ensures r.Ok? ==> && id in old(users)
                        && r.value == Merge(old(users)[id], patch)
                        && users == old(users)[id := r.value]
    {
      if patch == NoChange {
        return Err(NothingToSet);
      }
      if patch.createdAt.Given? {
        return Err(Unencodable);
      }
      if id !in users {
        return Err(NotFound);
      }
      var merged := Merge(users[id], patch);
      if exists k :: k in users && k != id &&
                     (users[k].nationalId == merged.nationalId || users[k].email == merged.email) {
        return Err(ConstraintViolation);
      }
      ReplacePreservesUnique(users, id, merged);
      users := users[id := merged];
      r := Ok(merged);
    }

    // --------------------------------------------------------- hospitals

    function AllHospitals(): (r: seq<Hospital>)
      reads this
      requires Valid()
      ensures |r| == |hospitals|
      ensures forall h :: h in r <==> Stored(hospitals, HospitalKey, h)
      ensures Ascending(r, HospitalKey)
    {
      var every := (h: Hospital) => true;
      WhereCount(hospitals, nextHospitalId, HospitalKey, every);
      Where(hospitals, nextHospitalId, HospitalKey, every)
    }

    function GetHospital(id: Id): (r: Option<Hospital>)
      reads this
      requires Valid()
      ensures r.Some? <==> id in hospitals
      ensures r.Some? ==> r.value == hospitals[id] && r.value.id == id
    {
      var rows := Where(hospitals, nextHospitalId, HospitalKey, (h: Hospital) => h.id == id);
      assert id in hospitals ==> hospitals[id] in rows;
      if rows == [] then None else Some(rows[0])
    }

    method CreateHospital(ins: InsertHospital, now: Timestamp) returns (h: Hospital)
      requires Valid()
      modifies this`hospitals, this`nextHospitalId
      ensures Valid()
      ensures nextHospitalId == old(nextHospitalId) + 1
      ensures h == NewHospital(old(nextHospitalId), ins, now) && h.id !in old(hospitals)
      ensures hospitals == old(hospitals)[h.id := h]
      ensures GetHospital(h.id) == Some(h)
    {
      h := NewHospital(nextHospitalId, ins, now);
      nextHospitalId := nextHospitalId + 1;
      hospitals := hospitals[h.id := h];
    }

    function SearchHospitals(query: string): (r: seq<Hospital>)
      reads this
      requires Valid()
      ensures forall h :: h in r <==> Stored(hospitals, HospitalKey, h) && HospitalMatches(h, query)
      ensures Ascending(r, HospitalKey)
    {
      Where(hospitals, nextHospitalId, HospitalKey, (h: Hospital) => HospitalMatches(h, query))
    }

    /** Every search result is a listed hospital, and the empty search lists every hospital. */
    lemma SearchHospitalsWithinAll(query: string)
      requires Valid()
      ensures forall h :: h in SearchHospitals(query) ==> h in AllHospitals()
      ensures SearchHospitals("") == AllHospitals()
    {
      forall h ensures h in SearchHospitals("") <==> h in AllHospitals() {
        EmptyQueryMatches(h.name);
      }
      AscendingUnique(SearchHospitals(""), AllHospitals(), HospitalKey);
    }

    // ----------------------------------------------------------- doctors

    function AllDoctors(): (r: seq<DoctorView>)
      reads this
      requires Valid()
      ensures |r| == |doctors|
      ensures forall d :: d in RowsOfDoctorViews(r) <==> Stored(doctors, DoctorKey, d)
      ensures Ascending(RowsOfDoctorViews(r), DoctorKey)
      ensures forall i :: 0 <= i < |r| ==> DoctorJoined(r[i])
      ensures forall i :: 0 <= i < |r| ==>
                r[i].user.id == r[i].doctor.userId && r[i].hospital.id == r[i].doctor.hospitalId
    {
      var every := (d: Doctor) => true;
      WhereCount(doctors, nextDoctorId, DoctorKey, every);
      JoinDoctors(Where(doctors, nextDoctorId, DoctorKey, every), users, hospitals)
    }

    function DoctorsByHospital(hospitalId: Id): (r: seq<DoctorWithUser>)
      reads this
      requires Valid()
      ensures forall d :: d in RowsOfDoctorsWithUser(r) <==>
                Stored(doctors, DoctorKey, d) && d.hospitalId == hospitalId
      ensures Ascending(RowsOfDoctorsWithUser(r), DoctorKey)
      ensures forall i :: 0 <= i < |r| ==>
                r[i].doctor.userId in users && r[i].user == users[r[i].doctor.userId]
      ensures forall i :: 0 <= i < |r| ==> r[i].user.id == r[i].doctor.userId
    {
      JoinUsers(Where(doctors, nextDoctorId, DoctorKey, (d: Doctor) => d.hospitalId == hospitalId), users)
    }

    function GetDoctor(id: Id): (r: Option<DoctorView>)
      reads this
      requires Valid()
      ensures r.Some? <==> id in doctors
      ensures r.Some? ==> r.value.doctor.id == id && DoctorJoined(r.value)
      ensures r.Some? ==>
                r.value.user.id == r.value.doctor.userId && r.value.hospital.id == r.value.doctor.hospitalId
    {
      var rows := Where(doctors, nextDoctorId, DoctorKey, (d: Doctor) => d.id == id);
      assert id in doctors ==> doctors[id] in rows;
      if rows == [] then None
      else Some(DoctorView(rows[0], users[rows[0].userId], hospitals[rows[0].hospitalId]))
    }

    method CreateDoctor(ins: InsertDoctor, now: Timestamp) returns (r: Result<Doctor>)
      requires Valid()
      modifies this`doctors, this`nextDoctorId
      ensures Valid()
      ensures nextDoctorId == old(nextDoctorId) + 1
      ensures r.Ok? <==> ins.userId in users && ins.hospitalId in hospitals
      ensures r.Err? ==> r.error == ConstraintViolation && doctors == old(doctors)
      ensures r.Ok? ==> && r.value == NewDoctor(old(nextDoctorId), ins, now)
                        && r.value.id !in old(doctors)
                        && doctors == old(doctors)[r.value.id := r.value]
      ensures r.Ok? ==> GetDoctor(r.value.id) == Some(DoctorView(r.value, users[ins.userId], hospitals[ins.hospitalId]))
    {
      var id := nextDoctorId;
      nextDoctorId := nextDoctorId + 1;
      if ins.userId in users && ins.hospitalId in hospitals {
        var d := NewDoctor(id, ins, now);
        doctors := doctors[id := d];
        r := Ok(d);
      } else {
        r := Err(ConstraintViolation);
      }
    }

    function SearchDoctors(query: string): (r: seq<DoctorView>)
      reads this
      requires Valid()
      ensures forall d :: d in RowsOfDoctorViews(r) <==>
                Stored(doctors, DoctorKey, d) && DoctorMatches(d, users[d.userId], query)
      ensures Ascending(RowsOfDoctorViews(r), DoctorKey)
      ensures forall i :: 0 <= i < |r| ==> DoctorJoined(r[i]) && DoctorMatches(r[i].doctor, r[i].user, query)
      ensures forall i :: 0 <= i < |r| ==>
                r[i].user.id == r[i].doctor.userId && r[i].hospital.id == r[i].doctor.hospitalId
    {
      var um := users;
      JoinDoctors(Where(doctors, nextDoctorId, DoctorKey,
                        (d: Doctor) => d.userId in um && DoctorMatches(d, um[d.userId], query)),
                  users, hospitals)
    }

    /** Two joined listings over the same rows are the same listing. */
    lemma {:induction false} JoinedViewsEqual(a: seq<DoctorView>, b: seq<DoctorView>)
      requires RowsOfDoctorViews(a) == RowsOfDoctorViews(b)
      requires forall i :: 0 <= i < |a| ==> DoctorJoined(a[i])
      requires forall i :: 0 <= i < |b| ==> DoctorJoined(b[i])
      ensures a == b
    {
      assert |a| == |b|;
      forall i | 0 <= i < |a| ensures a[i] == b[i] {
        assert a[i].doctor == RowsOfDoctorViews(a)[i] == b[i].doctor;
      }
    }

    /** Every search result is listed by `AllDoctors`, and the empty search lists every doctor. */
    lemma SearchDoctorsWithinAll(query: string)
      requires Valid()
      ensures forall i :: 0 <= i < |SearchDoctors(query)| ==> SearchDoctors(query)[i] in AllDoctors()
      ensures SearchDoctors("") == AllDoctors()
    {
      var all := AllDoctors();
      forall i | 0 <= i < |SearchDoctors(query)| ensures SearchDoctors(query)[i] in all {
        var v := SearchDoctors(query)[i];
        assert v.doctor in RowsOfDoctorViews(SearchDoctors(query));
        assert v.doctor in RowsOfDoctorViews(all);
        var j :| 0 <= j < |all| && RowsOfDoctorViews(all)[j] == v.doctor;
        assert all[j] == v;
      }
      var found := SearchDoctors("");
      forall d ensures d in RowsOfDoctorViews(found) <==> d in RowsOfDoctorViews(all) {
        EmptyQueryMatches(d.specialty);
      }
      AscendingUnique(RowsOfDoctorViews(found), RowsOfDoctorViews(all), DoctorKey);
      JoinedViewsEqual(found, all);
    }

    // ------------------------------------------------------ appointments

    method CreateAppointment(ins: InsertAppointment, now: Timestamp) returns (r: Result<Appointment>)
      requires Valid()
      modifies this`appointments, this`nextAppointmentId
      ensures Valid()
      ensures nextAppointmentId == old(nextAppointmentId) + 1
      ensures r.Ok? <==> ins.patientId in users && ins.doctorId in doctors && ins.hospitalId in hospitals
      ensures r.Err? ==> r.error == ConstraintViolation && appointments == old(appointments)
      ensures r.Ok? ==> && r.value == NewAppointment(old(nextAppointmentId), ins, now)
                        && r.value.id !in old(appointments)
                        && appointments == old(appointments)[r.value.id := r.value]
      ensures r.Ok? ==> && r.value in DoctorAppointments(ins.doctorId)
                        && r.value in RowsOfAppointmentViews(PatientAppointments(ins.patientId))
    {
      var id := nextAppointmentId;
      nextAppointmentId := nextAppointmentId + 1;
      if ins.patientId in users && ins.doctorId in doctors && ins.hospitalId in hospitals {
        var a := NewAppointment(id, ins, now);
        appointments := appointments[id := a];
        r := Ok(a);
      } else {
        r := Err(ConstraintViolation);
      }
    }

    function PatientAppointments(patientId: Id): (r: seq<AppointmentView>)
      reads this
      requires Valid()
      ensures forall a :: a in RowsOfAppointmentViews(r) <==>
                Stored(appointments, AppointmentKey, a) && a.patientId == patientId
      ensures Ascending(RowsOfAppointmentViews(r), AppointmentKey)
      ensures forall i :: 0 <= i < |r| ==> AppointmentJoined(r[i])
      ensures forall i :: 0 <= i < |r| ==>
                && r[i].doctor.doctor.id == r[i].appointment.doctorId
                && r[i].doctor.user.id == r[i].doctor.doctor.userId
                && r[i].hospital.id == r[i].appointment.hospitalId
    {
      JoinAppointments(Where(appointments, nextAppointmentId, AppointmentKey,
                             (a: Appointment) => a.patientId == patientId),
                       doctors, users, hospitals)
    }

    function DoctorAppointments(doctorId: Id): (r: seq<Appointment>)
      reads this
      requires Valid()
      ensures forall a :: a in r <==> Stored(appointments, AppointmentKey, a) && a.doctorId == doctorId
      ensures Ascending(r, AppointmentKey)
    {
      Where(appointments, nextAppointmentId, AppointmentKey, (a: Appointment) => a.doctorId == doctorId)
    }

    /** A stored appointment is listed for its doctor. */
    lemma ListedForDoctor(a: Appointment)
      requires Valid() && Stored(appointments, AppointmentKey, a)
      ensures a in DoctorAppointments(a.doctorId)
    {
    }

    method UpdateAppointmentStatus(id: Id, status: string) returns (r: Option<Appointment>)
      requires Valid()
      modifies this`appointments
      ensures Valid()
      ensures r.Some? <==> id in old(appointments)
      ensures r.None? ==> appointments == old(appointments)
      ensures r.Some? ==> && r.value == old(appointments)[id].(status := status)
                          && appointments == old(appointments)[id := r.value]
      ensures r.Some? ==> r.value in DoctorAppointments(r.value.doctorId)
    {
      var rows := Where(appointments, nextAppointmentId, AppointmentKey, (a: Appointment) => a.id == id);
      assert id in appointments ==> appointments[id] in rows;
      if rows == [] {
        r := None;
      } else {
        var a := rows[0].(status := status);
        appointments := appointments[id := a];
        ListedForDoctor(a);
        r := Some(a);
      }
    }

    // --------------------------------------------------- medical records

    method CreateMedicalRecord(ins: InsertMedicalRecord, now: Timestamp) returns (r: Result<MedicalRecord>)
      requires Valid()
      modifies this`medicalRecords, this`nextRecordId
      ensures Valid()
      ensures nextRecordId == old(nextRecordId) + 1
      ensures r.Ok? <==> ins.patientId in users && ins.uploadedBy in users
      ensures r.Err? ==> r.error == ConstraintViolation && medicalRecords == old(medicalRecords)
      ensures r.Ok? ==> && r.value == NewMedicalRecord(old(nextRecordId), ins, now)
                        && r.value.id !in old(medicalRecords)
                        && medicalRecords == old(medicalRecords)[r.value.id := r.value]
      ensures r.Ok? ==> r.value in PatientRecords(ins.patientId)
    {
      var id := nextRecordId;
      nextRecordId := nextRecordId + 1;
      if ins.patientId in users && ins.uploadedBy in users {
        var m := NewMedicalRecord(id, ins, now);
        medicalRecords := medicalRecords[id := m];
        r := Ok(m);
      } else {
        r := Err(ConstraintViolation);
      }
    }

    function PatientRecords(patientId: Id): (r: seq<MedicalRecord>)
      reads this
      requires Valid()
      ensures forall m :: m in r <==> Stored(medicalRecords, RecordKey, m) && m.patientId == patientId
      ensures Ascending(r, RecordKey)
    {
      Where(medicalRecords, nextRecordId, RecordKey, (m: MedicalRecord) => m.patientId == patientId)
    }

    // ------------------------------------------------- patient transfers

    method CreateTransfer(ins: InsertPatientTransfer, now: Timestamp) returns (r: Result<PatientTransfer>)
      requires Valid()
      modifies this`patientTransfers, this`nextTransferId
      ensures Valid()
      ensures nextTransferId == old(nextTransferId) + 1
      ensures r.Ok? <==> ins.patientId in users && ins.fromHospitalId in hospitals && ins.toHospitalId in hospitals
      ensures r.Err? ==> r.error == ConstraintViolation && patientTransfers == old(patientTransfers)
      ensures r.Ok? ==> && r.value == NewTransfer(old(nextTransferId), ins, now)
                        && r.value.id !in old(patientTransfers)
                        && patientTransfers == old(patientTransfers)[r.value.id := r.value]
    {
      var id := nextTransferId;
      nextTransferId := nextTransferId + 1;
      if ins.patientId in users && ins.fromHospitalId in hospitals && ins.toHospitalId in hospitals {
        var t := NewTransfer(id, ins, now);
        patientTransfers := patientTransfers[id := t];
        r := Ok(t);
      } else {
        r := Err(ConstraintViolation);
      }
    }

    /**
     * The patient's transfers joined with their source hospital, then one
     * further lookup per row for the destination hospital.
     */
    method GetPatientTransfers(patientId: Id) returns (r: seq<TransferView>)
      requires Valid()
      ensures forall t :: t in RowsOfTransferViews(r) <==>
                Stored(patientTransfers, TransferKey, t) && t.patientId == patientId
      ensures Ascending(RowsOfTransferViews(r), TransferKey)
      ensures forall i :: 0 <= i < |r| ==> TransferJoined(r[i])
      ensures forall i :: 0 <= i < |r| ==>
                r[i].fromHospital.id == r[i].transfer.fromHospitalId && r[i].toHospital.id == r[i].transfer.toHospitalId
    {
      var rows := Where(patientTransfers, nextTransferId, TransferKey,
                        (t: PatientTransfer) => t.patientId == patientId);
      r := [];
      var i := 0;
      while i < |rows|
        invariant 0 <= i <= |rows|
        invariant RowsOfTransferViews(r) == rows[..i]
        invariant forall j :: 0 <= j < i ==> TransferJoined(r[j])
      {
        var t := rows[i];
        var toHospital := GetHospital(t.toHospitalId);
        r := r + [TransferView(t, hospitals[t.fromHospitalId], toHospital.value)];
        i := i + 1;
      }
      assert rows[..i] == rows;
    }
  }
}

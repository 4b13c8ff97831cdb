/**
 * End-to-end runs over a fresh store: two hospitals, a doctor's user and a
 * patient, the doctor at the first hospital; the patient logs in, books an
 * appointment and lists it; then a transfer between the two hospitals is
 * requested and listed.
 */
module Scenarios {
  import opened Schema
  import opened Tables
  import opened Storage
  import opened Routes

  function SampleHospital(name: string, region: string): InsertHospital {
    InsertHospital(name, "Yaounde", region, None, ["Cardiology"], Omitted, None, None, None)
  }

  function SampleUser(nationalId: string, email: string, password: string, role: string): InsertUser {
    InsertUser(nationalId, email, password, "Sample", None, None, None, None, Given(role), None)
  }

  /** The stand-in for bcrypt: a stored hash is the password behind a fixed prefix. */
  function Digest(password: string): string {
    "bcrypt:" + password
  }

  predicate DigestMatches(password: string, hash: string) {
    hash == Digest(password)
  }

  /** A store holding hospitals H1 and H2 only. */
  method SetupHospitals(now: Timestamp) returns (store: DatabaseStorage, h1: Hospital, h2: Hospital)
    ensures fresh(store) && store.Valid()
    ensures store.hospitals == map[h1.id := h1, h2.id := h2] && h1.id != h2.id
    ensures store.users == map[] && store.doctors == map[]
    ensures store.appointments == map[] && store.patientTransfers == map[]
  {
    store := new DatabaseStorage();
    h1 := store.CreateHospital(SampleHospital("Central", "Centre"), now);
    h2 := store.CreateHospital(SampleHospital("General", "Littoral"), now);
  }

  /** A store holding hospitals H1 and H2, and users U1 (a doctor) and P1 (a patient). */
  method SetupPeople(now: Timestamp) returns (store: DatabaseStorage, h1: Hospital, h2: Hospital, u1: User, p1: User)
    ensures fresh(store) && store.Valid()
    ensures store.hospitals == map[h1.id := h1, h2.id := h2] && h1.id != h2.id
    ensures store.users == map[u1.id := u1, p1.id := p1] && u1.id != p1.id
    ensures store.doctors == map[] && store.appointments == map[] && store.patientTransfers == map[]
    ensures p1.nationalId == "P-0001" && p1.email == "p1@example.org" && p1.password == Digest("secret")
    ensures p1.role == "patient" && u1.role == "doctor"
  {
    store, h1, h2 := SetupHospitals(now);
    var ru := store.CreateUser(SampleUser("D-0001", "u1@example.org", Digest("doctor"), "doctor"), now);
    u1 := ru.value;
    assert store.users == map[u1.id := u1];
    var rp := store.CreateUser(SampleUser("P-0001", "p1@example.org", Digest("secret"), "patient"), now);
    p1 := rp.value;
  }

  /** The same store with doctor D1, for U1, at H1. */
  method Setup(now: Timestamp)
    returns (store: DatabaseStorage, h1: Hospital, h2: Hospital, u1: User, p1: User, d1: Doctor)
    ensures fresh(store) && store.Valid()
    ensures store.hospitals == map[h1.id := h1, h2.id := h2] && h1.id != h2.id
    ensures store.users == map[u1.id := u1, p1.id := p1] && u1.id != p1.id
    ensures store.doctors == map[d1.id := d1]
    ensures store.appointments == map[] && store.patientTransfers == map[]
    ensures p1.nationalId == "P-0001" && p1.email == "p1@example.org" && p1.password == Digest("secret")
    ensures p1.role == "patient" && u1.role == "doctor"
    ensures d1.userId == u1.id && d1.hospitalId == h1.id
  {
    store, h1, h2, u1, p1 := SetupPeople(now);
    var rd := store.CreateDoctor(InsertDoctor(u1.id, h1.id, "Cardiology", "10 years", Omitted, None, None, None), now);
    d1 := rd.value;
  }

  /** Logging in with P1's national id and password puts P1 in a fresh session. */
  method SignIn(store: DatabaseStorage, p1: User) returns (session: Session)
    requires store.Valid()
    requires Stored(store.users, UserKey, p1) && p1.nationalId == "P-0001" && p1.password == Digest("secret")
    ensures fresh(session) && session.userId == Some(p1.id) && session.LoggedIn()
  {
    session := new Session();
    assert Accepts(store.users, "P-0001", "secret", DigestMatches, p1.id);
    var login := PostLogin(store, session, "P-0001", "secret", DigestMatches);
    AcceptsUnique(store.users, "P-0001", "secret", DigestMatches, session.userId.value, p1.id);
  }

  /**
   * The patient logs in by national id and books with D1 at H1; the body
   * names U1 as the patient, which the handler overrides with the session's
   * user.
   */
  method Book(now: Timestamp)
    returns (store: DatabaseStorage, session: Session, a1: Appointment, u1: User, d1: Doctor, p1: User)
    ensures fresh(store) && store.Valid()
    ensures session.LoggedIn() && session.userId == Some(p1.id)
    ensures store.appointments == map[a1.id := a1]
    ensures a1.patientId == p1.id && a1.doctorId == d1.id && a1.hospitalId == d1.hospitalId
    ensures a1.status == DefaultStatus && a1.videoLink == Some(VideoLinkPrefix + "x7k2")
    ensures Stored(store.doctors, DoctorKey, d1) && Stored(store.users, UserKey, u1)
    ensures d1.userId == u1.id && u1.role == "doctor"
  {
    var h1, h2;
    store, h1, h2, u1, p1, d1 := Setup(now);
    session := SignIn(store, p1);
    var booking := InsertAppointment(u1.id, d1.id, h1.id, "2026-11-02", "09:30", Omitted, "video",
                                     None, None, None, None);
    var created := PostAppointment(store, session, Some(booking), "x7k2", now);
    a1 := created.body.appointment;
  }

  /** The patient's listing is exactly A1, joined with D1, U1 and H1. */
  method BookingScenario(now: Timestamp) returns (a1: Appointment, listing: seq<AppointmentView>)
    ensures a1.status == DefaultStatus && a1.videoLink == Some(VideoLinkPrefix + "x7k2")
    ensures |listing| == 1 && listing[0].appointment == a1
    ensures listing[0].doctor.doctor.id == a1.doctorId && listing[0].hospital.id == a1.hospitalId
    ensures listing[0].doctor.user.id == listing[0].doctor.doctor.userId
    ensures listing[0].doctor.user.role == "doctor"
  {
    var store, session, u1, d1, p1;
    store, session, a1, u1, d1, p1 := Book(now);
    var resp := GetPatientAppointments(store, session, p1.id);
    listing := resp.body.appointmentViews;
    AscendingSingleton(RowsOfAppointmentViews(listing), a1, AppointmentKey);
    assert RowsOfAppointmentViews(listing)[0] == a1;
    assert store.AppointmentJoined(listing[0]);
    assert listing[0].doctor.doctor == d1 && listing[0].doctor.user == u1;
  }

  /** A transfer T1 of P1 from H1 to H2 is listed alone, with both hospitals resolved. */
  method TransferScenario(now: Timestamp) returns (t1: PatientTransfer, listing: seq<TransferView>)
    ensures t1.status == DefaultStatus && t1.completedAt == None && t1.requestedAt == now
    ensures t1.fromHospitalId != t1.toHospitalId
    ensures |listing| == 1 && listing[0].transfer == t1
    ensures listing[0].fromHospital.id == t1.fromHospitalId && listing[0].toHospital.id == t1.toHospitalId
  {
    var store, h1, h2, u1, p1, d1 := Setup(now);
    var created := PostTransfer(store, Some(InsertPatientTransfer(p1.id, h1.id, h2.id, Omitted, None, None)), now);
    t1 := created.body.transfer;
    var resp := GetPatientTransfers(store, p1.id);
    listing := resp.body.transferViews;
    assert store.patientTransfers == map[t1.id := t1];
    AscendingSingleton(RowsOfTransferViews(listing), t1, TransferKey);
    assert RowsOfTransferViews(listing)[0] == t1;
  }
}

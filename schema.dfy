/**
 * The six tables of the portal's relational schema: one row datatype per
 * table, one insert shape per table (the row without the columns the store
 * fills in itself), and the constructors that turn an insert shape into the
 * row the store keeps, applying the column defaults.
 */
module Schema {

  /** Primary and foreign keys: the store's serial integers. */
  type Id = int

  /** A `defaultNow()` timestamp, kept opaque. */
  type Timestamp = int

  /** A `jsonb` column, kept as its serialised text. */
  type Json = string

  /** A nullable column: `None` is SQL NULL. */
  datatype Option<+T> = None | Some(value: T)

  /**
   * A key of a request object that the caller may leave out. Distinct from
   * `Option`: for a nullable column with a default, leaving the key out
   * selects the default while giving `null` stores NULL.
   */
  datatype Field<+T> = Omitted | Given(value: T) {
    function Or(fallback: T): (r: T)
      ensures Given? ==> r == value
      ensures Omitted? ==> r == fallback
    {
      if Given? then value else fallback
    }
  }

  const DefaultRole := "patient"
  const DefaultStatus := "pending"
  const DefaultRating := "4.5"

  // ---------------------------------------------------------------- users

  datatype User = User(
    id: Id,
    nationalId: string,
    email: string,
    password: string,
    name: string,
    phone: Option<string>,
    bloodType: Option<string>,
    dateOfBirth: Option<string>,
    gender: Option<string>,
    role: string,
    avatar: Option<string>,
    createdAt: Timestamp)

  datatype InsertUser = InsertUser(
    nationalId: string,
    email: string,
    password: string,
    name: string,
    phone: Option<string>,
    bloodType: Option<string>,
    dateOfBirth: Option<string>,
    gender: Option<string>,
    role: Field<string>,
    avatar: Option<string>)

  /** The insert shape that describes an existing row exactly. */
  function UserInsert(u: User): InsertUser {
    InsertUser(u.nationalId, u.email, u.password, u.name, u.phone, u.bloodType,
               u.dateOfBirth, u.gender, Given(u.role), u.avatar)
  }

  /** The row the store keeps for `ins` under the serial `id` at time `now`. */
  function NewUser(id: Id, ins: InsertUser, now: Timestamp): (u: User)
    ensures u.id == id && u.createdAt == now
    ensures u.role == ins.role.Or(DefaultRole)
    ensures UserInsert(u) == ins.(role := Given(u.role))
  {
    User(id, ins.nationalId, ins.email, ins.password, ins.name, ins.phone,
         ins.bloodType, ins.dateOfBirth, ins.gender, ins.role.Or(DefaultRole),
         ins.avatar, now)
  }

  lemma NewUserRoundTrip(u: User)
    ensures NewUser(u.id, UserInsert(u), u.createdAt) == u
  {
  }

  // ------------------------------------------------------------ hospitals

  datatype Hospital = Hospital(
    id: Id,
    name: string,
    location: string,
    region: string,
    image: Option<string>,
    specialties: seq<string>,
    rating: Option<string>,
    description: Option<string>,
    contactPhone: Option<string>,
    contactEmail: Option<string>,
    createdAt: Timestamp)

  datatype InsertHospital = InsertHospital(
    name: string,
    location: string,
    region: string,
    image: Option<string>,
    specialties: seq<string>,
    rating: Field<Option<string>>,
    description: Option<string>,
    contactPhone: Option<string>,
    contactEmail: Option<string>)

  function HospitalInsert(h: Hospital): InsertHospital {
    InsertHospital(h.name, h.location, h.region, h.image, h.specialties,
                   Given(h.rating), h.description, h.contactPhone, h.contactEmail)
  }

  function NewHospital(id: Id, ins: InsertHospital, now: Timestamp): (h: Hospital)
    ensures h.id == id && h.createdAt == now
    ensures ins.rating.Omitted? ==> h.rating == Some(DefaultRating)
    ensures ins.rating.Given? ==> h.rating == ins.rating.value
    ensures HospitalInsert(h) == ins.(rating := Given(h.rating))
  {
    Hospital(id, ins.name, ins.location, ins.region, ins.image, ins.specialties,
             ins.rating.Or(Some(DefaultRating)), ins.description, ins.contactPhone,
             ins.contactEmail, now)
  }

  // -------------------------------------------------------------- doctors

  datatype Doctor = Doctor(
    id: Id,
    userId: Id,
    hospitalId: Id,
    specialty: string,
    experience: string,
    rating: Option<string>,
    licenseNumber: Option<string>,
    bio: Option<string>,
    availableSlots: Option<Json>,
    createdAt: Timestamp)

  datatype InsertDoctor = InsertDoctor(
    userId: Id,
    hospitalId: Id,
    specialty: string,
    experience: string,
    rating: Field<Option<string>>,
    licenseNumber: Option<string>,
    bio: Option<string>,
    availableSlots: Option<Json>)

  function DoctorInsert(d: Doctor): InsertDoctor {
    InsertDoctor(d.userId, d.hospitalId, d.specialty, d.experience, Given(d.rating),
                 d.licenseNumber, d.bio, d.availableSlots)
  }

  function NewDoctor(id: Id, ins: InsertDoctor, now: Timestamp): (d: Doctor)
    ensures d.id == id && d.createdAt == now
    ensures ins.rating.Omitted? ==> d.rating == Some(DefaultRating)
    ensures ins.rating.Given? ==> d.rating == ins.rating.value
    ensures DoctorInsert(d) == ins.(rating := Given(d.rating))
  {
    Doctor(id, ins.userId, ins.hospitalId, ins.specialty, ins.experience,
           ins.rating.Or(Some(DefaultRating)), ins.licenseNumber, ins.bio,
           ins.availableSlots, now)
  }

  // --------------------------------------------------------- appointments

  /** `kind` is the column `type` ("video", "in-person", ...). */
  datatype Appointment = Appointment(
    id: Id,
    patientId: Id,
    doctorId: Id,
    hospitalId: Id,
    date: string,
    time: string,
    status: string,
    kind: string,
    reason: Option<string>,
    notes: Option<string>,
    attachments: Option<seq<string>>,
    videoLink: Option<string>,
    createdAt: Timestamp)

  datatype InsertAppointment = InsertAppointment(
    patientId: Id,
    doctorId: Id,
    hospitalId: Id,
    date: string,
    time: string,
    status: Field<string>,
    kind: string,
    reason: Option<string>,
    notes: Option<string>,
    attachments: Option<seq<string>>,
    videoLink: Option<string>)

  function AppointmentInsert(a: Appointment): InsertAppointment {
    InsertAppointment(a.patientId, a.doctorId, a.hospitalId, a.date, a.time,
                      Given(a.status), a.kind, a.reason, a.notes, a.attachments,
                      a.videoLink)
  }

  function NewAppointment(id: Id, ins: InsertAppointment, now: Timestamp): (a: Appointment)
    ensures a.id == id && a.createdAt == now
    ensures a.status == ins.status.Or(DefaultStatus)
    ensures AppointmentInsert(a) == ins.(status := Given(a.status))
  {
    Appointment(id, ins.patientId, ins.doctorId, ins.hospitalId, ins.date, ins.time,
                ins.status.Or(DefaultStatus), ins.kind, ins.reason, ins.notes,
                ins.attachments, ins.videoLink, now)
  }

  // ------------------------------------------------------ medical records

  datatype MedicalRecord = MedicalRecord(
    id: Id,
    patientId: Id,
    uploadedBy: Id,
    title: string,
    description: Option<string>,
    fileUrl: string,
    fileType: string,
    category: Option<string>,
    createdAt: Timestamp)

  datatype InsertMedicalRecord = InsertMedicalRecord(
    patientId: Id,
    uploadedBy: Id,
    title: string,
    description: Option<string>,
    fileUrl: string,
    fileType: string,
    category: Option<string>)

  function MedicalRecordInsert(m: MedicalRecord): InsertMedicalRecord {
    InsertMedicalRecord(m.patientId, m.uploadedBy, m.title, m.description,
                        m.fileUrl, m.fileType, m.category)
  }

  function NewMedicalRecord(id: Id, ins: InsertMedicalRecord, now: Timestamp): (m: MedicalRecord)
    ensures m.id == id && m.createdAt == now
    ensures MedicalRecordInsert(m) == ins
  {
    MedicalRecord(id, ins.patientId, ins.uploadedBy, ins.title, ins.description,
                  ins.fileUrl, ins.fileType, ins.category, now)
  }

  // ---------------------------------------------------- patient transfers

  datatype PatientTransfer = PatientTransfer(
    id: Id,
    patientId: Id,
    fromHospitalId: Id,
    toHospitalId: Id,
    status: string,
    recordIds: Option<seq<Id>>,
    notes: Option<string>,
    requestedAt: Timestamp,
    completedAt: Option<Timestamp>)

  /** Omits `id`, `requestedAt` and `completedAt`; the table has no `createdAt`. */
  datatype InsertPatientTransfer = InsertPatientTransfer(
    patientId: Id,
    fromHospitalId: Id,
    toHospitalId: Id,
    status: Field<string>,
    recordIds: Option<seq<Id>>,
    notes: Option<string>)

  function TransferInsert(t: PatientTransfer): InsertPatientTransfer {
    InsertPatientTransfer(t.patientId, t.fromHospitalId, t.toHospitalId,
                          Given(t.status), t.recordIds, t.notes)
  }

  function NewTransfer(id: Id, ins: InsertPatientTransfer, now: Timestamp): (t: PatientTransfer)
    ensures t.id == id && t.requestedAt == now
    ensures t.completedAt == None
    ensures t.status == ins.status.Or(DefaultStatus)
    ensures TransferInsert(t) == ins.(status := Given(t.status))
  {
    PatientTransfer(id, ins.patientId, ins.fromHospitalId, ins.toHospitalId,
                    ins.status.Or(DefaultStatus), ins.recordIds, ins.notes, now, None)
  }
}

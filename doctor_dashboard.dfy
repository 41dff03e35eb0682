/** The doctor's dashboard: the patients it lists are the distinct senders of the
    messages addressed to the doctor, in first-occurrence order, each turned into a
    placeholder record; two sublists are picked from them by index alone. */
module DoctorDashboard {
  import opened Wrappers
  import opened Seqs
  import opened SocketContext

  /** The record built for each sender id. `createdAt` is `new Date().toISOString()`. */
  datatype Patient = Patient(id: string, username: string, email: string, role: string, name: string, createdAt: string)

  function AddressedTo(me: string): Message -> bool
  {
    (m: Message) => m.receiverId == me
  }

  /** `incomingMessages.map(msg => msg.senderId)`. */
  function Senders(messages: seq<Message>): (r: seq<string>)
    ensures |r| == |messages|
    ensures forall i :: 0 <= i < |messages| ==> r[i] == messages[i].senderId
  {
    if messages == [] then [] else Senders(messages[..|messages| - 1]) + [messages[|messages| - 1].senderId]
  }

  /** The senders of the messages addressed to `me`, in log order, repeats included. */
  function IncomingSenders(messages: seq<Message>, me: string): seq<string>
  {
    Senders(Filter(messages, AddressedTo(me)))
  }

  /** The ids of the `patients` list: none without a signed-in user. */
  function PatientIds(user: Option<string>, messages: seq<Message>): seq<string>
  {
    match user
    case None => []
    case Some(me) => Distinct(IncomingSenders(messages, me))
  }

  /** `id.substring(0, 5)`: the first five characters, or the whole id if it is shorter. */
  function ShortId(id: string): (p: string)
    ensures |p| == if |id| < 5 then |id| else 5
    ensures p <= id
  {
    if |id| < 5 then id else id[..5]
  }

  function PatientRecord(id: string, createdAt: string): Patient
  {
    var p := ShortId(id);
    Patient(id, "patient_" + p, "patient_" + p + "@example.com", "patient", "Patient " + p, createdAt)
  }

  /** `patients`: one record per patient id, in the same order. */
  function Patients(user: Option<string>, messages: seq<Message>, createdAt: string): seq<Patient>
  {
    var ids := PatientIds(user, messages);
    seq(|ids|, i requires 0 <= i < |ids| => PatientRecord(ids[i], createdAt))
  }

  const IsUrgentIndex: nat -> bool := i => i % 3 == 0
  const IsNewIndex: nat -> bool := i => i % 2 == 0 && i % 3 != 0

  /** `urgentPatients`: every third patient, starting with the first. */
  function UrgentPatients(patients: seq<Patient>): seq<Patient>
  {
    FilterByIndex(patients, IsUrgentIndex)
  }

  /** `newPatients`: the patients at even indices that are not multiples of three. */
  function NewPatients(patients: seq<Patient>): seq<Patient>
  {
    FilterByIndex(patients, IsNewIndex)
  }

  /** With no signed-in user the list is empty. */
  lemma NoUserNoPatients(messages: seq<Message>, createdAt: string)
    ensures Patients(None, messages, createdAt) == []
  {
  }

  /** The patient ids are exactly the senders of messages addressed to the doctor. */
  lemma PatientIdsAreSenders(me: string, messages: seq<Message>, p: string)
    ensures p in PatientIds(Some(me), messages) <==>
      exists i :: 0 <= i < |messages| && messages[i].receiverId == me && messages[i].senderId == p
  {
    var incoming := Filter(messages, AddressedTo(me));
    var senders := IncomingSenders(messages, me);
    if p in PatientIds(Some(me), messages) {
      var j :| 0 <= j < |senders| && senders[j] == p;
      var m := incoming[j];
      assert m in messages;
      var i :| 0 <= i < |messages| && messages[i] == m;
    }
    if i :| 0 <= i < |messages| && messages[i].receiverId == me && messages[i].senderId == p {
      assert AddressedTo(me)(messages[i]);
      var j :| 0 <= j < |incoming| && incoming[j] == messages[i];
      assert senders[j] == p;
    }
  }

  /** Each patient id is listed once, in the order in which its sender first wrote to the doctor. */
  lemma PatientIdsInFirstOccurrenceOrder(me: string, messages: seq<Message>)
    ensures NoDup(PatientIds(Some(me), messages))
    ensures var ids, senders := PatientIds(Some(me), messages), IncomingSenders(messages, me);
      forall i, j :: 0 <= i < j < |ids| ==> FirstIndex(senders, ids[i]) < FirstIndex(senders, ids[j])
  {
    DistinctFirstOccurrence(IncomingSenders(messages, me));
  }

  /** One record per patient id, in id order; each is a patient whose names are built from
      `ShortId` of its id. */
  lemma PatientRecordsShape(user: Option<string>, messages: seq<Message>, createdAt: string)
    ensures var patients := Patients(user, messages, createdAt);
      && |patients| == |PatientIds(user, messages)|
      && forall i :: 0 <= i < |patients| ==>
        && patients[i].id == PatientIds(user, messages)[i]
        && patients[i].role == "patient"
        && patients[i].name == "Patient " + ShortId(patients[i].id)
        && patients[i].username == "patient_" + ShortId(patients[i].id)
        && patients[i].email == "patient_" + ShortId(patients[i].id) + "@example.com"
        && patients[i].createdAt == createdAt
  {
  }

  /** Distinct ids give distinct records. */
  lemma PatientsDistinct(user: Option<string>, messages: seq<Message>, createdAt: string)
    ensures NoDup(Patients(user, messages, createdAt))
  {
    if user.Some? {
      PatientIdsInFirstOccurrenceOrder(user.value, messages);
    }
  }

  /** `urgentPatients` holds exactly the patients at indices `i` with `i % 3 == 0`, in order. */
  lemma UrgentPatientsExact(patients: seq<Patient>)
    ensures PicksFrom(UrgentPatients(patients), patients, KeptIndices(|patients|, IsUrgentIndex))
    ensures forall i: nat :: i in KeptIndices(|patients|, IsUrgentIndex) <==> i < |patients| && i % 3 == 0
  {
    FilterByIndexPicks(patients, IsUrgentIndex);
    KeptIndicesMembers(|patients|, IsUrgentIndex);
  }

  /** `newPatients` holds exactly the patients at indices `i` with `i % 2 == 0 && i % 3 != 0`, in order. */
  lemma NewPatientsExact(patients: seq<Patient>)
    ensures PicksFrom(NewPatients(patients), patients, KeptIndices(|patients|, IsNewIndex))
    ensures forall i: nat :: i in KeptIndices(|patients|, IsNewIndex) <==>
      i < |patients| && i % 2 == 0 && i % 3 != 0
  {
    FilterByIndexPicks(patients, IsNewIndex);
    KeptIndicesMembers(|patients|, IsNewIndex);
  }

  /** Both sublists are subsequences of the list, and, the patients being distinct, share no patient. */
  lemma UrgentAndNewDisjoint(user: Option<string>, messages: seq<Message>, createdAt: string)
    ensures var patients := Patients(user, messages, createdAt);
      && IsSubseq(UrgentPatients(patients), patients)
      && IsSubseq(NewPatients(patients), patients)
      && forall x :: x in UrgentPatients(patients) ==> x !in NewPatients(patients)
  {
    var patients := Patients(user, messages, createdAt);
    PatientsDistinct(user, messages, createdAt);
    UrgentPatientsExact(patients);
    NewPatientsExact(patients);
    forall x | x in UrgentPatients(patients) ensures x !in NewPatients(patients) {
      FilterByIndexMembers(patients, IsUrgentIndex, x);
      FilterByIndexMembers(patients, IsNewIndex, x);
    }
  }

  /** A log in which the doctor sent every message, as the provider's own log always is,
      yields no patient other than the doctor themself. */
  lemma OwnLogListsNoOtherPatient(me: string, messages: seq<Message>)
    requires forall i :: 0 <= i < |messages| ==> messages[i].senderId == me
    ensures forall p :: p in PatientIds(Some(me), messages) ==> p == me
  {
    forall p | p in PatientIds(Some(me), messages) ensures p == me {
      PatientIdsAreSenders(me, messages, p);
    }
  }
}

/**
 * The patient store shared by the patient-data page and the weaning tool page.
 *
 * Stored patients are a dictionary from patient ID to a record. The record keys the
 * pages use are `name`, `age`, `diagnose` and `verlauf` (the measurement history);
 * a stored record may lack any of them, and may hold further keys, which every
 * operation carries along untouched. Reading and writing the JSON file is not
 * modelled: the store is the dictionary itself.
 */
module Patients {
  import opened Wrappers
  import opened WeaningScore

  /** A JSON value, for record keys the pages do not interpret. */
  datatype Json =
    | Null
    | Bool(b: bool)
    | Number(n: real)
    | Text(s: string)
    | Array(items: seq<Json>)
    | Object(fields: map<string, Json>)

  /** One saved measurement: its time stamp, the fourteen inputs and the success score. */
  datatype Entry = Entry(timestamp: string, measurement: Measurement, score: real)

  datatype Patient = Patient(
    name: Option<string>,
    age: Option<int>,
    diagnose: Option<string>,
    verlauf: Option<seq<Entry>>,
    others: map<string, Json>     // any further keys of the stored record
  )

  /** One line of the overview table; a missing age is shown as an empty cell. */
  datatype Row = Row(id: string, name: string, age: Option<int>, diagnose: string, measurements: nat)

  /** `patient.get("verlauf", [])`. */
  function History(p: Patient): seq<Entry> {
    p.verlauf.GetOr([])
  }

  /** The record a first save creates. */
  function NewPatient(name: string, age: int, diagnose: string): (p: Patient)
    ensures p.name == Some(name) && p.age == Some(age) && p.diagnose == Some(diagnose)
    ensures p.verlauf == Some([]) && p.others == map[]
  {
    Patient(Some(name), Some(age), Some(diagnose), Some([]), map[])
  }

  /** The patient-save rule on the dictionary: create, or overwrite the three details. */
  function Upsert(patients: map<string, Patient>, id: string, name: string, age: int, diagnose: string)
    : (r: map<string, Patient>)
    ensures r.Keys == patients.Keys + {id}
    ensures forall k :: k in patients && k != id ==> r[k] == patients[k]
    ensures r[id].name == Some(name) && r[id].age == Some(age) && r[id].diagnose == Some(diagnose)
    ensures id !in patients ==> r[id].verlauf == Some([]) && r[id].others == map[]
    ensures id in patients ==>
      r[id].verlauf == patients[id].verlauf && r[id].others == patients[id].others
  {
    if id !in patients then
      patients[id := NewPatient(name, age, diagnose)]
    else
      patients[id := patients[id].(name := Some(name), age := Some(age), diagnose := Some(diagnose))]
  }

  /** The patient with one more history entry at the end. */
  function WithEntry(p: Patient, e: Entry): (q: Patient)
    ensures History(q) == History(p) + [e]
    ensures q.name == p.name && q.age == p.age && q.diagnose == p.diagnose && q.others == p.others
  {
    p.(verlauf := Some(History(p) + [e]))
  }

  /** The "Anzahl Messungen" column: the history length, 0 without a history. */
  function MeasurementCount(p: Patient): (n: nat)
    ensures p.verlauf.None? ==> n == 0
    ensures p.verlauf.Some? ==> n == |p.verlauf.value|
  {
    |History(p)|
  }

  function OverviewRow(id: string, p: Patient): Row {
    Row(id, p.name.GetOr(""), p.age, p.diagnose.GetOr(""), MeasurementCount(p))
  }

  /** The overview table: one row per stored patient, keyed by patient ID. */
  function Overview(patients: map<string, Patient>): (rows: map<string, Row>)
    ensures rows.Keys == patients.Keys
    ensures forall id :: id in rows ==> rows[id].id == id
    ensures forall id :: id in rows ==> rows[id].measurements == |History(patients[id])|
  {
    map id | id in patients :: OverviewRow(id, patients[id])
  }

  /** Saving a measurement adds one to the patient's count in the overview. */
  lemma WithEntryCount(patients: map<string, Patient>, id: string, e: Entry)
    requires id in patients
    ensures var after := Overview(patients[id := WithEntry(patients[id], e)]);
      after.Keys == patients.Keys && after[id].measurements == MeasurementCount(patients[id]) + 1
  {
  }

  /** Re-saving an existing patient keeps its count; saving a new one shows 0. */
  lemma UpsertCount(patients: map<string, Patient>, id: string, name: string, age: int, diagnose: string)
    ensures var after := Overview(Upsert(patients, id, name, age, diagnose));
      after[id].measurements == if id in patients then MeasurementCount(patients[id]) else 0
  {
  }

  /** Deleting a patient that a first save created restores the store. */
  lemma UpsertThenDelete(patients: map<string, Patient>, id: string, name: string, age: int, diagnose: string)
    requires id !in patients
    ensures Upsert(patients, id, name, age, diagnose) - {id} == patients
  {
  }

  /** The dictionary of stored patients, changed in place by the page actions. */
  class PatientStore {
    var patients: map<string, Patient>

    constructor (loaded: map<string, Patient>)
      ensures patients == loaded
    {
      patients := loaded;
    }

    /** "Patient speichern": only the empty ID is refused; whitespace IDs are accepted. */
    method SavePatient(id: string, name: string, age: int, diagnose: string) returns (saved: bool)
      modifies this
      ensures saved == (id != "")
      ensures patients == if saved then Upsert(old(patients), id, name, age, diagnose) else old(patients)
    {
      if id == "" {
        return false;
      }
      if id !in patients {
        patients := patients[id := NewPatient(name, age, diagnose)];
      } else {
        var p := patients[id];
        p := p.(name := Some(name));
        p := p.(age := Some(age));
        p := p.(diagnose := Some(diagnose));
        patients := patients[id := p];
      }
      return true;
    }

    /** "Ausgewählten Patienten löschen": `patients.pop(id, None)`. */
    method DeletePatient(id: string)
      modifies this
      ensures patients == old(patients) - {id}
    {
      if id in patients {
        patients := patients - {id};
      }
    }

    /** The weaning tool's "berechnen & speichern": score `m`, append it to the history. */
    method SaveMeasurement(id: string, timestamp: string, m: Measurement) returns (r: ScoreResult)
      requires id in patients
      modifies this
      ensures r == Score(m)
      ensures patients == old(patients)[id := WithEntry(old(patients)[id], Entry(timestamp, m, r.success))]
    {
      r := Score(m);
      var patient := patients[id];
      var verlauf := History(patient);
      verlauf := verlauf + [Entry(timestamp, m, r.success)];
      patient := patient.(verlauf := Some(verlauf));
      patients := patients[id := patient];
    }
  }
}

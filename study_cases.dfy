/**
 * The 30CERW study data-entry form: a pseudonymised case is stored in the dictionary
 * of cases under its stripped study ID, replacing any earlier case with that ID.
 * Reading and writing the JSON file is not modelled: the store is the dictionary.
 */
module StudyCases {
  import opened PyStr

  // The form's drop-down lists; the first choice "-" of each is the unset value.
  datatype Sex = SexUnset | Female | Male | Diverse
  datatype YesNo = Unanswered | Yes | No
  datatype CprDuration = CprDurationUnset | Under30Min | Over30Min
  datatype VentDuration = VentDurationUnset | Under7Days | Over7Days
  datatype MainDiagnosis = DiagnosisUnset | CardiogenicShock | PostcardiotomyShock | MixedShock
  datatype Cause =
    | CauseUnset | MyocardialInfarction | DilatedCardiomyopathy | AcuteHeartFailure
    | Myocarditis | PostOperative | OtherCause

  /** Every field of a case except the study ID and the centre, stored as entered. */
  datatype CaseDetails = CaseDetails(
    implantationDate: string,       // ISO date of the VA implantation
    sex: Sex,
    age: int,
    heightCm: int,
    weightKg: real,
    bmi: real,
    cprBeforeEcmo: YesNo,
    cprDuration: CprDuration,
    ecpr: YesNo,
    ventilatedBeforeEcmo: YesNo,
    ventilationDuration: VentDuration,
    icuDaysBeforeEcmo: int,
    mainDiagnosis: MainDiagnosis,
    cause: Cause,
    otherCauseText: string,
    copd: YesNo,
    chronicKidneyDisease: YesNo,
    coronaryArteryDisease: YesNo,
    cardiomyopathy: YesNo,
    liverDisease: YesNo,
    diabetes: YesNo,
    cerebrovascularDisease: YesNo,
    otherComorbidities: string,
    ph: real,
    lactate: real,
    baseExcess: real,
    creatinine: real,
    bilirubin: real,
    pao2: real,
    mapMmHg: int,
    vasopressorRequired: YesNo,
    noradrenalineEquivalent: real,
    ventilatedNow: YesNo,
    survival30Days: YesNo,
    weaningSuccessful: YesNo,
    explantationDate: string,       // ISO date of the ECMO explantation
    weaningDefinition: string
  )

  /** What the form holds when "Fall speichern" is pressed. */
  datatype CaseForm = CaseForm(studyId: string, center: string, details: CaseDetails)

  /** A stored case: `Studien_ID`, `Zentrum` and the rest of the form. */
  datatype Case = Case(studienId: string, zentrum: string, details: CaseDetails)

  /** The stored record: study ID and centre stripped, everything else as entered. */
  function BuildCase(form: CaseForm): (c: Case)
    ensures c.studienId == Strip(form.studyId) && c.zentrum == Strip(form.center)
    ensures c.details == form.details
  {
    Case(Strip(form.studyId), Strip(form.center), form.details)
  }

  /** The dictionary after saving `form`, or unchanged when its study ID is blank. */
  function SaveCase(cases: map<string, Case>, form: CaseForm): (r: map<string, Case>)
    ensures AllSpace(form.studyId) ==> r == cases
    ensures !AllSpace(form.studyId) ==>
      && r.Keys == cases.Keys + {Strip(form.studyId)}
      && r[Strip(form.studyId)] == BuildCase(form)
    ensures forall k :: k in cases && k != Strip(form.studyId) ==> k in r && r[k] == cases[k]
  {
    var key := Strip(form.studyId);
    if key == "" then cases
    else cases[key := BuildCase(form)]
  }

  /** Every case is stored under its own `Studien_ID`, which carries no outer white space. */
  ghost predicate WellKeyed(cases: map<string, Case>) {
    forall k :: k in cases ==> cases[k].studienId == k && Strip(k) == k
  }

  /** Saving keeps every case stored under its own stripped study ID. */
  lemma SaveCaseWellKeyed(cases: map<string, Case>, form: CaseForm)
    requires WellKeyed(cases)
    ensures WellKeyed(SaveCase(cases, form))
  {
    var key := Strip(form.studyId);
    if key != "" {
      var r := SaveCase(cases, form);
      forall k | k in r ensures r[k].studienId == k && Strip(k) == k {
        if k == key {
          StripIdempotent(form.studyId);
        }
      }
    }
  }

  /** The stored centre is stripped: stripping it again changes nothing. */
  lemma StoredCenterStripped(cases: map<string, Case>, form: CaseForm)
    requires !AllSpace(form.studyId)
    ensures var c := SaveCase(cases, form)[Strip(form.studyId)];
      Strip(c.zentrum) == c.zentrum
  {
    StripIdempotent(form.center);
  }

  /** A save with a non-blank ID sets exactly one key. */
  lemma SaveCaseStores(cases: map<string, Case>, form: CaseForm)
    requires !AllSpace(form.studyId)
    ensures SaveCase(cases, form) == cases[Strip(form.studyId) := BuildCase(form)]
  {
  }

  lemma OverwriteTwice(m: map<string, Case>, k: string, a: Case, b: Case)
    ensures m[k := a][k := b] == m[k := b]
  {
  }

  /** Last write wins: a second save under the same stripped ID replaces the first whole
      (and two saves with the same blank ID both change nothing). */
  lemma LastWriteWins(cases: map<string, Case>, first: CaseForm, second: CaseForm)
    requires Strip(first.studyId) == Strip(second.studyId)
    ensures SaveCase(SaveCase(cases, first), second) == SaveCase(cases, second)
  {
    var key, mid := Strip(first.studyId), SaveCase(cases, first);
    if key != "" {
      SaveCaseStores(cases, first);
      SaveCaseStores(mid, second);
      SaveCaseStores(cases, second);
      OverwriteTwice(cases, key, BuildCase(first), BuildCase(second));
    }
  }

  /** The dictionary of study cases, changed in place by the save button. */
  class CaseStore {
    var cases: map<string, Case>

    constructor (loaded: map<string, Case>)
      ensures cases == loaded
    {
      cases := loaded;
    }

    /** "Fall speichern": refuse a blank study ID, else store under the stripped ID. */
    method Save(form: CaseForm) returns (saved: bool)
      modifies this
      ensures saved == !AllSpace(form.studyId)
      ensures cases == SaveCase(old(cases), form)
    {
      if Strip(form.studyId) == "" {
        return false;
      }
      var caseData := BuildCase(form);
      cases := cases[Strip(form.studyId) := caseData];
      return true;
    }
  }
}

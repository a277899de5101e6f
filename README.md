# ECMO weaning prediction: a verified model of its core

This project models, in Dafny, the logic inside a small Streamlit application for
VA-ECMO weaning research:

- the **demo weaning-risk score** of the weaning tool page (`calc_weaning_score`):
  fourteen measurements become sub-risks in [0,1], three domain means, a weighted
  total risk, a success percentage with one decimal, its complement, and a
  green/yellow/red traffic light with a fixed text per colour;
- saving a scored measurement into the selected patient's history (`verlauf`);
- the **patient-data page**: saving a patient (create, or update name, age and
  diagnosis while keeping the history), deleting a patient, and the overview's
  measurement count;
- the **start page**: registration of a user name and password, and the login check;
- the **30CERW study form**: saving a case under its stripped study ID.

The JSON files behind each page are modelled as the dictionaries they hold: each
page's dictionary is the field of a class (`PatientStore`, `UserStore`, `CaseStore`)
whose methods change it in place, and each method is specified by a pure function on
the dictionary, about which the lemmas are proved. The score is a set of pure
functions on `real` numbers, so every threshold (7.2, 7.45, 55, 2.0, ...) behaves
exactly as written and every input gives a result: there is no error path.

Python's `round(x, 1)` is modelled as rounding to the nearest multiple of 0.1 with
exact ties going to the even last digit (`PyRound.RoundTenth`). Python's
`str.strip()` is modelled with the white-space set of `str.isspace()`
(`PyStr.Strip`).

With the form's default inputs (`pages/2_Weaning_Tool.py:182-202`) the ECMO flow 3.2
is not below 3.0, so its sub-risk is 0.2; the total risk is about 0.2273 and the
result is 77.3 % success, 22.7 % failure, green (`WeaningScore.DefaultExample`).

Files: `wrappers.dfy` (Option), `py_round.dfy`, `py_str.dfy`, `weaning_score.dfy`,
`patients.dfy`, `users.dfy`, `study_cases.dfy`.

## Model

| member | source | states |
|---|---|---|
| WeaningScore.Clamp01 | pages/2_Weaning_Tool.py:59-60 | result lies in [0,1], equals the input inside [0,1], 0 below and 1 above |
| WeaningScore.MapRisk | pages/2_Weaning_Tool.py:63-70 | the MAP sub-risk lies in [0,1] |
| WeaningScore.HeartRateRisk | pages/2_Weaning_Tool.py:72-77 | the heart-rate sub-risk lies in [0,1] |
| WeaningScore.VasopressorRisk | pages/2_Weaning_Tool.py:79 | the vasopressor sub-risk lies in [0,1] for any input |
| WeaningScore.Pao2Risk | pages/2_Weaning_Tool.py:82-87 | the PaO2 sub-risk lies in [0,1] |
| WeaningScore.LactateRisk | pages/2_Weaning_Tool.py:89-94 | the lactate sub-risk lies in [0,1] |
| WeaningScore.PhRisk | pages/2_Weaning_Tool.py:96-101 | the pH sub-risk lies in [0,1] |
| WeaningScore.FlowRisk | pages/2_Weaning_Tool.py:104-109 | the ECMO-flow sub-risk lies in [0,1] |
| WeaningScore.SweepRisk | pages/2_Weaning_Tool.py:111 | the sweep-gas sub-risk lies in [0,1] for any input |
| WeaningScore.EcmoFio2Risk | pages/2_Weaning_Tool.py:112 | the ECMO FiO2 sub-risk lies in [0,1] for any input |
| WeaningScore.VentFio2Risk | pages/2_Weaning_Tool.py:113 | the ventilator FiO2 sub-risk lies in [0,1] for any input |
| WeaningScore.PeepRisk | pages/2_Weaning_Tool.py:114 | the PEEP sub-risk lies in [0,1] for any input |
| WeaningScore.DrivingPressureRisk | pages/2_Weaning_Tool.py:115 | the driving-pressure sub-risk lies in [0,1] for any input |
| WeaningScore.ScaleRisk | pages/2_Weaning_Tool.py:118-119 | the organ-function and echo sub-risks lie in [0,1] for any score |
| WeaningScore.VitalsRisk | pages/2_Weaning_Tool.py:122 | the vitals domain (mean of six sub-risks) lies in [0,1] |
| WeaningScore.EcmoRisk | pages/2_Weaning_Tool.py:123 | the ECMO domain (flow counted twice, divided by 7) lies in [0,1] |
| WeaningScore.OrgansRisk | pages/2_Weaning_Tool.py:124 | the organ domain lies in [0,1] |
| WeaningScore.WeightedRisk | pages/2_Weaning_Tool.py:127 | the 0.4/0.35/0.25 weighted sum of the domains lies in [0,1] |
| WeaningScore.TotalRisk | pages/2_Weaning_Tool.py:127-128 | the final clamp is a no-op: the total risk equals the weighted sum |
| WeaningScore.Classify | pages/2_Weaning_Tool.py:134-142 | green iff success >= 75, yellow iff 50 <= success < 75, red iff success < 50 |
| WeaningScore.Score | pages/2_Weaning_Tool.py:42-144 | total over all real inputs; 0 <= success <= 100; success and failure have one decimal and sum to exactly 100; success is within 0.05 of (1 - total risk) x 100; the level is the traffic light of success and the text is that level's fixed text |
| WeaningScore.StepBoundaries | pages/2_Weaning_Tool.py:63-109 | half-open steps: MAP 55 -> 0.7, 85 -> 0.2; HR 130 and 110.5 -> 0.6; PaO2 80 -> 0.2; lactate 2 -> 0.2, 4 -> 0.6; pH 7.2 -> 0.5, 7.45 -> 0.2; flow 2.0 -> 0.6, 3.0 and 3.2 -> 0.2 |
| WeaningScore.SuccessAntitone | pages/2_Weaning_Tool.py:127-130 | a larger weighted risk never yields a larger success percentage |
| WeaningScore.LactateWorsens | pages/2_Weaning_Tool.py:89-94 | all else fixed, moving lactate from <= 2 to > 4 strictly lowers the success percentage |
| WeaningScore.FlowNeverLowers | pages/2_Weaning_Tool.py:104-109 | all else fixed, raising the ECMO flow (across 2.0, 3.0 or anywhere) never lowers the success percentage |
| WeaningScore.DefaultExample | pages/2_Weaning_Tool.py:182-202 | the form's default inputs score 77.3 success, 22.7 failure, green |
| PyRound.RoundHalfEven | pages/2_Weaning_Tool.py:130 | nearest integer to the input, an exact tie going to the even neighbour |
| PyRound.RoundTenth | pages/2_Weaning_Tool.py:130-131 | `round(x, 1)` is a multiple of 0.1 within 0.05 of x |
| PyRound.RoundTenthOfTenth | pages/2_Weaning_Tool.py:131 | rounding a one-decimal value returns it unchanged, so the failure rounding is exact |
| PyRound.RoundTenthMonotone | pages/2_Weaning_Tool.py:130 | rounding preserves order |
| PyRound.RoundTenthStrict | pages/2_Weaning_Tool.py:130 | values more than 0.1 apart stay strictly ordered after rounding |
| PyRound.TenthComplement | pages/2_Weaning_Tool.py:131 | 100 minus a one-decimal value has one decimal |
| PyStr.TrimStart | streamlit_app.py:121 | the result is a suffix of the input, everything removed is white space, and it does not start with white space |
| PyStr.TrimEnd | streamlit_app.py:121 | the result is a prefix of the input, everything removed is white space, and it does not end with white space |
| PyStr.Strip | streamlit_app.py:121 | `strip()` is empty iff the string is all white space; a non-empty result neither starts nor ends with white space |
| PyStr.StripDecomposition | pages/0_30CERW_Score.py:222 | the input is a white-space prefix, then its stripped form, then a white-space suffix |
| PyStr.StripIdempotent | pages/0_30CERW_Score.py:222-223 | stripping twice equals stripping once |
| Patients.NewPatient | pages/1_Patientendaten.py:84-89 | a new record holds the given name, age and diagnosis, an empty (present) history and no further keys |
| Patients.Upsert | pages/1_Patientendaten.py:82-94 | the saved ID is present and holds the given name, age and diagnosis; a new ID gets an empty (present) history; an existing ID keeps its history and its other keys; every other patient is unchanged |
| Patients.WithEntry | pages/2_Weaning_Tool.py:216-235 | the history gains exactly one entry at its end; earlier entries and every other field are unchanged |
| Patients.MeasurementCount | pages/1_Patientendaten.py:56 | the count is the history length, 0 when the record has no history |
| Patients.Overview | pages/1_Patientendaten.py:50-59 | one row per stored patient, carrying its ID and its history length |
| Patients.WithEntryCount | pages/2_Weaning_Tool.py:216-236 | after a measurement is saved the overview has the same patients and that patient's count is one higher |
| Patients.UpsertCount | pages/1_Patientendaten.py:82-94 | after a save an existing patient's count is unchanged and a new patient's count is 0 |
| Patients.UpsertThenDelete | pages/1_Patientendaten.py:104 | deleting a patient just created restores the previous store |
| Patients.PatientStore.constructor | pages/1_Patientendaten.py:45 | the store starts as the loaded dictionary |
| Patients.PatientStore.SavePatient | pages/1_Patientendaten.py:75-96 | only the empty ID is refused (store unchanged); otherwise the store becomes `Upsert` of the old store |
| Patients.PatientStore.DeletePatient | pages/1_Patientendaten.py:101-106 | exactly the given key is removed; an absent key changes nothing |
| Patients.PatientStore.SaveMeasurement | pages/2_Weaning_Tool.py:204-237 | returns the score of the measurement; the selected patient gets one entry with that success as score appended; all other patients are unchanged |
| Users.RegistrationOutcome | streamlit_app.py:120-131 | blank (after strip) name or password is refused first; otherwise an existing name is refused; otherwise registration succeeds |
| Users.Login | streamlit_app.py:91-104 | login succeeds iff the name is registered with exactly this password; the no-users outcome occurs iff nobody is registered |
| Users.RegisterThenLogin | streamlit_app.py:98-126 | after a successful registration the same name and password log in |
| Users.RegistrationKeepsPasswords | streamlit_app.py:123-126 | a registration never changes an existing user's password |
| Users.UserStore.constructor | streamlit_app.py:73 | the store starts as the loaded dictionary |
| Users.UserStore.Register | streamlit_app.py:120-131 | the outcome is `RegistrationOutcome`; on success exactly the unstripped name is mapped to the unstripped password, otherwise nothing changes |
| StudyCases.BuildCase | pages/0_30CERW_Score.py:221-268 | the record holds the stripped study ID, the stripped centre, and every other field as entered |
| StudyCases.SaveCase | pages/0_30CERW_Score.py:217-273 | a blank study ID leaves the cases unchanged; otherwise exactly the stripped ID is added or replaced by the new record; other cases are untouched |
| StudyCases.SaveCaseWellKeyed | pages/0_30CERW_Score.py:221-271 | saving keeps every case stored under its own `Studien_ID`, with no outer white space |
| StudyCases.StoredCenterStripped | pages/0_30CERW_Score.py:223 | the stored centre has no leading or trailing white space |
| StudyCases.LastWriteWins | pages/0_30CERW_Score.py:271 | a second save under the same stripped ID replaces the first record whole |
| StudyCases.CaseStore.constructor | pages/0_30CERW_Score.py:57 | the store starts as the loaded dictionary |
| StudyCases.CaseStore.Save | pages/0_30CERW_Score.py:217-273 | refused iff the study ID is blank; the cases become `SaveCase` of the old cases |

## Left out

- Streamlit widgets, page layout, messages, tables, charts and the sidebar logo: user interface only.
- Reading and writing the JSON files: each store is the dictionary itself, given to the constructor. How each page loads its file differs and is not modelled:
  - `data/study_30cerw_cases.json` (pages/0_30CERW_Score.py:14-25): a missing file, any exception while reading, or a JSON value that is not a dictionary all give an empty dictionary.
  - `data/patients.json` (pages/1_Patientendaten.py:21-33, pages/2_Weaning_Tool.py:20-31): a missing file, a JSON syntax error, or a value that is not a dictionary give an empty dictionary; any other error while reading is raised.
  - `data/user.json` (streamlit_app.py:20-24): only a missing file gives an empty dictionary; a corrupt file raises, and a JSON value that is not a dictionary is returned as it is.
- Records whose JSON values have unexpected types (a `verlauf` that is not a list, a non-string password): the model's records are typed.
- Dictionary insertion order: the overview is a map keyed by patient ID, so the order of its rows is not modelled.
- `datetime.now()` for a measurement's time stamp and `date.isoformat()` for the study form's dates: they are parameters (strings) of the model.
- IEEE-754 floating point: the model computes on exact reals, so a decimal tie that a binary float does not represent exactly is rounded as a tie.
- Widget input ranges (for example the 0..10 vasopressor range): not part of the scorer, which accepts any real.
- Concurrent pages rewriting the same file (lost updates) and plain-text password storage.
- The unreachable reset of a non-dictionary store at pages/1_Patientendaten.py:79-80: the store is always a dictionary here.
- pages/3_Verläufe.py (history chart) and pages/4_Impressum.py (legal text) are not part of this model.

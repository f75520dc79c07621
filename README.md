# Heart-disease and diabetes prediction: feature encoding and verdicts

This project models the core of a small medical prediction service in Dafny. The
service has two pre-trained binary classifiers, one for heart disease and one for
diabetes, and two front ends:

- an HTTP API (`api.py`) whose endpoints `/predict/heart` and `/predict/diabetes`
  take a request body;
- an interactive Streamlit form (`ui.py`) whose select boxes and number inputs
  collect the same values.

Both front ends do the same work:

1. They turn the raw values into the fixed-order numeric row that each classifier
   was fitted on (13 columns for heart, 8 for diabetes).
2. They hand the row to the classifier.
3. They turn the predicted class into a message. The form also picks a colour.

The model is pure, like the source:

- `PyDict` models Python dict literals as their entries in insertion order.
  This covers `d.get(k, -1)` and the reverse lookup
  `list(d.keys())[list(d.values()).index(v)]`.
- `Text` models ASCII `str.lower()`.
- `Inference` gives the classifier type: a total function from a row to a class.
- `Api` models the endpoints.
- `Ui` models the form.
- `Consistency` proves what the two front ends share and where they differ.

Rows are `seq<real>`, because numpy turns a mixed int/float list into a float
array. Integer fields enter the row as `x as real`.

Two details of the code are easy to misread, and the model keeps them as written:

- The endpoint codes `sex` as 1 only for "male" in any case, and as 0 for every
  other string, not only "female". The same holds for `fasting_bs` and
  `exercise_angina` against "yes".
- The endpoint's message is positive only for class 1. The form's message and
  colour are positive for every class other than 0.

## Model

| member | source | states |
|---|---|---|
| PyDict.IndexOf | ui.py:21 | `list.index` returns a position holding the value, and no earlier position holds it; the value must be present |
| PyDict.Get | api.py:58-61 | `dict.get(k, default)` returns the default when `k` is not a key, and otherwise the value of an entry with key `k` |
| PyDict.ReverseLookup | ui.py:21 | the reverse lookup returns the key of the first entry whose value is the given label; the label must be one of the values |
| PyDict.GetAt | api.py:58-61 | with distinct keys, `get` of the key of entry i returns the value of entry i |
| PyDict.ReverseLookupAt | ui.py:21 | with distinct values, the reverse lookup of entry i's value returns entry i's key (key -> value -> key is the identity) |
| PyDict.GetInjective | api.py:58-61 | with distinct values, two different present keys get different values |
| PyDict.GetCodeRange | api.py:58-61 | for a table coded 0..n-1, `get(k, -1)` lies in [-1, n-1] and is -1 exactly when `k` is missing |
| PyDict.SwappedLookupsAgree | ui.py:19-21 | if a `{code: label}` table is a `{label: code}` table turned round, it offers exactly the latter's labels, and its reverse lookup agrees with `get` on every one of them |
| Text.LowerChar | api.py:50 | ASCII lower-casing adds 32 to an upper-case letter and keeps every other character |
| Text.Lower | api.py:50 | `s.lower()` has the length of `s`, and each character is lower-cased in place |
| Text.LowerEqualsIffCaseVariant | api.py:50-54 | `s.lower()` equals a lower-case word iff `s` spells that word with each letter in either case |
| Api.TablesWellFormed | api.py:51-56 | the chest-pain, resting-ECG, ST-slope and thalassemia tables have distinct labels, distinct codes, and codes 0, 1, ... in order |
| Api.SexCodeSpec | api.py:50 | the sex code is 0 or 1, never -1, and it is 1 iff the string is "male" in any mixture of cases |
| Api.YesCodeSpec | api.py:52-54 | the fasting-blood-sugar and exercise-angina codes are 0 or 1, and 1 iff the string is "yes" in any mixture of cases |
| Api.CategoryCodeSpec | api.py:58-61 | a table-driven code lies in [-1, table size - 1] and is the sentinel -1 iff the label is not in the table |
| Api.CategoryCodeInjective | api.py:51-61 | two different labels of one table never get the same code |
| Api.ChestPainCodes | api.py:51 | Typical Angina=0, Atypical Angina=1, Non-anginal Pain=2, Asymptomatic=3; "asymptomatic" in lower case gives -1 |
| Api.RestingEcgCodes | api.py:53 | Normal=0, ST-T Wave Abnormality=1, Left Ventricular Hypertrophy=2; "normal" gives -1 |
| Api.StSlopeCodes | api.py:55 | Upsloping=0, Flat=1, Downsloping=2; "flat" gives -1 |
| Api.ThalCodes | api.py:56 | Normal=0, Fixed Defect=1, Reversible Defect=2, Unknown=3; "unknown" gives -1 |
| Api.HeartColumnOrder | api.py:64-78 | the heart row has exactly 13 entries, and entry i is the value of column i of age, sex, chest_pain, resting_bp, serum_chol, fasting_bs, resting_ecg, max_hr, exercise_angina, st_depression, st_slope, ca, thal |
| Api.HeartNumbersPassThrough | api.py:65-76 | age, resting_bp, serum_chol, max_hr, st_depression and ca appear unchanged at their positions; ca is not range-checked |
| Api.HeartCodeRanges | api.py:50-61 | the sex and yes/no columns are 0 or 1; each table-driven column is in [-1, size-1] and is -1 iff its label is unknown; encoding is total |
| Api.HeartExample | api.py:50-78 | a typical request (Male, Asymptomatic, Yes, Normal, No, Flat, Fixed Defect, ...) encodes to [55,1,3,140,250,1,0,130,0,2.0,1,1,1] |
| Api.UnknownChestPainExample | api.py:58 | the chest-pain label "Unknown Pain" encodes to -1 and is not refused |
| Api.DiabetesColumnOrder | api.py:92-101 | the diabetes row has exactly 8 entries: pregnancies, glucose, blood_pressure, skin_thickness, insulin, bmi, diabetes_pedigree, age, unchanged and in that order |
| Api.DiabetesExample | api.py:92-101 | the request (2, 130, 80, 25, 100, 28.5, 0.6, 40) encodes to the same eight numbers |
| Api.HeartVerdict | api.py:81 | the message is "Heart disease detected" iff the class is 1, and "No heart disease detected" otherwise |
| Api.DiabetesVerdict | api.py:104 | the message is "Diabetes detected" iff the class is 1, and "No diabetes detected" otherwise |
| Api.PredictHeart | api.py:47-83 | the heart endpoint reports disease iff the classifier answers 1 on the encoded row |
| Api.PredictDiabetes | api.py:89-106 | the diabetes endpoint reports diabetes iff the classifier answers 1 on the encoded row |
| Ui.TablesWellFormed | ui.py:19-46 | the five `{code: label}` tables have distinct codes, distinct labels, and codes 0, 1, ... in order |
| Ui.CodeLabelCode | ui.py:21 | in a well-formed table, the reverse lookup of the label under code c returns c |
| Ui.TablesRoundTrip | ui.py:19-48 | for the chest-pain, resting-ECG, exercise-angina, ST-slope and thalassemia tables, code -> label -> code is the identity |
| Ui.ReverseLookupRange | ui.py:21 | the reverse lookup of an offered label is a code of its table whose label is that label |
| Ui.HeartFeatureCodes | ui.py:19-51 | the form's sex code is 1 iff sex is exactly "Male", fasting blood sugar is 1 iff exactly "Yes", exercise angina is 1 iff "Yes", and each table-driven column is a code of its table, never -1 |
| Ui.SelectBoxRanges | ui.py:17-50 | values picked from the select boxes give a number of major vessels in [0, 3], and sex / fasting-blood-sugar codes of 1 for "Male" / "Yes" and 0 for "Female" / "No" |
| Ui.DiagnosesFor | ui.py:118-127 | the sentence pair depends only on the chosen test (heart or diabetes), and its two sentences differ |
| Ui.Interpret | ui.py:131-138 | class 0 gives the negative sentence in green (0,128,0); every other class gives the positive sentence in red (255,0,0) |
| Ui.Predict | ui.py:116-138 | for the chosen test, class 0 from its classifier on the form's row gives that test's negative sentence in green (0,128,0), and any other class its positive sentence in red (255,0,0) |
| Consistency.TablesAreInverse | ui.py:19-46 | each of the form's chest-pain, resting-ECG, ST-slope and thalassemia tables is the endpoint's table with every entry turned round (api.py:51-56) |
| Consistency.OfferedLabelsEncodeAlike | ui.py:19-48 | the form offers exactly the labels the endpoint recognises, and every offered label gets the same code from both |
| Consistency.SexCodesAgree | ui.py:50 | on "Male" and "Female" the form's exact test and the endpoint's case-blind test give the same code |
| Consistency.FastingBsCodesAgree | ui.py:26 | on "No" and "Yes" the form's exact test and the endpoint's case-blind test give the same code |
| Consistency.ExerciseAnginaCodesAgree | ui.py:34-36 | on "No" and "Yes" the form's reverse lookup and the endpoint's "yes" test give the same code |
| Consistency.SameHeartRow | ui.py:50-51 | for every value the select boxes can produce, the form's heart row equals the endpoint's row for the same values (same columns, order and codes) |
| Consistency.SameDiabetesRow | ui.py:84 | the form's diabetes row equals the endpoint's row for the same values |
| Consistency.CaseHandling | ui.py:50 | where the form codes 1 the endpoint codes 1 too, but not conversely: "MALE" and "yes" are 1 for the endpoint and 0 for the form |
| Consistency.HeartVerdictsAgreeIffBit | ui.py:131-138 | the form and the endpoint agree on the polarity of the heart verdict iff the class is 0 or 1 |
| Consistency.DiabetesVerdictsAgreeIffBit | ui.py:131-138 | the form and the endpoint agree on the polarity of the diabetes verdict iff the class is 0 or 1 |
| Consistency.SameHeartVerdict | ui.py:129-138 | with one classifier answering 0 or 1, the form and the endpoint reach the same heart verdict for the same values |
| Consistency.SameDiabetesVerdict | ui.py:129-138 | with one classifier answering 0 or 1, the form and the endpoint reach the same diabetes verdict for the same values |

## Left out

- Model loading (`joblib.load`) and inference (`model.predict`) are foreign code. A classifier is a parameter of type `seq<real> -> int`, so it is deterministic by construction.
- FastAPI plumbing is not modelled: the app object, the routes, `health_check`, `async`, and the `try`/`except` that turns any exception into HTTP 400. The modelled encoding cannot fail, so only a failing classifier could reach that handler.
- A row whose length does not match the classifier's width is not modelled: both encoders always build the full 13 or 8 columns.
- Streamlit widgets are not modelled: `st.number_input`, `st.selectbox`, `st.radio`, `st.success`/`st.warning` and the DataFrame display. What the select boxes offer is kept as the predicates `Ui.Offered` and `Ui.FromSelectBoxes`. The numeric bounds of the number inputs are not stated, because no modelled property depends on them.
- The patient name and the `user_info` dictionaries only feed the display and the report, so they are not part of this model.
- PDF generation, latin-1 encoding and the base64 download link are report I/O and are not modelled.
- `numpy.reshape(1, -1)` only wraps the row as a one-row matrix; rows are flat sequences.
- Floating point is not modelled: `st_depression`, `bmi` and `diabetes_pedigree` are `real`. The rounding of very large integers to float64 is not modelled.
- Text.Lower: models `str.lower()` on ASCII letters only; other Unicode case mappings are not modelled.
- Python dict literals with a repeated key are not modelled (`get` returns the first entry); every table in the source has distinct keys, as `Api.TablesWellFormed` and `Ui.TablesWellFormed` show.

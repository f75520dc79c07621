/** The interactive form (ui.py): the values picked in the form become the
    same feature rows as in the HTTP endpoints, and the classifier's answer
    becomes a diagnosis sentence and a colour. */
module Ui {
  import opened PyDict
  import opened Inference

  /** The values chosen in the heart form (the patient's name only feeds the
      report and is not part of it). */
  datatype HeartForm = HeartForm(
    age: int,
    sex: string,
    chestPain: string,
    restingBp: int,
    serumChol: int,
    fastingBs: string,
    restingEcg: string,
    maxHr: int,
    exerciseAngina: string,
    stDepression: real,
    stSlope: string,
    ca: int,
    thal: string)

  /** The values chosen in the diabetes form. */
  datatype DiabetesForm = DiabetesForm(
    pregnancies: int,
    glucose: int,
    bloodPressure: int,
    skinThickness: int,
    insulin: int,
    bmi: real,
    diabetesPedigree: real,
    age: int)

  /** The `{code: label}` tables whose labels the select boxes offer. */
  const ChestPainTypes: Dict<int, string> :=
    [(0, "Typical Angina"), (1, "Atypical Angina"), (2, "Non-anginal Pain"), (3, "Asymptomatic")]
  const RestingEcgTypes: Dict<int, string> :=
    [(0, "Normal"), (1, "ST-T Wave Abnormality"), (2, "Left Ventricular Hypertrophy")]
  const ExerciseAnginaOptions: Dict<int, string> :=
    [(0, "No"), (1, "Yes")]
  const StSlopeTypes: Dict<int, string> :=
    [(0, "Upsloping"), (1, "Flat"), (2, "Downsloping")]
  const ThalassemiaTypes: Dict<int, string> :=
    [(0, "Normal"), (1, "Fixed Defect"), (2, "Reversible Defect"), (3, "Unknown")]

  /** The choices of the select boxes that are not backed by a table. */
  const SexOptions: seq<string> := ["Male", "Female"]
  const FastingBsOptions: seq<string> := ["No", "Yes"]
  const CaOptions: seq<int> := [0, 1, 2, 3]

  /** The codes of a table are its keys 0, 1, ..., |d| - 1 in order. */
  predicate KeysAreIndices<V>(d: Dict<int, V>) {
    forall i :: 0 <= i < |d| ==> d[i].0 == i
  }

  predicate WellFormedTable(table: Dict<int, string>) {
    DistinctKeys(table) && DistinctValues(table) && KeysAreIndices(table)
  }

  lemma TablesWellFormed()
    ensures WellFormedTable(ChestPainTypes)
    ensures WellFormedTable(RestingEcgTypes)
    ensures WellFormedTable(ExerciseAnginaOptions)
    ensures WellFormedTable(StSlopeTypes)
    ensures WellFormedTable(ThalassemiaTypes)
  {
  }

  /** Reverse lookup of the label stored under `code` gives `code` back:
      code -> label -> code is the identity on a well-formed table. */
  lemma CodeLabelCode(table: Dict<int, string>, code: int)
    requires WellFormedTable(table) && 0 <= code < |table|
    ensures table[code].1 in Values(table)
    ensures ReverseLookup(table, table[code].1) == code
  {
    ReverseLookupAt(table, code);
  }

  /** For each of the form's tables, every code survives code -> label -> code. */
  lemma TablesRoundTrip()
    ensures forall c :: 0 <= c < |ChestPainTypes| ==>
      ChestPainTypes[c].1 in Values(ChestPainTypes) && ReverseLookup(ChestPainTypes, ChestPainTypes[c].1) == c
    ensures forall c :: 0 <= c < |RestingEcgTypes| ==>
      RestingEcgTypes[c].1 in Values(RestingEcgTypes) && ReverseLookup(RestingEcgTypes, RestingEcgTypes[c].1) == c
    ensures forall c :: 0 <= c < |ExerciseAnginaOptions| ==>
      ExerciseAnginaOptions[c].1 in Values(ExerciseAnginaOptions) && ReverseLookup(ExerciseAnginaOptions, ExerciseAnginaOptions[c].1) == c
    ensures forall c :: 0 <= c < |StSlopeTypes| ==>
      StSlopeTypes[c].1 in Values(StSlopeTypes) && ReverseLookup(StSlopeTypes, StSlopeTypes[c].1) == c
    ensures forall c :: 0 <= c < |ThalassemiaTypes| ==>
      ThalassemiaTypes[c].1 in Values(ThalassemiaTypes) && ReverseLookup(ThalassemiaTypes, ThalassemiaTypes[c].1) == c
  {
    TablesWellFormed();
    forall c | 0 <= c < |ChestPainTypes| ensures ChestPainTypes[c].1 in Values(ChestPainTypes) && ReverseLookup(ChestPainTypes, ChestPainTypes[c].1) == c {
      CodeLabelCode(ChestPainTypes, c);
    }
    forall c | 0 <= c < |RestingEcgTypes| ensures RestingEcgTypes[c].1 in Values(RestingEcgTypes) && ReverseLookup(RestingEcgTypes, RestingEcgTypes[c].1) == c {
      CodeLabelCode(RestingEcgTypes, c);
    }
    forall c | 0 <= c < |ExerciseAnginaOptions| ensures ExerciseAnginaOptions[c].1 in Values(ExerciseAnginaOptions) && ReverseLookup(ExerciseAnginaOptions, ExerciseAnginaOptions[c].1) == c {
      CodeLabelCode(ExerciseAnginaOptions, c);
    }
    forall c | 0 <= c < |StSlopeTypes| ensures StSlopeTypes[c].1 in Values(StSlopeTypes) && ReverseLookup(StSlopeTypes, StSlopeTypes[c].1) == c {
      CodeLabelCode(StSlopeTypes, c);
    }
    forall c | 0 <= c < |ThalassemiaTypes| ensures ThalassemiaTypes[c].1 in Values(ThalassemiaTypes) && ReverseLookup(ThalassemiaTypes, ThalassemiaTypes[c].1) == c {
      CodeLabelCode(ThalassemiaTypes, c);
    }
  }

  /** The reverse lookup of an offered label is a code of its table. */
  lemma ReverseLookupRange(table: Dict<int, string>, category: string)
    requires WellFormedTable(table) && category in Values(table)
    ensures 0 <= ReverseLookup(table, category) < |table|
    ensures table[ReverseLookup(table, category)].1 == category
  {
    var i :| 0 <= i < |table| && table[i].0 == ReverseLookup(table, category) && table[i].1 == category;
    assert table[i].0 == i;
  }

  /** Every select box with a table offers exactly the labels of that table,
      so each label the form holds was offered: what `list.index` demands. */
  predicate Offered(f: HeartForm) {
    && f.chestPain in Values(ChestPainTypes)
    && f.restingEcg in Values(RestingEcgTypes)
    && f.exerciseAngina in Values(ExerciseAnginaOptions)
    && f.stSlope in Values(StSlopeTypes)
    && f.thal in Values(ThalassemiaTypes)
  }

  /** Every value of the form is one its select boxes offer. */
  predicate FromSelectBoxes(f: HeartForm) {
    && Offered(f)
    && f.sex in SexOptions
    && f.fastingBs in FastingBsOptions
    && f.ca in CaOptions
  }

  /** `1 if sex == 'Male' else 0` */
  function SexCode(sex: string): int {
    if sex == "Male" then 1 else 0
  }

  /** `1 if fasting_bs == 'Yes' else 0` */
  function FastingBsCode(fastingBs: string): int {
    if fastingBs == "Yes" then 1 else 0
  }

  /** The 13-column row built from the heart form. */
  function HeartFeatures(f: HeartForm): seq<real>
    requires Offered(f)
  {
    [ f.age as real,
      SexCode(f.sex) as real,
      ReverseLookup(ChestPainTypes, f.chestPain) as real,
      f.restingBp as real,
      f.serumChol as real,
      FastingBsCode(f.fastingBs) as real,
      ReverseLookup(RestingEcgTypes, f.restingEcg) as real,
      f.maxHr as real,
      ReverseLookup(ExerciseAnginaOptions, f.exerciseAngina) as real,
      f.stDepression,
      ReverseLookup(StSlopeTypes, f.stSlope) as real,
      f.ca as real,
      ReverseLookup(ThalassemiaTypes, f.thal) as real ]
  }

  /** The coded columns of the form's row: sex and fasting blood sugar are
      compared exactly ("Male", "Yes"), exercise angina is 1 exactly for "Yes",
      and each table-driven column is a real code of its table, never -1. */
  lemma HeartFeatureCodes(f: HeartForm)
    requires Offered(f)
    ensures HeartFeatures(f)[1] == (if f.sex == "Male" then 1.0 else 0.0)
    ensures HeartFeatures(f)[5] == (if f.fastingBs == "Yes" then 1.0 else 0.0)
    ensures HeartFeatures(f)[8] == (if f.exerciseAngina == "Yes" then 1.0 else 0.0)
    ensures 0.0 <= HeartFeatures(f)[2] <= 3.0
    ensures 0.0 <= HeartFeatures(f)[6] <= 2.0
    ensures 0.0 <= HeartFeatures(f)[10] <= 2.0
    ensures 0.0 <= HeartFeatures(f)[12] <= 3.0
  {
    TablesWellFormed();
    ReverseLookupRange(ChestPainTypes, f.chestPain);
    ReverseLookupRange(RestingEcgTypes, f.restingEcg);
    ReverseLookupRange(ExerciseAnginaOptions, f.exerciseAngina);
    ReverseLookupRange(StSlopeTypes, f.stSlope);
    ReverseLookupRange(ThalassemiaTypes, f.thal);
  }

  /** A form filled through its select boxes gives a number of major vessels
      in [0, 3] and 0/1 codes for sex and fasting blood sugar. */
  lemma SelectBoxRanges(f: HeartForm)
    requires FromSelectBoxes(f)
    ensures 0.0 <= HeartFeatures(f)[11] <= 3.0
    ensures HeartFeatures(f)[1] == 1.0 <==> f.sex == "Male"
    ensures HeartFeatures(f)[1] == 0.0 <==> f.sex == "Female"
    ensures HeartFeatures(f)[5] == 1.0 <==> f.fastingBs == "Yes"
    ensures HeartFeatures(f)[5] == 0.0 <==> f.fastingBs == "No"
  {
  }

  /** The 8-column row built from the diabetes form. */
  function DiabetesFeatures(f: DiabetesForm): seq<real> {
    [ f.pregnancies as real,
      f.glucose as real,
      f.bloodPressure as real,
      f.skinThickness as real,
      f.insulin as real,
      f.bmi,
      f.diabetesPedigree,
      f.age as real ]
  }

  /** The radio button's heart choice; every other choice is diabetes. */
  const HeartOption: string := "Heart Disease"

  /** The pair of sentences the script reports for a chosen test. */
  datatype Diagnoses = Diagnoses(positive: string, negative: string)

  /** An RGB text colour of the report. */
  datatype Rgb = Rgb(red: int, green: int, blue: int)

  const Green: Rgb := Rgb(0, 128, 0)
  const Red: Rgb := Rgb(255, 0, 0)

  /** The diagnosis sentences depend only on the chosen test, and the positive
      and negative sentence always differ. */
  function DiagnosesFor(option: string): (d: Diagnoses)
    ensures d.positive != d.negative
    ensures option == HeartOption ==> d.positive == "The person has heart disease."
    ensures option == HeartOption ==> d.negative == "The person does not have heart disease."
    ensures option != HeartOption ==> d.positive == "The person has diabetes."
    ensures option != HeartOption ==> d.negative == "The person does not have diabetes."
  {
    if option == HeartOption then
      Diagnoses("The person has heart disease.", "The person does not have heart disease.")
    else
      Diagnoses("The person has diabetes.", "The person does not have diabetes.")
  }

  /** The reported sentence and its colour. */
  datatype Outcome = Outcome(result: string, color: Rgb)

  /** Class 0 is the negative sentence in green; every other class, not only
      1, is the positive sentence in red. */
  function Interpret(d: Diagnoses, prediction: int): (o: Outcome)
    ensures o.color == Green <==> prediction == 0
    ensures o.color == Red <==> prediction != 0
    ensures o.color == Green ==> o.result == d.negative
    ensures o.color == Red ==> o.result == d.positive
  {
    if prediction == 0 then Outcome(d.negative, Green) else Outcome(d.positive, Red)
  }

  /** Pressing Predict: the row of the chosen form goes to the chosen
      classifier, and its answer is interpreted with that test's sentences. */
  function Predict(option: string, heart: HeartForm, diabetes: DiabetesForm,
                   heartModel: Classifier, diabetesModel: Classifier): (o: Outcome)
    requires option == HeartOption ==> Offered(heart)
    ensures option == HeartOption && heartModel(HeartFeatures(heart)) == 0 ==>
      o == Outcome("The person does not have heart disease.", Green)
    ensures option == HeartOption && heartModel(HeartFeatures(heart)) != 0 ==>
      o == Outcome("The person has heart disease.", Red)
    ensures option != HeartOption && diabetesModel(DiabetesFeatures(diabetes)) == 0 ==>
      o == Outcome("The person does not have diabetes.", Green)
    ensures option != HeartOption && diabetesModel(DiabetesFeatures(diabetes)) != 0 ==>
      o == Outcome("The person has diabetes.", Red)
  {
    var d := DiagnosesFor(option);
    if option == HeartOption then Interpret(d, heartModel(HeartFeatures(heart)))
    else Interpret(d, diabetesModel(DiabetesFeatures(diabetes)))
  }
}

/** The HTTP prediction endpoints (api.py): how a request body becomes the
    feature vector of a classifier, and how the classifier's answer becomes
    the response message. */
module Api {
  import opened PyDict
  import opened Text
  import opened Inference

  /** Request body of the heart endpoint. */
  datatype HeartInput = HeartInput(
    age: int,
    sex: string,
    chestPain: string,
    restingBp: int,
    serumChol: int,
    fastingBs: string,
    restingEcg: string,
    maxHr: int,
    exerciseAngina: string,
    stDepression: real,
    stSlope: string,
    ca: int,
    thal: string)

  /** Request body of the diabetes endpoint. */
  datatype DiabetesInput = DiabetesInput(
    pregnancies: int,
    glucose: int,
    bloodPressure: int,
    skinThickness: int,
    insulin: int,
    bmi: real,
    diabetesPedigree: real,
    age: int)

  /** Code given to a label that its table does not know. */
  const Unmapped: int := -1

  const ChestPainTypes: Dict<string, int> :=
    [("Typical Angina", 0), ("Atypical Angina", 1), ("Non-anginal Pain", 2), ("Asymptomatic", 3)]
  const RestingEcgTypes: Dict<string, int> :=
    [("Normal", 0), ("ST-T Wave Abnormality", 1), ("Left Ventricular Hypertrophy", 2)]
  const StSlopeTypes: Dict<string, int> :=
    [("Upsloping", 0), ("Flat", 1), ("Downsloping", 2)]
  const ThalTypes: Dict<string, int> :=
    [("Normal", 0), ("Fixed Defect", 1), ("Reversible Defect", 2), ("Unknown", 3)]

  /** Every code table has distinct labels, distinct codes, and codes 0, 1, ...
      in the order written. */
  predicate WellFormedTable(table: Dict<string, int>) {
    DistinctKeys(table) && DistinctValues(table) && CodesAreIndices(table)
  }

  lemma TablesWellFormed()
    ensures WellFormedTable(ChestPainTypes)
    ensures WellFormedTable(RestingEcgTypes)
    ensures WellFormedTable(StSlopeTypes)
    ensures WellFormedTable(ThalTypes)
  {
  }

  /** `1 if sex.lower() == 'male' else 0` */
  function SexCode(sex: string): int {
    if Lower(sex) == "male" then 1 else 0
  }

  /** `1 if answer.lower() == 'yes' else 0`, used for fasting blood sugar and
      for exercise-induced angina. */
  function YesCode(answer: string): int {
    if Lower(answer) == "yes" then 1 else 0
  }

  /** `table.get(label, -1)` */
  function CategoryCode(table: Dict<string, int>, category: string): int {
    Get(table, category, Unmapped)
  }

  /** The 13-column row handed to the heart classifier. */
  function EncodeHeart(h: HeartInput): seq<real> {
    [ h.age as real,
      SexCode(h.sex) as real,
      CategoryCode(ChestPainTypes, h.chestPain) as real,
      h.restingBp as real,
      h.serumChol as real,
      YesCode(h.fastingBs) as real,
      CategoryCode(RestingEcgTypes, h.restingEcg) as real,
      h.maxHr as real,
      YesCode(h.exerciseAngina) as real,
      h.stDepression,
      CategoryCode(StSlopeTypes, h.stSlope) as real,
      h.ca as real,
      CategoryCode(ThalTypes, h.thal) as real ]
  }

  /** The column layout the heart classifier was fitted on. */
  const HeartColumns: seq<string> :=
    ["age", "sex", "chest_pain", "resting_bp", "serum_chol", "fasting_bs", "resting_ecg",
     "max_hr", "exercise_angina", "st_depression", "st_slope", "ca", "thal"]

  /** The encoded value of one named column of a heart request. */
  function HeartColumn(h: HeartInput, name: string): real
    requires name in HeartColumns
  {
    if name == "age" then h.age as real
    else if name == "sex" then SexCode(h.sex) as real
    else if name == "chest_pain" then CategoryCode(ChestPainTypes, h.chestPain) as real
    else if name == "resting_bp" then h.restingBp as real
    else if name == "serum_chol" then h.serumChol as real
    else if name == "fasting_bs" then YesCode(h.fastingBs) as real
    else if name == "resting_ecg" then CategoryCode(RestingEcgTypes, h.restingEcg) as real
    else if name == "max_hr" then h.maxHr as real
    else if name == "exercise_angina" then YesCode(h.exerciseAngina) as real
    else if name == "st_depression" then h.stDepression
    else if name == "st_slope" then CategoryCode(StSlopeTypes, h.stSlope) as real
    else if name == "ca" then h.ca as real
    else CategoryCode(ThalTypes, h.thal) as real
  }

  /** The heart row has one entry per column, in the fitted column order. */
  lemma HeartColumnOrder(h: HeartInput)
    ensures |EncodeHeart(h)| == |HeartColumns| == 13
    ensures forall i :: 0 <= i < |HeartColumns| ==> EncodeHeart(h)[i] == HeartColumn(h, HeartColumns[i])
  {
  }

  /** The numeric fields reach the row unchanged; `ca` in particular is not
      range-checked. */
  lemma HeartNumbersPassThrough(h: HeartInput)
    ensures EncodeHeart(h)[0] == h.age as real
    ensures EncodeHeart(h)[3] == h.restingBp as real
    ensures EncodeHeart(h)[4] == h.serumChol as real
    ensures EncodeHeart(h)[7] == h.maxHr as real
    ensures EncodeHeart(h)[9] == h.stDepression
    ensures EncodeHeart(h)[11] == h.ca as real
  {
  }

  /** The sex code is 1 exactly for "male" in any mixture of cases and 0 for
      every other string; it is never the sentinel. */
  lemma SexCodeSpec(sex: string)
    ensures SexCode(sex) == 0 || SexCode(sex) == 1
    ensures SexCode(sex) == 1 <==> CaseVariantOf(sex, "male")
  {
    LowerEqualsIffCaseVariant(sex, "male");
  }

  /** The yes/no code is 1 exactly for "yes" in any mixture of cases and 0 for
      every other string; it is never the sentinel. */
  lemma YesCodeSpec(answer: string)
    ensures YesCode(answer) == 0 || YesCode(answer) == 1
    ensures YesCode(answer) == 1 <==> CaseVariantOf(answer, "yes")
  {
    LowerEqualsIffCaseVariant(answer, "yes");
  }

  /** A table-driven code is the sentinel exactly when the label is missing
      from the table, and otherwise a code in [0, |table| - 1]. */
  lemma CategoryCodeSpec(table: Dict<string, int>, category: string)
    requires WellFormedTable(table)
    ensures -1 <= CategoryCode(table, category) < |table|
    ensures CategoryCode(table, category) == Unmapped <==> category !in Keys(table)
  {
    GetCodeRange(table, category);
  }

  /** Two different labels of one table never share a code. */
  lemma CategoryCodeInjective(table: Dict<string, int>, l1: string, l2: string)
    requires WellFormedTable(table)
    requires l1 in Keys(table) && l2 in Keys(table) && l1 != l2
    ensures CategoryCode(table, l1) != CategoryCode(table, l2)
  {
    GetInjective(table, l1, l2, Unmapped);
  }

  /** Ranges of the coded heart columns: the yes/no style columns are 0 or 1,
      and each table-driven column is -1 (unknown label) or a code of its table.
      Encoding is total: no input is refused. */
  lemma HeartCodeRanges(h: HeartInput)
    ensures EncodeHeart(h)[1] == 0.0 || EncodeHeart(h)[1] == 1.0
    ensures EncodeHeart(h)[5] == 0.0 || EncodeHeart(h)[5] == 1.0
    ensures EncodeHeart(h)[8] == 0.0 || EncodeHeart(h)[8] == 1.0
    ensures -1.0 <= EncodeHeart(h)[2] <= 3.0
    ensures -1.0 <= EncodeHeart(h)[6] <= 2.0
    ensures -1.0 <= EncodeHeart(h)[10] <= 2.0
    ensures -1.0 <= EncodeHeart(h)[12] <= 3.0
    ensures EncodeHeart(h)[2] == -1.0 <==> h.chestPain !in Keys(ChestPainTypes)
    ensures EncodeHeart(h)[6] == -1.0 <==> h.restingEcg !in Keys(RestingEcgTypes)
    ensures EncodeHeart(h)[10] == -1.0 <==> h.stSlope !in Keys(StSlopeTypes)
    ensures EncodeHeart(h)[12] == -1.0 <==> h.thal !in Keys(ThalTypes)
  {
    TablesWellFormed();
    CategoryCodeSpec(ChestPainTypes, h.chestPain);
    CategoryCodeSpec(RestingEcgTypes, h.restingEcg);
    CategoryCodeSpec(StSlopeTypes, h.stSlope);
    CategoryCodeSpec(ThalTypes, h.thal);
  }

  /** The documented chest-pain codes; labels match exactly, so a different
      capitalisation is an unknown label. */
  lemma ChestPainCodes()
    ensures CategoryCode(ChestPainTypes, "Typical Angina") == 0
    ensures CategoryCode(ChestPainTypes, "Atypical Angina") == 1
    ensures CategoryCode(ChestPainTypes, "Non-anginal Pain") == 2
    ensures CategoryCode(ChestPainTypes, "Asymptomatic") == 3
    ensures CategoryCode(ChestPainTypes, "asymptomatic") == Unmapped
  {
    TablesWellFormed();
    GetAt(ChestPainTypes, 0, Unmapped);
    GetAt(ChestPainTypes, 1, Unmapped);
    GetAt(ChestPainTypes, 2, Unmapped);
    GetAt(ChestPainTypes, 3, Unmapped);
    assert Keys(ChestPainTypes) == ["Typical Angina", "Atypical Angina", "Non-anginal Pain", "Asymptomatic"];
  }

  /** The documented resting-ECG codes, matched exactly. */
  lemma RestingEcgCodes()
    ensures CategoryCode(RestingEcgTypes, "Normal") == 0
    ensures CategoryCode(RestingEcgTypes, "ST-T Wave Abnormality") == 1
    ensures CategoryCode(RestingEcgTypes, "Left Ventricular Hypertrophy") == 2
    ensures CategoryCode(RestingEcgTypes, "normal") == Unmapped
  {
    TablesWellFormed();
    GetAt(RestingEcgTypes, 0, Unmapped);
    GetAt(RestingEcgTypes, 1, Unmapped);
    GetAt(RestingEcgTypes, 2, Unmapped);
    assert Keys(RestingEcgTypes) == ["Normal", "ST-T Wave Abnormality", "Left Ventricular Hypertrophy"];
  }

  /** The documented ST-slope codes, matched exactly. */
  lemma StSlopeCodes()
    ensures CategoryCode(StSlopeTypes, "Upsloping") == 0
    ensures CategoryCode(StSlopeTypes, "Flat") == 1
    ensures CategoryCode(StSlopeTypes, "Downsloping") == 2
    ensures CategoryCode(StSlopeTypes, "flat") == Unmapped
  {
    TablesWellFormed();
    GetAt(StSlopeTypes, 0, Unmapped);
    GetAt(StSlopeTypes, 1, Unmapped);
    GetAt(StSlopeTypes, 2, Unmapped);
    assert Keys(StSlopeTypes) == ["Upsloping", "Flat", "Downsloping"];
  }

  /** The documented thalassemia codes, matched exactly. */
  lemma ThalCodes()
    ensures CategoryCode(ThalTypes, "Normal") == 0
    ensures CategoryCode(ThalTypes, "Fixed Defect") == 1
    ensures CategoryCode(ThalTypes, "Reversible Defect") == 2
    ensures CategoryCode(ThalTypes, "Unknown") == 3
    ensures CategoryCode(ThalTypes, "unknown") == Unmapped
  {
    TablesWellFormed();
    GetAt(ThalTypes, 0, Unmapped);
    GetAt(ThalTypes, 1, Unmapped);
    GetAt(ThalTypes, 2, Unmapped);
    GetAt(ThalTypes, 3, Unmapped);
    assert Keys(ThalTypes) == ["Normal", "Fixed Defect", "Reversible Defect", "Unknown"];
  }

  const HeartPositive: string := "Heart disease detected"
  const HeartNegative: string := "No heart disease detected"
  const DiabetesPositive: string := "Diabetes detected"
  const DiabetesNegative: string := "No diabetes detected"

  /** The heart response message: positive exactly for class 1. */
  function HeartVerdict(prediction: int): (message: string)
    ensures message == HeartPositive <==> prediction == 1
    ensures message == HeartNegative <==> prediction != 1
  {
    if prediction == 1 then HeartPositive else HeartNegative
  }

  /** The diabetes response message: positive exactly for class 1. */
  function DiabetesVerdict(prediction: int): (message: string)
    ensures message == DiabetesPositive <==> prediction == 1
    ensures message == DiabetesNegative <==> prediction != 1
  {
    if prediction == 1 then DiabetesPositive else DiabetesNegative
  }

  /** POST /predict/heart: encode, classify, and report. */
  function PredictHeart(model: Classifier, h: HeartInput): (message: string)
    ensures message == HeartPositive <==> model(EncodeHeart(h)) == 1
    ensures message == HeartPositive || message == HeartNegative
  {
    HeartVerdict(model(EncodeHeart(h)))
  }

  /** The 8-column row handed to the diabetes classifier. */
  function EncodeDiabetes(d: DiabetesInput): seq<real> {
    [ d.pregnancies as real,
      d.glucose as real,
      d.bloodPressure as real,
      d.skinThickness as real,
      d.insulin as real,
      d.bmi,
      d.diabetesPedigree,
      d.age as real ]
  }

  /** The column layout the diabetes classifier was fitted on. */
  const DiabetesColumns: seq<string> :=
    ["pregnancies", "glucose", "blood_pressure", "skin_thickness", "insulin", "bmi",
     "diabetes_pedigree", "age"]

  /** The value of one named field of a diabetes request. */
  function DiabetesColumn(d: DiabetesInput, name: string): real
    requires name in DiabetesColumns
  {
    if name == "pregnancies" then d.pregnancies as real
    else if name == "glucose" then d.glucose as real
    else if name == "blood_pressure" then d.bloodPressure as real
    else if name == "skin_thickness" then d.skinThickness as real
    else if name == "insulin" then d.insulin as real
    else if name == "bmi" then d.bmi
    else if name == "diabetes_pedigree" then d.diabetesPedigree
    else d.age as real
  }

  /** The diabetes row is the eight request fields, unchanged, in the fitted
      column order. */
  lemma DiabetesColumnOrder(d: DiabetesInput)
    ensures |EncodeDiabetes(d)| == |DiabetesColumns| == 8
    ensures forall i :: 0 <= i < |DiabetesColumns| ==> EncodeDiabetes(d)[i] == DiabetesColumn(d, DiabetesColumns[i])
  {
  }

  /** POST /predict/diabetes: encode, classify, and report. */
  function PredictDiabetes(model: Classifier, d: DiabetesInput): (message: string)
    ensures message == DiabetesPositive <==> model(EncodeDiabetes(d)) == 1
    ensures message == DiabetesPositive || message == DiabetesNegative
  {
    DiabetesVerdict(model(EncodeDiabetes(d)))
  }

  /** The worked heart request: a typical input and its row. */
  lemma HeartExample()
    ensures EncodeHeart(HeartInput(55, "Male", "Asymptomatic", 140, 250, "Yes", "Normal", 130, "No", 2.0, "Flat", 1, "Fixed Defect"))
         == [55.0, 1.0, 3.0, 140.0, 250.0, 1.0, 0.0, 130.0, 0.0, 2.0, 1.0, 1.0, 1.0]
  {
    ChestPainCodes();
    RestingEcgCodes();
    StSlopeCodes();
    ThalCodes();
    SexCodeSpec("Male");
    YesCodeSpec("Yes");
    YesCodeSpec("No");
  }

  /** An unknown chest-pain label is encoded as the sentinel, not refused. */
  lemma UnknownChestPainExample(h: HeartInput)
    requires h.chestPain == "Unknown Pain"
    ensures EncodeHeart(h)[2] == -1.0
  {
    assert Keys(ChestPainTypes) == ["Typical Angina", "Atypical Angina", "Non-anginal Pain", "Asymptomatic"];
  }

  /** The worked diabetes request: its row is its fields as they are. */
  lemma DiabetesExample()
    ensures EncodeDiabetes(DiabetesInput(2, 130, 80, 25, 100, 28.5, 0.6, 40))
         == [2.0, 130.0, 80.0, 25.0, 100.0, 28.5, 0.6, 40.0]
  {
  }
}

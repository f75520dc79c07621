/** Facts that relate the two front ends: the form and the HTTP endpoints
    share their code tables (turned round) and their column layout, and
    differ in how they treat letter case and classes other than 0 and 1. */
module Consistency {
  import opened PyDict
  import opened Inference
  import Api
  import Ui

  /** Each `{code: label}` table of the form is the `{label: code}` table of
      the endpoint with every entry turned round. */
  lemma TablesAreInverse()
    ensures Swapped(Api.ChestPainTypes, Ui.ChestPainTypes)
    ensures Swapped(Api.RestingEcgTypes, Ui.RestingEcgTypes)
    ensures Swapped(Api.StSlopeTypes, Ui.StSlopeTypes)
    ensures Swapped(Api.ThalTypes, Ui.ThalassemiaTypes)
  {
  }

  /** The form offers exactly the labels the endpoint recognises, and every
      offered label gets the same code on both sides; so a label chosen in
      the form never reaches the sentinel. */
  lemma OfferedLabelsEncodeAlike(category: string)
    ensures Values(Ui.ChestPainTypes) == Keys(Api.ChestPainTypes)
    ensures Values(Ui.RestingEcgTypes) == Keys(Api.RestingEcgTypes)
    ensures Values(Ui.StSlopeTypes) == Keys(Api.StSlopeTypes)
    ensures Values(Ui.ThalassemiaTypes) == Keys(Api.ThalTypes)
    ensures category in Values(Ui.ChestPainTypes) ==>
      ReverseLookup(Ui.ChestPainTypes, category) == Api.CategoryCode(Api.ChestPainTypes, category)
    ensures category in Values(Ui.RestingEcgTypes) ==>
      ReverseLookup(Ui.RestingEcgTypes, category) == Api.CategoryCode(Api.RestingEcgTypes, category)
    ensures category in Values(Ui.StSlopeTypes) ==>
      ReverseLookup(Ui.StSlopeTypes, category) == Api.CategoryCode(Api.StSlopeTypes, category)
    ensures category in Values(Ui.ThalassemiaTypes) ==>
      ReverseLookup(Ui.ThalassemiaTypes, category) == Api.CategoryCode(Api.ThalTypes, category)
  {
    TablesAreInverse();
    Api.TablesWellFormed();
    SwappedLookupsAgree(Api.ChestPainTypes, Ui.ChestPainTypes, Api.Unmapped);
    SwappedLookupsAgree(Api.RestingEcgTypes, Ui.RestingEcgTypes, Api.Unmapped);
    SwappedLookupsAgree(Api.StSlopeTypes, Ui.StSlopeTypes, Api.Unmapped);
    SwappedLookupsAgree(Api.ThalTypes, Ui.ThalassemiaTypes, Api.Unmapped);
  }

  /** The request body carrying the same values as a heart form. */
  function AsHeartRequest(f: Ui.HeartForm): Api.HeartInput {
    Api.HeartInput(f.age, f.sex, f.chestPain, f.restingBp, f.serumChol, f.fastingBs,
                   f.restingEcg, f.maxHr, f.exerciseAngina, f.stDepression, f.stSlope,
                   f.ca, f.thal)
  }

  /** The request body carrying the same values as a diabetes form. */
  function AsDiabetesRequest(f: Ui.DiabetesForm): Api.DiabetesInput {
    Api.DiabetesInput(f.pregnancies, f.glucose, f.bloodPressure, f.skinThickness,
                      f.insulin, f.bmi, f.diabetesPedigree, f.age)
  }

  /** On the form's two sex choices the exact and the case-blind test agree. */
  lemma SexCodesAgree(sex: string)
    requires sex in Ui.SexOptions
    ensures Ui.SexCode(sex) == Api.SexCode(sex)
  {
    Api.SexCodeSpec(sex);
  }

  /** On the form's two fasting-blood-sugar choices both tests agree. */
  lemma FastingBsCodesAgree(answer: string)
    requires answer in Ui.FastingBsOptions
    ensures Ui.FastingBsCode(answer) == Api.YesCode(answer)
  {
    Api.YesCodeSpec(answer);
  }

  /** On the form's exercise-angina choices the reverse lookup and the
      endpoint's case-blind "yes" test agree. */
  lemma ExerciseAnginaCodesAgree(answer: string)
    requires answer in Values(Ui.ExerciseAnginaOptions)
    ensures ReverseLookup(Ui.ExerciseAnginaOptions, answer) == Api.YesCode(answer)
  {
    Api.YesCodeSpec(answer);
    Ui.TablesWellFormed();
    Ui.ReverseLookupRange(Ui.ExerciseAnginaOptions, answer);
  }

  /** For every value the form's select boxes can produce, the form's row is
      the endpoint's row for the same values: same columns, same order, same
      codes. */
  lemma SameHeartRow(f: Ui.HeartForm)
    requires Ui.Offered(f) && f.sex in Ui.SexOptions && f.fastingBs in Ui.FastingBsOptions
    ensures Ui.HeartFeatures(f) == Api.EncodeHeart(AsHeartRequest(f))
  {
    assert ReverseLookup(Ui.ChestPainTypes, f.chestPain) == Api.CategoryCode(Api.ChestPainTypes, f.chestPain) by {
      OfferedLabelsEncodeAlike(f.chestPain);
    }
    assert ReverseLookup(Ui.RestingEcgTypes, f.restingEcg) == Api.CategoryCode(Api.RestingEcgTypes, f.restingEcg) by {
      OfferedLabelsEncodeAlike(f.restingEcg);
    }
    assert ReverseLookup(Ui.StSlopeTypes, f.stSlope) == Api.CategoryCode(Api.StSlopeTypes, f.stSlope) by {
      OfferedLabelsEncodeAlike(f.stSlope);
    }
    assert ReverseLookup(Ui.ThalassemiaTypes, f.thal) == Api.CategoryCode(Api.ThalTypes, f.thal) by {
      OfferedLabelsEncodeAlike(f.thal);
    }
    SexCodesAgree(f.sex);
    FastingBsCodesAgree(f.fastingBs);
    ExerciseAnginaCodesAgree(f.exerciseAngina);
  }

  /** The diabetes rows of both front ends agree column for column. */
  lemma SameDiabetesRow(f: Ui.DiabetesForm)
    ensures Ui.DiabetesFeatures(f) == Api.EncodeDiabetes(AsDiabetesRequest(f))
  {
  }

  /** Where the form codes 1 (exact "Male" / "Yes"), the endpoint codes 1 as
      well; the converse fails, because only the endpoint ignores case. */
  lemma CaseHandling(s: string)
    ensures Ui.SexCode(s) <= Api.SexCode(s)
    ensures Ui.FastingBsCode(s) <= Api.YesCode(s)
    ensures Api.SexCode("MALE") == 1 && Ui.SexCode("MALE") == 0
    ensures Api.YesCode("yes") == 1 && Ui.FastingBsCode("yes") == 0
  {
    Api.SexCodeSpec(s);
    Api.YesCodeSpec(s);
    Api.SexCodeSpec("Male");
    Api.YesCodeSpec("Yes");
    Api.SexCodeSpec("MALE");
    Api.YesCodeSpec("yes");
  }

  /** Both front ends give a positive heart verdict for the same class exactly
      when the class is 0 or 1: for any other class the endpoint says "no
      disease" and the form says "disease". */
  lemma HeartVerdictsAgreeIffBit(prediction: int)
    ensures (Api.HeartVerdict(prediction) == Api.HeartPositive
             <==> Ui.Interpret(Ui.DiagnosesFor(Ui.HeartOption), prediction).result == "The person has heart disease.")
            <==> (prediction == 0 || prediction == 1)
  {
  }

  /** The same for the diabetes verdicts. */
  lemma DiabetesVerdictsAgreeIffBit(prediction: int)
    ensures (Api.DiabetesVerdict(prediction) == Api.DiabetesPositive
             <==> Ui.Interpret(Ui.DiagnosesFor("Diabetes"), prediction).result == "The person has diabetes.")
            <==> (prediction == 0 || prediction == 1)
  {
  }

  /** End to end: with the same classifier answering 0 or 1, the form and the
      endpoint reach the same heart verdict for the same values. */
  lemma SameHeartVerdict(f: Ui.HeartForm, diabetes: Ui.DiabetesForm, model: Classifier, other: Classifier)
    requires Ui.Offered(f) && f.sex in Ui.SexOptions && f.fastingBs in Ui.FastingBsOptions
    requires model(Ui.HeartFeatures(f)) == 0 || model(Ui.HeartFeatures(f)) == 1
    ensures Api.PredictHeart(model, AsHeartRequest(f)) == Api.HeartPositive
        <==> Ui.Predict(Ui.HeartOption, f, diabetes, model, other).result == "The person has heart disease."
  {
    SameHeartRow(f);
  }

  /** End to end for diabetes, under the same condition on the classifier. */
  lemma SameDiabetesVerdict(f: Ui.DiabetesForm, heart: Ui.HeartForm, model: Classifier, other: Classifier)
    requires model(Ui.DiabetesFeatures(f)) == 0 || model(Ui.DiabetesFeatures(f)) == 1
    ensures Api.PredictDiabetes(model, AsDiabetesRequest(f)) == Api.DiabetesPositive
        <==> Ui.Predict("Diabetes", heart, f, other, model).result == "The person has diabetes."
  {
    SameDiabetesRow(f);
  }
}

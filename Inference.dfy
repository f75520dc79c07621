/** The pre-trained classifiers are foreign code: each is taken as a total
    function from one row of features to the predicted class label. */
module Inference {

  /** `model.predict(row)[0]` for a one-row input. */
  type Classifier = seq<real> -> int
}

/**
 * A prediction over one time series: the true and the predicted label of every step, each
 * kept as an `int` array that may not be set yet (`null`).
 */
module Prediction {
  import opened JavaInt

  class TimeSeriesPrediction {
    var trueLabels: array?<Int32>
    var predictedLabels: array?<Int32>

    /** Once both label arrays are set they label the same number of steps. */
    ghost predicate Valid()
      reads this
    {
      trueLabels != null && predictedLabels != null ==> trueLabels.Length == predictedLabels.Length
    }

    /** A new prediction has neither array set. */
    constructor ()
      ensures Valid() && trueLabels == null && predictedLabels == null
    {
      trueLabels := null;
      predictedLabels := null;
    }

    /**
     * setTrueLabels(int[]): the length check is a Java `assert`, here a precondition; it
     * dereferences the argument only when the predicted labels are already set.
     */
    method SetTrueLabels(labels: array?<Int32>) returns (self: TimeSeriesPrediction)
      requires predictedLabels != null ==> labels != null && labels.Length == predictedLabels.Length
      modifies this`trueLabels
      ensures Valid()
      ensures trueLabels == labels && predictedLabels == old(predictedLabels)
      ensures self == this
    {
      trueLabels := labels;
      return this;
    }

    /** setPredictedLabels(int[]): the mirror image of setTrueLabels. */
    method SetPredictedLabels(labels: array?<Int32>) returns (self: TimeSeriesPrediction)
      requires trueLabels != null ==> labels != null && labels.Length == trueLabels.Length
      modifies this`predictedLabels
      ensures Valid()
      ensures predictedLabels == labels && trueLabels == old(trueLabels)
      ensures self == this
    {
      predictedLabels := labels;
      return this;
    }

    /** trueLabels(): the stored array itself, not a copy. */
    method TrueLabels() returns (r: array?<Int32>)
      ensures r == trueLabels
    {
      return trueLabels;
    }

    /** predictedLabels(): the stored array itself, not a copy. */
    method PredictedLabels() returns (r: array?<Int32>)
      ensures r == predictedLabels
    {
      return predictedLabels;
    }
  }
}

/** `randomForestModel(data)`: three days forecast one at a time from sliding
    windows of three consecutive values, each forecast appended to the data
    before the next round. The regression forest itself is a parameter. */
module Forecast {
  import opened Records

  /** The regression forest as seen from the controller: trained on examples and
      their labels, it predicts a value for a query window. */
  type Regressor = (seq<seq<real>>, seq<real>, seq<real>) -> real

  /** The number of forecast rounds. */
  const Rounds: nat := 3

  /** The window length of an example. */
  const Window: nat := 3

  /** `trainingSet`: every window of three consecutive values that has a successor. */
  function TrainingSet(s: seq<real>): (r: seq<seq<real>>)
    ensures |r| == if |s| >= Window then |s| - Window else 0
  {
    if |s| < Window then []
    else seq(|s| - Window, i requires 0 <= i < |s| - Window => s[i..i + Window])
  }

  /** `predictions`: the value following each window. */
  function Labels(s: seq<real>): (r: seq<real>)
    ensures |r| == if |s| >= Window then |s| - Window else 0
  {
    if |s| < Window then []
    else seq(|s| - Window, i requires 0 <= i < |s| - Window => s[i + Window])
  }

  /** `salesData.slice(-3)`: the last three values, or all of them when there are fewer. */
  function Query(s: seq<real>): (r: seq<real>)
    ensures |r| == if |s| >= Window then Window else |s|
  {
    if |s| >= Window then s[|s| - Window..] else s
  }

  /** One round: train on `s` and predict the value after its last window. */
  function Predict(s: seq<real>, regress: Regressor): real {
    regress(TrainingSet(s), Labels(s), Query(s))
  }

  /** Each example followed by its label is a run of four consecutive values,
      and the examples cover the data in order. */
  lemma {:induction false} ExamplesAreConsecutive(s: seq<real>)
    requires |s| >= Window
    ensures forall i :: 0 <= i < |s| - Window ==> TrainingSet(s)[i] + [Labels(s)[i]] == s[i..i + Window + 1]
  {
    forall i | 0 <= i < |s| - Window
      ensures TrainingSet(s)[i] + [Labels(s)[i]] == s[i..i + Window + 1]
    {
      assert s[i..i + Window + 1] == s[i..i + Window] + [s[i + Window]];
    }
  }

  /** Appending a forecast turns the last query into one more example, labelled with that forecast. */
  lemma {:induction false} AppendExtendsTraining(s: seq<real>, v: real)
    requires |s| >= Window
    ensures TrainingSet(s + [v]) == TrainingSet(s) + [Query(s)]
    ensures Labels(s + [v]) == Labels(s) + [v]
  {
    var s' := s + [v];
    var n := |s| - Window;
    forall i | 0 <= i < n
      ensures TrainingSet(s')[i] == TrainingSet(s)[i]
    {
      assert s'[i..i + Window] == s[i..i + Window];
    }
    assert TrainingSet(s')[n] == Query(s);
    assert TrainingSet(s') == TrainingSet(s) + [Query(s)];
  }

  /** The first `n` forecasts: each is predicted from the data extended by the
      forecasts before it. */
  function Rollout(s: seq<real>, regress: Regressor, n: nat): (r: seq<real>)
    ensures |r| == n
    decreases n
  {
    if n == 0 then []
    else
      var prev := Rollout(s, regress, n - 1);
      prev + [Predict(s + prev, regress)]
  }

  /** Forecast `k` is what the forest predicts from the data followed by forecasts `0..k`. */
  lemma {:induction false} RolloutFeedsBack(s: seq<real>, regress: Regressor, n: nat)
    ensures forall k :: 0 <= k < n ==> Rollout(s, regress, n)[k] == Predict(s + Rollout(s, regress, n)[..k], regress)
    decreases n
  {
    if n > 0 {
      var prev := Rollout(s, regress, n - 1);
      var r := Rollout(s, regress, n);
      RolloutFeedsBack(s, regress, n - 1);
      assert r[..n - 1] == prev;
      forall k | 0 <= k < n
        ensures r[k] == Predict(s + r[..k], regress)
      {
        if k < n - 1 {
          assert r[..k] == prev[..k];
        }
      }
    }
  }

  /** Forecast values as points dated `today` and the days after. */
  function ForecastPoints(values: seq<real>, today: Day): (r: seq<Point>)
    ensures |r| == |values|
    ensures forall k :: 0 <= k < |r| ==> r[k].x == today + k
    ensures Values(r) == values
  {
    seq(|values|, k requires 0 <= k < |values| => Point(today + k, values[k]))
  }

  /** A sequence of points dated from `today` on is the forecast points of its values. */
  lemma {:induction false} PointsAreForecastPoints(points: seq<Point>, today: Day)
    requires forall k :: 0 <= k < |points| ==> points[k].x == today + k
    ensures points == ForecastPoints(Values(points), today)
  {
  }

  /** The inner loop of a round: `trainingSet[i] = salesData.slice(i, i + 3)` and
      `predictions[i] = salesData[i + 3]` for every `i < salesData.length - 3`. */
  method BuildTrainingSet(salesData: seq<real>) returns (trainingSet: seq<seq<real>>, predictions: seq<real>)
    requires |salesData| >= Window
    ensures trainingSet == TrainingSet(salesData)
    ensures predictions == Labels(salesData)
  {
    var length := |salesData| - Window;
    trainingSet := [];
    predictions := [];
    var j := 0;
    while j < length
      invariant 0 <= j <= length
      invariant trainingSet == TrainingSet(salesData)[..j]
      invariant predictions == Labels(salesData)[..j]
    {
      trainingSet := trainingSet + [salesData[j..j + Window]];
      predictions := predictions + [salesData[j + Window]];
      j := j + 1;
    }
  }

  /** One round: build the examples, train, and predict the value after the last window. */
  method Round(salesData: seq<real>, regress: Regressor) returns (y: real)
    requires |salesData| >= Window
    ensures y == Predict(salesData, regress)
  {
    var trainingSet, predictions := BuildTrainingSet(salesData);
    var result := regress(trainingSet, predictions, salesData[|salesData| - Window..]);
    y := result;
  }

  /** A round extends the forecasts made so far by the prediction from the data
      followed by them. */
  lemma {:induction false} RoundStep(data: seq<real>, regress: Regressor, today: Day, results: seq<Point>, y: real,
                                     next: seq<Point>)
    requires forall k :: 0 <= k < |results| ==> results[k].x == today + k
    requires Values(results) == Rollout(data, regress, |results|)
    requires y == Predict(data + Values(results), regress)
    requires next == results + [Point(today + |results|, y)]
    ensures forall k :: 0 <= k < |next| ==> next[k].x == today + k
    ensures Values(next) == Rollout(data, regress, |next|)
    ensures Values(next) == Values(results) + [y]
  {
    assert Values(next) == Values(results) + [y];
  }

  /** `randomForestModel(data)`: fails as `new Array(salesData.length - 3)` does
      when there are fewer than three values; otherwise three points, dated today
      and the two days after, carrying the rolled-out forecasts. */
  method RandomForestModel(data: seq<real>, today: Day, regress: Regressor) returns (r: Result<seq<Point>>)
    ensures r.Failure? <==> |data| < Window
    ensures r.Failure? ==> r.error == InvalidArrayLength(|data| - Window)
    ensures r.Success? ==> r.value == ForecastPoints(Rollout(data, regress, Rounds), today)
  {
    var salesData := data;
    var results: seq<Point> := [];
    var i := 0;
    while i < Rounds
      invariant 0 <= i <= Rounds
      invariant i > 0 ==> |data| >= Window
      invariant |results| == i
      invariant forall k :: 0 <= k < i ==> results[k].x == today + k
      invariant Values(results) == Rollout(data, regress, i)
      invariant salesData == data + Values(results)
    {
      var length := |salesData| - Window;
      if length < 0 {
        return Failure(InvalidArrayLength(length));
      }
      var y := Round(salesData, regress);
      var next := results + [Point(today + i, y)];
      RoundStep(data, regress, today, results, y, next);
      results := next;
      salesData := salesData + [y];
      i := i + 1;
    }
    PointsAreForecastPoints(results, today);
    r := Success(results);
  }
}

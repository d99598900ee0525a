/** The day-by-day State of Health simulation: each day's design row
    [SOH0, T1, Strategy, T4, Day] is normalised, the capacity-loss estimator
    is asked for that day's loss, and the running capacity is rolled
    forward one day. */
module SohEstimation {
  import opened Features

  /** Columns of the design matrix: SOH0, T1, Strategy, T4, Day. */
  const FeatureCount: nat := 5

  /** The trained model bundle: the capacity-loss estimator, the mean and
      standard deviation of the five features over the training set, and the
      nominal capacity (kWh) of the battery used in training. */
  datatype Bundle = Bundle(predict: seq<real> -> real, mu: seq<real>, sigma: seq<real>, qtr: real)

  /** The inputs fixed for one simulation run: the operational strategy
      label (0: Greedy, 1: FeedInDamp, not checked), the nominal capacity of
      the battery (kWh) and the model bundle. */
  datatype Config = Config(strategy: int, qnom: real, model: Bundle)
  {
    /** The divisions of a run are defined: a non-zero nominal capacity and
        a non-zero standard deviation for every feature. */
    predicate Valid()
    {
      && qnom != 0.0
      && |model.mu| == FeatureCount
      && |model.sigma| == FeatureCount
      && forall j :: 0 <= j < FeatureCount ==> model.sigma[j] != 0.0
    }
  }

  /** The per-day inputs of the simulation: one row of the basic-feature
      matrix (T1, T4) and the day value. */
  datatype DayFeatures = DayFeatures(t1: real, t4: real, day: real)

  /** One row of the design matrix. T1 and T4 are rescaled by the ratio of
      the training capacity to the nominal capacity; the strategy and the day
      are carried through unchanged. */
  function DesignRow(soh0: real, d: DayFeatures, strategy: int, qtr: real, qnom: real): seq<real>
    requires qnom != 0.0
  {
    [soh0, d.t1 * (qtr / qnom), strategy as real, d.t4 * (qtr / qnom), d.day]
  }

  /** Elementwise (x - mu) / sigma. */
  function Normalize(x: seq<real>, mu: seq<real>, sigma: seq<real>): seq<real>
    requires |x| == |mu| == |sigma|
    requires forall j :: 0 <= j < |sigma| ==> sigma[j] != 0.0
  {
    seq(|x|, j requires 0 <= j < |x| => (x[j] - mu[j]) / sigma[j])
  }

  /** Elementwise z * sigma + mu. */
  function Denormalize(z: seq<real>, mu: seq<real>, sigma: seq<real>): seq<real>
    requires |z| == |mu| == |sigma|
  {
    seq(|z|, j requires 0 <= j < |z| => z[j] * sigma[j] + mu[j])
  }

  /** The estimator's capacity loss for a day that starts at capacity soh0. */
  function DailyLoss(cfg: Config, soh0: real, d: DayFeatures): real
    requires cfg.Valid()
  {
    var x := DesignRow(soh0, d, cfg.strategy, cfg.model.qtr, cfg.qnom);
    cfg.model.predict(Normalize(x, cfg.model.mu, cfg.model.sigma))
  }

  /** q is the simulated SOH trajectory of the given days: one value per day,
      the capacity at the START of that day, beginning at 1 and each day
      lowered by the loss the estimator predicts for the previous day. No
      value is clamped. */
  predicate IsTrajectory(q: seq<real>, days: seq<DayFeatures>, cfg: Config)
    requires cfg.Valid()
  {
    && |q| == |days|
    && (|q| > 0 ==> q[0] == 1.0)
    && forall i :: 0 <= i < |q| - 1 ==> q[i + 1] == q[i] - DailyLoss(cfg, q[i], days[i])
  }

  /** The capacity at the start of day i (i == |days| gives the capacity
      after the last day). */
  function StartCapacity(days: seq<DayFeatures>, cfg: Config, i: nat): real
    requires cfg.Valid() && i <= |days|
  {
    if i == 0 then 1.0
    else
      var q := StartCapacity(days, cfg, i - 1);
      q - DailyLoss(cfg, q, days[i - 1])
  }

  /** The trajectory, day by day. */
  function Trajectory(days: seq<DayFeatures>, cfg: Config): (q: seq<real>)
    requires cfg.Valid()
    ensures IsTrajectory(q, days, cfg)
  {
    seq(|days|, i requires 0 <= i < |days| => StartCapacity(days, cfg, i))
  }

  /** The rows of the basic-feature matrix paired with their day values. */
  function DaysOf(bf: array2<real>, day: array<real>): seq<DayFeatures>
    requires bf.Length1 >= 2 && day.Length == bf.Length0
    reads bf, day
  {
    seq(bf.Length0, k requires 0 <= k < bf.Length0 reads bf, day => DayFeatures(bf[k, 0], bf[k, 1], day[k]))
  }

  /** The design matrix before the simulation: a zero matrix of one row per
      day whose columns 1 to 4 are then filled column by column with the
      rescaled T1, the strategy label, the rescaled T4 and the day value;
      column 0 stays zero until the simulation writes the running capacity
      into it. */
  method DesignMatrix(bf: array2<real>, day: array<real>, strategy: int, qtr: real, qnom: real)
    returns (X: array2<real>)
    requires bf.Length1 >= 2 && day.Length == bf.Length0
    requires qnom != 0.0
    ensures fresh(X)
    ensures X.Length0 == bf.Length0 && X.Length1 == FeatureCount
    ensures forall k :: 0 <= k < X.Length0 ==> X[k, 0] == 0.0
    ensures forall k, j :: 0 <= k < X.Length0 && 1 <= j < FeatureCount ==>
      X[k, j] == DesignRow(0.0, DayFeatures(bf[k, 0], bf[k, 1], day[k]), strategy, qtr, qnom)[j]
  {
    var n := bf.Length0;
    var d := FeatureCount;
    X := new real[n, d];
    forall i | 0 <= i < n {
      X[i, 0] := 0.0;
    }
    forall i | 0 <= i < n {
      X[i, 1] := bf[i, 0] * (qtr / qnom);
    }
    forall i | 0 <= i < n {
      X[i, 2] := strategy as real;
    }
    forall i | 0 <= i < n {
      X[i, 3] := bf[i, 1] * (qtr / qnom);
    }
    forall i | 0 <= i < n {
      X[i, 4] := day[i];
    }
  }

  /** Simulates the SOH trajectory: for each day the running capacity is
      written into column 0 of that day's design row and recorded as the
      day's output, and only then is the row normalised, the day's loss
      predicted and subtracted. The output for day i is therefore the
      capacity at the start of day i. With no days the loop never runs, so
      mu and sigma are never used and the output is empty. */
  method EstimateSoh(bf: array2<real>, day: array<real>, strategy: int, qnom: real, model: Bundle)
    returns (qhat: array<real>)
    requires bf.Length1 >= 2 && day.Length == bf.Length0
    requires qnom != 0.0
    requires bf.Length0 > 0 ==> Config(strategy, qnom, model).Valid()
    ensures fresh(qhat)
    ensures qhat.Length == bf.Length0
    ensures bf.Length0 > 0 ==> IsTrajectory(qhat[..], DaysOf(bf, day), Config(strategy, qnom, model))
  {
    ghost var cfg := Config(strategy, qnom, model);
    ghost var days := DaysOf(bf, day);
    var n := bf.Length0;
    var X := DesignMatrix(bf, day, strategy, model.qtr, qnom);

    var q0 := 1.0;
    // every entry of qhat is written before the method returns, so its
    // initial zeros are not modelled
    qhat := new real[n];
    if n == 0 {
      // the loop below would not run: mu and sigma are never used
      return;
    }
    ghost var traj := Trajectory(days, cfg);
    for i := 0 to n
      invariant forall k, j :: 0 <= k < n && 1 <= j < FeatureCount ==>
        X[k, j] == DesignRow(0.0, days[k], strategy, model.qtr, qnom)[j]
      invariant q0 == StartCapacity(days, cfg, i)
      invariant qhat[..i] == traj[..i]
    {
      X[i, 0] := q0;
      qhat[i] := q0;
      // the row as a vector; column 0 was just overwritten in place
      var xday := [X[i, 0], X[i, 1], X[i, 2], X[i, 3], X[i, 4]];
      assert xday == DesignRow(q0, days[i], strategy, model.qtr, qnom);
      var xnorm := Normalize(xday, model.mu, model.sigma);
      var qlosshat := model.predict(xnorm);
      q0 := q0 - qlosshat;
    }
    assert qhat[..] == qhat[..n];
  }

  /** The recurrence has exactly one solution: every trajectory is the one
      computed day by day from the start capacity. */
  lemma {:induction false} TrajectoryAt(q: seq<real>, days: seq<DayFeatures>, cfg: Config, i: nat)
    requires cfg.Valid() && IsTrajectory(q, days, cfg) && i < |q|
    ensures q[i] == StartCapacity(days, cfg, i)
  {
    if i > 0 {
      TrajectoryAt(q, days, cfg, i - 1);
    }
  }

  lemma TrajectoryUnique(q: seq<real>, days: seq<DayFeatures>, cfg: Config)
    requires cfg.Valid() && IsTrajectory(q, days, cfg)
    ensures q == Trajectory(days, cfg)
  {
    forall i | 0 <= i < |q|
      ensures q[i] == Trajectory(days, cfg)[i]
    {
      TrajectoryAt(q, days, cfg, i);
    }
  }

  /** With an estimator that always predicts the loss c, the capacity at the
      start of day i is 1 - i * c, with no clamping to [0, 1]. */
  lemma {:induction false} ConstantLossAt(q: seq<real>, days: seq<DayFeatures>, cfg: Config, c: real, i: nat)
    requires cfg.Valid() && IsTrajectory(q, days, cfg) && i < |q|
    requires forall x :: cfg.model.predict(x) == c
    ensures q[i] == 1.0 - (i as real) * c
  {
    if i > 0 {
      ConstantLossAt(q, days, cfg, c, i - 1);
    }
  }

  lemma ConstantLossTrajectory(q: seq<real>, days: seq<DayFeatures>, cfg: Config, c: real)
    requires cfg.Valid() && IsTrajectory(q, days, cfg)
    requires forall x :: cfg.model.predict(x) == c
    ensures forall i :: 0 <= i < |q| ==> q[i] == 1.0 - (i as real) * c
  {
    forall i | 0 <= i < |q|
      ensures q[i] == 1.0 - (i as real) * c
    {
      ConstantLossAt(q, days, cfg, c, i);
    }
  }

  /** The losses the estimator predicts along a trajectory, day by day. */
  function Losses(q: seq<real>, days: seq<DayFeatures>, cfg: Config): seq<real>
    requires cfg.Valid() && |q| == |days|
  {
    seq(|q|, j requires 0 <= j < |q| => DailyLoss(cfg, q[j], days[j]))
  }

  /** The capacity at the start of day i is 1 minus the losses predicted
      for all earlier days. */
  lemma {:induction false} CumulativeLoss(q: seq<real>, days: seq<DayFeatures>, cfg: Config, i: nat)
    requires cfg.Valid() && IsTrajectory(q, days, cfg) && i < |q|
    ensures q[i] == 1.0 - Sum(Losses(q, days, cfg)[..i])
  {
    if i > 0 {
      CumulativeLoss(q, days, cfg, i - 1);
      var losses := Losses(q, days, cfg);
      assert losses[..i][..i - 1] == losses[..i - 1];
    }
  }

  /** If the estimator never predicts a gain, the trajectory never rises
      and never exceeds its start value 1. */
  lemma {:induction false} NonNegativeLossAt(q: seq<real>, days: seq<DayFeatures>, cfg: Config, i: nat, j: nat)
    requires cfg.Valid() && IsTrajectory(q, days, cfg)
    requires forall x :: cfg.model.predict(x) >= 0.0
    requires i <= j < |q|
    ensures q[j] <= q[i] <= 1.0
  {
    if j > i {
      NonNegativeLossAt(q, days, cfg, i, j - 1);
      assert q[j] == q[j - 1] - DailyLoss(cfg, q[j - 1], days[j - 1]);
    } else if i > 0 {
      NonNegativeLossAt(q, days, cfg, 0, i);
    }
  }

  lemma NonNegativeLossNonIncreasing(q: seq<real>, days: seq<DayFeatures>, cfg: Config)
    requires cfg.Valid() && IsTrajectory(q, days, cfg)
    requires forall x :: cfg.model.predict(x) >= 0.0
    ensures forall i, j :: 0 <= i <= j < |q| ==> q[j] <= q[i] <= 1.0
  {
    forall i, j | 0 <= i <= j < |q|
      ensures q[j] <= q[i] <= 1.0
    {
      NonNegativeLossAt(q, days, cfg, i, j);
    }
  }

  /** The value emitted for day i depends only on the days before it: two
      runs that agree on their first i days agree on their first i + 1
      values. */
  lemma {:induction false} EarlierDaysOnly(q1: seq<real>, days1: seq<DayFeatures>,
                                          q2: seq<real>, days2: seq<DayFeatures>,
                                          cfg: Config, i: nat)
    requires cfg.Valid() && IsTrajectory(q1, days1, cfg) && IsTrajectory(q2, days2, cfg)
    requires i < |q1| && i < |q2|
    requires days1[..i] == days2[..i]
    ensures q1[..i + 1] == q2[..i + 1]
  {
    if i > 0 {
      assert days1[..i - 1] == days1[..i][..i - 1];
      EarlierDaysOnly(q1, days1, q2, days2, cfg, i - 1);
      assert q1[i - 1] == q1[..i][i - 1] == q2[i - 1];
      assert days1[i - 1] == days1[..i][i - 1] == days2[i - 1];
      assert q1[..i + 1] == q1[..i] + [q1[i]];
      assert q2[..i + 1] == q2[..i] + [q2[i]];
    }
  }

  /** Normalisation loses nothing: it is undone by z * sigma + mu. */
  lemma NormalizeRoundTrip(x: seq<real>, mu: seq<real>, sigma: seq<real>)
    requires |x| == |mu| == |sigma|
    requires forall j :: 0 <= j < |sigma| ==> sigma[j] != 0.0
    ensures Denormalize(Normalize(x, mu, sigma), mu, sigma) == x
  {
    var z := Normalize(x, mu, sigma);
    forall j | 0 <= j < |x|
      ensures Denormalize(z, mu, sigma)[j] == x[j]
    {
      assert z[j] == (x[j] - mu[j]) / sigma[j];
      assert z[j] * sigma[j] == x[j] - mu[j];
    }
  }

  /** Rescaling is linear in 1 / qnom: multiplying the nominal capacity by s
      divides the T1 and T4 columns by s and leaves the others unchanged. */
  lemma RescaleNominalCapacity(soh0: real, d: DayFeatures, strategy: int, qtr: real, qnom: real, s: real)
    requires qnom != 0.0 && s != 0.0
    ensures DesignRow(soh0, d, strategy, qtr, s * qnom)[1] == DesignRow(soh0, d, strategy, qtr, qnom)[1] / s
    ensures DesignRow(soh0, d, strategy, qtr, s * qnom)[3] == DesignRow(soh0, d, strategy, qtr, qnom)[3] / s
    ensures DesignRow(soh0, d, strategy, qtr, s * qnom)[0] == soh0
    ensures DesignRow(soh0, d, strategy, qtr, s * qnom)[2] == DesignRow(soh0, d, strategy, qtr, qnom)[2]
    ensures DesignRow(soh0, d, strategy, qtr, s * qnom)[4] == DesignRow(soh0, d, strategy, qtr, qnom)[4]
  {
  }

  /** Two idle days (all-zero power), strategy 0, a 5 kWh battery, a model
      trained on 5 kWh and an estimator that always predicts a loss of 0.01:
      the trajectory is [1.0, 0.99]. */
  lemma IdleTwoDays(q: seq<real>, model: Bundle, d0: real)
    requires model.qtr == 5.0
    requires Config(0, 5.0, model).Valid()
    requires forall x :: model.predict(x) == 0.01
    requires IsTrajectory(q, [DayFeatures(0.0, 0.0, d0), DayFeatures(0.0, 0.0, d0 + 1.0)], Config(0, 5.0, model))
    ensures q == [1.0, 0.99]
  {
  }
}

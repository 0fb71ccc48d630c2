/**
 Properties of the workout metrics: how distance and speed scale with the
 readings, which readings a metric ignores, and reference forms of the
 three calorie formulas that do not divide by the duration or the height.
 */
module TrainingProperties {
  import opened Trainings

  /** The same session with a different action count. */
  function WithAction(t: Training, a: real): Training {
    match t
    case Running(_, d, w) => Running(a, d, w)
    case SportsWalking(_, d, w, h) => SportsWalking(a, d, w, h)
    case Swimming(_, d, w, l, c) => Swimming(a, d, w, l, c)
  }

  /** The same session with a different duration. */
  function WithDuration(t: Training, d: real): Training {
    match t
    case Running(a, _, w) => Running(a, d, w)
    case SportsWalking(a, _, w, h) => SportsWalking(a, d, w, h)
    case Swimming(a, _, w, l, c) => Swimming(a, d, w, l, c)
  }

  /** Distance is linear in the action count: scaling the count scales it. */
  lemma DistanceScales(t: Training, k: real)
    ensures Distance(WithAction(t, k * t.action)) == k * Distance(t)
  {
    var u := WithAction(t, k * t.action);
    assert UnitLength(u) == UnitLength(t);
    calc {
      Distance(u);
      k * t.action * UnitLength(t) / MetersInKm;
      k * (t.action * UnitLength(t) / MetersInKm);
    }
  }

  /** Distance is additive in the action count. */
  lemma DistanceAdds(t: Training, a: real, b: real)
    ensures Distance(WithAction(t, a + b))
         == Distance(WithAction(t, a)) + Distance(WithAction(t, b))
  {
  }

  /** A thousand actions cover one step length (0.65 m) or one stroke length
      (1.38 m) in kilometres; with linearity this fixes the distance. */
  lemma DistancePerThousandActions(t: Training)
    ensures Distance(WithAction(t, 1000.0)) == (if t.Swimming? then 1.38 else 0.65)
  {
  }

  /** No actions, no distance and, on foot, no speed. */
  lemma ZeroActionsGoNowhere(t: Training)
    requires t.action == 0.0
    ensures Distance(t) == 0.0
    ensures t.duration != 0.0 && !t.Swimming? ==> MeanSpeed(t) == 0.0
  {
  }

  /** On foot, speed is linear in the action count. */
  lemma SpeedScalesWithAction(t: Training, k: real)
    requires t.duration != 0.0 && !t.Swimming?
    ensures MeanSpeed(WithAction(t, k * t.action)) == k * MeanSpeed(t)
  {
    var u := WithAction(t, k * t.action);
    DistanceScales(t, k);
    ProportionalQuotients(MeanSpeed(u), MeanSpeed(t), k, Distance(t), t.duration);
  }

  /** Two quotients by the same non-zero divisor whose dividends are in
      ratio k are in ratio k. */
  lemma ProportionalQuotients(x: real, y: real, k: real, n: real, d: real)
    requires d != 0.0 && x * d == k * n && y * d == n
    ensures x == k * y
  {
    assert (x - k * y) * d == x * d - k * (y * d);
  }

  /** Changing only the duration keeps speed times duration fixed: speed is
      inversely proportional to the time taken. */
  lemma SpeedInverselyProportionalToDuration(t: Training, d: real)
    requires t.duration != 0.0 && d != 0.0
    ensures MeanSpeed(WithDuration(t, d)) * d == MeanSpeed(t) * t.duration
  {
    var u := WithDuration(t, d);
    assert Distance(u) == Distance(t);
  }

  /** A swim's speed ignores the stroke count: it depends on the pool only. */
  lemma SwimmingSpeedIgnoresAction(t: Training, a: real)
    requires t.Swimming? && t.duration != 0.0
    ensures MeanSpeed(WithAction(t, a)) == MeanSpeed(t)
    ensures SpentCalories(WithAction(t, a)) == SpentCalories(t)
  {
  }

  /** Running calories without the division by the duration: 60 * weight / 1000
      times (18 * distance + 1.79 * duration). */
  lemma RunningCaloriesClosedForm(t: Training)
    requires t.Running? && t.duration != 0.0
    ensures SpentCalories(t) * MetersInKm
         == (18.0 * Distance(t) + 1.79 * t.duration) * t.weight * 60.0
  {
    var v := MeanSpeed(t);
    var d := t.duration;
    var w := t.weight;
    calc {
      SpentCalories(t) * MetersInKm;
      (18.0 * v + 1.79) * w / MetersInKm * d * 60.0 * MetersInKm;
      (18.0 * v + 1.79) * d * w * 60.0;
      { assert (18.0 * v + 1.79) * d == 18.0 * (v * d) + 1.79 * d; }
      (18.0 * (v * d) + 1.79 * d) * w * 60.0;
      (18.0 * Distance(t) + 1.79 * d) * w * 60.0;
    }
  }

  /** Running burns strictly more the more steps are taken, for any runner
      with weight and time. */
  lemma RunningCaloriesIncreaseWithAction(t: Training, a: real, b: real)
    requires t.Running? && t.duration > 0.0 && t.weight > 0.0 && a < b
    ensures SpentCalories(WithAction(t, a)) < SpentCalories(WithAction(t, b))
  {
    var ta := WithAction(t, a);
    var tb := WithAction(t, b);
    RunningCaloriesClosedForm(ta);
    RunningCaloriesClosedForm(tb);
    var d := t.duration;
    assert Distance(ta) < Distance(tb);
    OrderedRates(18.0 * Distance(ta) + 1.79 * d, 18.0 * Distance(tb) + 1.79 * d,
                 t.weight, SpentCalories(ta), SpentCalories(tb));
  }

  /** Calories proportional (with the same positive weight) to ordered rates
      are ordered. */
  lemma OrderedRates(xa: real, xb: real, w: real, ca: real, cb: real)
    requires xa < xb && w > 0.0
    requires ca * MetersInKm == xa * w * 60.0 && cb * MetersInKm == xb * w * 60.0
    ensures ca < cb
  {
    assert (xb - xa) * w > 0.0;
    assert (cb - ca) * MetersInKm == (xb - xa) * w * 60.0;
  }

  /** Sports-walking calories without any division: times duration and height
      they are 60 * weight * (0.035 * height * duration² + 0.029 * (0.278 *
      distance)²). Only speed * 0.278 is squared; height divides once. */
  lemma WalkingCaloriesClosedForm(t: Training)
    requires t.SportsWalking? && t.duration != 0.0 && t.height != 0.0
    ensures SpentCalories(t) * t.duration * t.height
         == 60.0 * t.weight
            * (0.035 * t.height * t.duration * t.duration
               + 0.029 * (0.278 * Distance(t)) * (0.278 * Distance(t)))
  {
    var v := MeanSpeed(t);
    var d := t.duration;
    var h := t.height;
    var w := t.weight;
    var s := v * 0.278;
    var q := s * s / h;
    assert q * h == s * s;
    assert s * d == 0.278 * Distance(t);
    calc {
      SpentCalories(t) * d * h;
      (0.035 * w + q * 0.029 * w) * d * 60.0 * d * h;
      60.0 * w * (0.035 * h * d * d + 0.029 * (q * h) * d * d);
      60.0 * w * (0.035 * h * d * d + 0.029 * (s * d) * (s * d));
    }
  }

  /** A walker who takes no steps still burns 0.035 * 60 = 2.1 kcal per
      kilogram-hour. */
  lemma WalkingAtRest(t: Training)
    requires t.SportsWalking? && t.duration != 0.0 && t.height != 0.0
    requires t.action == 0.0
    ensures SpentCalories(t) == 2.1 * t.weight * t.duration
  {
    assert MeanSpeed(t) == 0.0;
  }

  /** Swimming calories without any division: times 1000 they are
      2 * weight * (pool length * pool count + 1100 * duration). */
  lemma SwimmingCaloriesClosedForm(t: Training)
    requires t.Swimming? && t.duration != 0.0
    ensures SpentCalories(t) * 1000.0
         == 2.0 * t.weight * (t.lengthPool * t.countPool + 1100.0 * t.duration)
  {
    var v := MeanSpeed(t);
    var d := t.duration;
    assert v * d * 1000.0 == t.lengthPool * t.countPool;
    calc {
      SpentCalories(t) * 1000.0;
      (v + 1.1) * 2.0 * t.weight * d * 1000.0;
      2.0 * t.weight * (v * d * 1000.0 + 1100.0 * d);
    }
  }

  /** The summary's type name tells the three kinds of workout apart. */
  lemma TypeNameIdentifiesKind(a: Training, b: Training)
    ensures TypeName(a) == TypeName(b) <==> SameKind(a, b)
  {
    if a.Running? && b.SportsWalking? {
      assert TypeName(a)[1] != TypeName(b)[1];
    }
  }
}

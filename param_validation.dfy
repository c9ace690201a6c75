/**
 * The configuration check the ER constructor runs before anything else
 * (`ER._validate_params`): ten guards in a fixed order, each of which raises
 * on failure. The model returns either `Accepted` or the first guard that
 * fired, and which Python exception class that guard raises.
 */
module ParamValidation {
  import opened PyValues

  /** The validated constructor arguments. */
  datatype Config = Config(
    ylag: Value,
    xlag: Value,
    k: Value,
    nPerm: Value,
    q: Value,
    skipForward: Value,
    extendedLeastSquares: Value,
    modelType: Value)

  /** The guards, named after what they reject, in source order. */
  datatype Check =
    | YlagBelowOne
    | XlagBelowOne
    | XlagType
    | YlagType
    | KInvalid
    | NPermInvalid
    | QInvalid
    | SkipForwardNotBool
    | ExtendedLeastSquaresNotBool
    | UnknownModelType

  datatype Outcome = Accepted | Rejected(failed: Check)

  datatype PyException = ValueError | TypeError | OverflowError

  /** Position of a guard in the chain. */
  function Order(c: Check): (n: nat)
    ensures n < 10
  {
    match c
    case YlagBelowOne => 0
    case XlagBelowOne => 1
    case XlagType => 2
    case YlagType => 3
    case KInvalid => 4
    case NPermInvalid => 5
    case QInvalid => 6
    case SkipForwardNotBool => 7
    case ExtendedLeastSquaresNotBool => 8
    case UnknownModelType => 9
  }

  /** The exception class named by each guard's own `raise` statement: the
      two flag checks raise TypeError, every other check ValueError. */
  function StatedException(c: Check): (e: PyException)
    ensures e == TypeError <==> c in {SkipForwardNotBool, ExtendedLeastSquaresNotBool}
  {
    match c
    case SkipForwardNotBool => TypeError
    case ExtendedLeastSquaresNotBool => TypeError
    case _ => ValueError
  }

  const MODEL_TYPES: seq<string> := ["NARMAX", "NAR", "NFIR"]

  /** `isinstance(v, int) and v < 1` (lines 199 and 202). */
  predicate IntBelowOne(v: Value) {
    IsInt(v) && IntValue(v) < 1
  }

  /** `not isinstance(v, (int, list))` (lines 205 and 208). */
  predicate NeitherIntNorList(v: Value) {
    !(IsInt(v) || IsList(v))
  }

  /** `not isinstance(v, int) or v < 1` (lines 211 and 214). */
  predicate NotPositiveInt(v: Value) {
    !IsInt(v) || IntValue(v) < 1
  }

  /** `not isinstance(q, float) or q > 1 or q <= 0` (line 217), as written. */
  predicate QOutOfRange(v: Value) {
    !IsFloat(v) || Greater(v.f, 1.0) || AtMost(v.f, 0.0)
  }

  /** The guard line 217 evidently means: q is a float and 0 < q <= 1. */
  predicate QOutsideUnitInterval(v: Value) {
    !(IsFloat(v) && v.f.Finite? && 0.0 < v.f.v <= 1.0)
  }

  /** Whether guard `c` fires on `cfg`, as the source writes each test. Each
      guard rejects exactly the values outside its parameter's domain that it
      is responsible for: a lag's bound check rejects the ints below 1, its
      type check everything that is neither an int nor a list. */
  function Fires(cfg: Config, c: Check): (fired: bool)
    ensures c == YlagBelowOne ==> (fired <==> IsInt(cfg.ylag) && !LagAccepted(cfg.ylag))
    ensures c == XlagBelowOne ==> (fired <==> IsInt(cfg.xlag) && !LagAccepted(cfg.xlag))
    ensures c == XlagType ==> (fired <==> !IsInt(cfg.xlag) && !LagAccepted(cfg.xlag))
    ensures c == YlagType ==> (fired <==> !IsInt(cfg.ylag) && !LagAccepted(cfg.ylag))
    ensures c == KInvalid ==> (fired <==> !PositiveInt(cfg.k))
    ensures c == NPermInvalid ==> (fired <==> !PositiveInt(cfg.nPerm))
    ensures c == QInvalid ==> (fired <==> !QAcceptedAsWritten(cfg.q))
    ensures c == SkipForwardNotBool ==> (fired <==> !IsBool(cfg.skipForward))
    ensures c == ExtendedLeastSquaresNotBool ==> (fired <==> !IsBool(cfg.extendedLeastSquares))
    ensures c == UnknownModelType ==> (fired <==> !KnownModelType(cfg.modelType))
  {
    match c
    case YlagBelowOne => IntBelowOne(cfg.ylag)
    case XlagBelowOne => IntBelowOne(cfg.xlag)
    case XlagType => NeitherIntNorList(cfg.xlag)
    case YlagType => NeitherIntNorList(cfg.ylag)
    case KInvalid => NotPositiveInt(cfg.k)
    case NPermInvalid => NotPositiveInt(cfg.nPerm)
    case QInvalid => QOutOfRange(cfg.q)
    case SkipForwardNotBool => !IsBool(cfg.skipForward)
    case ExtendedLeastSquaresNotBool => !IsBool(cfg.extendedLeastSquares)
    case UnknownModelType => !(cfg.modelType.PyStr? && cfg.modelType.s in MODEL_TYPES)
  }

  /** The value guard `c` reports in its message. */
  function Subject(cfg: Config, c: Check): (v: Value)
    ensures c in {YlagBelowOne, YlagType} ==> v == cfg.ylag
    ensures c in {XlagBelowOne, XlagType} ==> v == cfg.xlag
  {
    match c
    case YlagBelowOne => cfg.ylag
    case XlagBelowOne => cfg.xlag
    case XlagType => cfg.xlag
    case YlagType => cfg.ylag
    case KInvalid => cfg.k
    case NPermInvalid => cfg.nPerm
    case QInvalid => cfg.q
    case SkipForwardNotBool => cfg.skipForward
    case ExtendedLeastSquaresNotBool => cfg.extendedLeastSquares
    case UnknownModelType => cfg.modelType
  }

  /** `"... %f" % v` succeeds for floats and for ints (bools included) that
      convert to a finite double. A string, a list or None makes the
      formatting raise TypeError; an int beyond the double range makes it
      raise OverflowError. */
  predicate FormatsAsFloat(v: Value) {
    IsFloat(v) || (IsInt(v) && IntFitsFloat(IntValue(v)))
  }

  /** The exception that leaves the validator when guard `c` fires. Every
      message but the model type's (which uses `%s`) formats its value with
      `%f`, and a value `%f` cannot format raises while the message is built,
      before the stated exception is created. */
  function Raises(cfg: Config, c: Check): (e: PyException)
    ensures c == UnknownModelType ==> e == ValueError
    ensures FormatsAsFloat(Subject(cfg, c)) ==> e == StatedException(c)
    ensures e == OverflowError <==>
              c != UnknownModelType && IsInt(Subject(cfg, c)) && !IntFitsFloat(IntValue(Subject(cfg, c)))
    ensures e == ValueError ==> StatedException(c) == ValueError
  {
    var v := Subject(cfg, c);
    if c == UnknownModelType then ValueError
    else if IsInt(v) && !IntFitsFloat(IntValue(v)) then OverflowError
    else if !FormatsAsFloat(v) then TypeError
    else StatedException(c)
  }

  /** The chain of guards in source order; `qRejected` is the outcome of the
      q guard, the one place where the as-written and the intended validator
      differ. It accepts exactly when no guard fires, and otherwise reports
      the first guard that does. */
  function RunChecks(cfg: Config, qRejected: bool): (r: Outcome)
    ensures r.Accepted? <==> !qRejected && forall c :: c != QInvalid ==> !Fires(cfg, c)
    ensures r.Rejected? && r.failed != QInvalid ==> Fires(cfg, r.failed)
    ensures r == Rejected(QInvalid) ==> qRejected
    ensures r.Rejected? ==> forall c :: Order(c) < Order(r.failed) ==>
              if c == QInvalid then !qRejected else !Fires(cfg, c)
  {
    if Fires(cfg, YlagBelowOne) then Rejected(YlagBelowOne)
    else if Fires(cfg, XlagBelowOne) then Rejected(XlagBelowOne)
    else if Fires(cfg, XlagType) then Rejected(XlagType)
    else if Fires(cfg, YlagType) then Rejected(YlagType)
    else if Fires(cfg, KInvalid) then Rejected(KInvalid)
    else if Fires(cfg, NPermInvalid) then Rejected(NPermInvalid)
    else if qRejected then Rejected(QInvalid)
    else if Fires(cfg, SkipForwardNotBool) then Rejected(SkipForwardNotBool)
    else if Fires(cfg, ExtendedLeastSquaresNotBool) then Rejected(ExtendedLeastSquaresNotBool)
    else if Fires(cfg, UnknownModelType) then Rejected(UnknownModelType)
    else Accepted
  }

  // ---------------------------------------------------------------------------
  // The values the guards let through, stated parameter by parameter rather
  // than guard by guard.

  /** A lag is an int (or bool) that is at least 1, or any list. */
  predicate LagAccepted(v: Value) {
    (IsInt(v) && IntValue(v) >= 1) || IsList(v)
  }

  /** `k` and `n_perm`: an int (or bool) that is at least 1. */
  predicate PositiveInt(v: Value) {
    IsInt(v) && IntValue(v) >= 1
  }

  /** What line 217 lets through: a float in (0, 1], or a float NaN. */
  predicate QAcceptedAsWritten(v: Value) {
    IsFloat(v) && (v.f.NaN? || (v.f.Finite? && 0.0 < v.f.v <= 1.0))
  }

  /** The intended domain of q: a float in (0, 1]. */
  predicate QInUnitInterval(v: Value) {
    IsFloat(v) && v.f.Finite? && 0.0 < v.f.v <= 1.0
  }

  predicate KnownModelType(v: Value) {
    v.PyStr? && (v.s == "NARMAX" || v.s == "NAR" || v.s == "NFIR")
  }

  /** Every parameter lies in the domain the guards accept (q as line 217
      checks it, NaN included). */
  predicate WithinDomain(cfg: Config) {
    && LagAccepted(cfg.ylag)
    && LagAccepted(cfg.xlag)
    && PositiveInt(cfg.k)
    && PositiveInt(cfg.nPerm)
    && QAcceptedAsWritten(cfg.q)
    && IsBool(cfg.skipForward)
    && IsBool(cfg.extendedLeastSquares)
    && KnownModelType(cfg.modelType)
  }

  /** `ER._validate_params` as written. The outcome is `Accepted` exactly when
      every parameter lies in the domain the guards accept; otherwise it names the earliest
      guard in source order that fires. */
  function ValidateParams(cfg: Config): (r: Outcome)
    ensures r.Accepted? <==> WithinDomain(cfg)
    ensures r.Accepted? <==> forall c :: !Fires(cfg, c)
    ensures r.Rejected? ==> Fires(cfg, r.failed)
    ensures r.Rejected? ==> forall c :: Order(c) < Order(r.failed) ==> !Fires(cfg, c)
  {
    RunChecks(cfg, Fires(cfg, QInvalid))
  }

  /** The validator with line 217 read as intended: NaN is rejected too. An
      accepted configuration has q a finite float in (0, 1]. */
  function ValidateParamsIntended(cfg: Config): (r: Outcome)
    ensures r.Accepted? <==> WithinDomain(cfg) && QInUnitInterval(cfg.q)
    ensures r.Accepted? ==> cfg.q.PyFloat? && cfg.q.f.Finite? && 0.0 < cfg.q.f.v <= 1.0
    ensures r.Rejected? && r.failed != QInvalid ==> Fires(cfg, r.failed)
    ensures !cfg.q.PyFloat? || !cfg.q.f.NaN? ==> r == ValidateParams(cfg)
  {
    RunChecks(cfg, QOutsideUnitInterval(cfg.q))
  }

  // ---------------------------------------------------------------------------
  // Properties of single parameters.

  /** The outcome depends only on which guards fire. */
  lemma SameGuardsSameOutcome(cfg1: Config, cfg2: Config)
    requires forall c :: Fires(cfg1, c) == Fires(cfg2, c)
    ensures ValidateParams(cfg1) == ValidateParams(cfg2)
  {
    assert Fires(cfg1, QInvalid) == Fires(cfg2, QInvalid);
  }

  /** An integer lag below 1 is rejected, by one of the two bound checks. */
  lemma IntLagBelowOneRejected(cfg: Config)
    requires IntBelowOne(cfg.ylag) || IntBelowOne(cfg.xlag)
    ensures ValidateParams(cfg).Rejected?
    ensures ValidateParams(cfg).failed in {YlagBelowOne, XlagBelowOne}
  {
  }

  /** A list-valued lag is accepted without looking at its elements: any two
      lists, and the int 1, lead to the same outcome. */
  lemma ListLagNotInspected(cfg: Config, a: seq<Value>, b: seq<Value>)
    ensures ValidateParams(cfg.(ylag := PyList(a))) == ValidateParams(cfg.(ylag := PyList(b)))
    ensures ValidateParams(cfg.(ylag := PyList(a))) == ValidateParams(cfg.(ylag := PyInt(1)))
    ensures ValidateParams(cfg.(xlag := PyList(a))) == ValidateParams(cfg.(xlag := PyList(b)))
    ensures ValidateParams(cfg.(xlag := PyList(a))) == ValidateParams(cfg.(xlag := PyInt(1)))
  {
    ListLagActsAsOne(cfg, a);
    ListLagActsAsOne(cfg, b);
  }

  /** A list lag, in either position, gives the outcome of the lag 1. */
  lemma ListLagActsAsOne(cfg: Config, a: seq<Value>)
    ensures ValidateParams(cfg.(ylag := PyList(a))) == ValidateParams(cfg.(ylag := PyInt(1)))
    ensures ValidateParams(cfg.(xlag := PyList(a))) == ValidateParams(cfg.(xlag := PyInt(1)))
  {
    SameGuardsSameOutcome(cfg.(ylag := PyList(a)), cfg.(ylag := PyInt(1)));
    SameGuardsSameOutcome(cfg.(xlag := PyList(a)), cfg.(xlag := PyInt(1)));
  }

  /** A lag of any other type (a float such as 2.0, a string, None) is never
      accepted. */
  lemma OtherLagTypeRejected(cfg: Config)
    requires NeitherIntNorList(cfg.ylag) || NeitherIntNorList(cfg.xlag)
    ensures ValidateParams(cfg).Rejected?
    ensures ValidateParams(cfg).failed in {XlagBelowOne, YlagBelowOne, XlagType, YlagType}
  {
  }

  /** `k` and `n_perm` pass only as ints (bool included) of value at least 1;
      in particular `k = True` passes its check. */
  lemma CountParameters(cfg: Config)
    ensures ValidateParams(cfg).Accepted? ==> PositiveInt(cfg.k) && PositiveInt(cfg.nPerm)
    ensures cfg.k == PyBool(true) ==> !Fires(cfg, KInvalid)
    ensures cfg.k == PyFloat(Finite(2.0)) ==> ValidateParams(cfg) != Accepted
  {
  }

  /** The int 1 and the float 0.0 are not valid values of q; 1.0 is. */
  lemma QBoundaryValues(cfg: Config)
    ensures Fires(cfg.(q := PyInt(1)), QInvalid)
    ensures Fires(cfg.(q := PyFloat(Finite(0.0))), QInvalid)
    ensures !Fires(cfg.(q := PyFloat(Finite(1.0))), QInvalid)
    ensures Fires(cfg.(q := PyFloat(PosInf)), QInvalid)
  {
  }

  /** The range test of line 217, `q > 1 or q <= 0`, is false for a float q
      exactly when q is in (0, 1] or NaN: for NaN both comparisons are false. */
  lemma QRangeTest(x: Float)
    ensures !(Greater(x, 1.0) || AtMost(x, 0.0)) <==> x.NaN? || (x.Finite? && 0.0 < x.v <= 1.0)
    ensures x.NaN? ==> !Greater(x, 1.0) && !AtMost(x, 0.0)
  {
    GreaterOrAtMost(x, 1.0);
    GreaterOrAtMost(x, 0.0);
  }

  /** The guard that fails names a TypeError exactly when it is a flag check,
      which the chain reaches only when every earlier guard passes. */
  lemma FlagsRaiseTypeError(cfg: Config)
    requires ValidateParams(cfg).Rejected?
    ensures StatedException(ValidateParams(cfg).failed) == TypeError <==>
              (!IsBool(cfg.skipForward) || !IsBool(cfg.extendedLeastSquares))
              && forall c :: Order(c) < Order(SkipForwardNotBool) ==> !Fires(cfg, c)
  {
    var f := ValidateParams(cfg).failed;
    if StatedException(f) == TypeError {
      assert f == SkipForwardNotBool || f == ExtendedLeastSquaresNotBool;
    } else if !IsBool(cfg.skipForward) || !IsBool(cfg.extendedLeastSquares) {
      assert Order(f) < Order(SkipForwardNotBool);
      assert Fires(cfg, f);
    }
  }

  /** Which exception actually escapes. A lag below 1 gives ValueError, or
      OverflowError when it is beyond the double range. A lag of the wrong
      type gives ValueError only when it is a float. A non-bool flag gives
      TypeError, or OverflowError for an int beyond the double range.
      OverflowError only ever comes from an int. ValueError only ever comes
      from a value `%f` can format, or from the model type. */
  lemma RaisedException(cfg: Config)
    requires ValidateParams(cfg).Rejected?
    ensures var f := ValidateParams(cfg).failed;
            var v := Subject(cfg, f);
            && (f in {YlagBelowOne, XlagBelowOne} ==>
                  Raises(cfg, f) != TypeError && (Raises(cfg, f) == ValueError <==> FormatsAsFloat(v)))
            && (f in {XlagType, YlagType} ==> (Raises(cfg, f) == ValueError <==> IsFloat(v)))
            && (f in {XlagType, YlagType} ==> Raises(cfg, f) != OverflowError)
            && (f in {SkipForwardNotBool, ExtendedLeastSquaresNotBool} ==>
                  Raises(cfg, f) != ValueError && (Raises(cfg, f) == TypeError <==> !IsInt(v) || FormatsAsFloat(v)))
            && (Raises(cfg, f) == OverflowError ==> IsInt(v))
            && (Raises(cfg, f) == ValueError ==> f == UnknownModelType || FormatsAsFloat(v))
  {
  }

  /** An int lag of -(2^1024 - 2^970) is below 1, but formatting it for the
      message overflows; one more and the ValueError is raised. An int flag
      of that size overflows instead of raising the TypeError. */
  lemma HugeIntsOverflow()
    ensures ValidateParams(DEFAULTS.(ylag := PyInt(-FLOAT_OVERFLOW))) == Rejected(YlagBelowOne)
    ensures Raises(DEFAULTS.(ylag := PyInt(-FLOAT_OVERFLOW)), YlagBelowOne) == OverflowError
    ensures Raises(DEFAULTS.(ylag := PyInt(1 - FLOAT_OVERFLOW)), YlagBelowOne) == ValueError
    ensures ValidateParams(DEFAULTS.(skipForward := PyInt(FLOAT_OVERFLOW))) == Rejected(SkipForwardNotBool)
    ensures Raises(DEFAULTS.(skipForward := PyInt(FLOAT_OVERFLOW)), SkipForwardNotBool) == OverflowError
  {
  }

  /** A string lag is rejected by its type guard, and the formatting of the
      message turns the stated ValueError into a TypeError; a float lag gets
      the ValueError. */
  lemma StringLagRaisesTypeError()
    ensures ValidateParams(DEFAULTS.(ylag := PyStr("2"))) == Rejected(YlagType)
    ensures Raises(DEFAULTS.(ylag := PyStr("2")), YlagType) == TypeError
    ensures StatedException(YlagType) == ValueError
    ensures ValidateParams(DEFAULTS.(ylag := PyFloat(Finite(2.0)))) == Rejected(YlagType)
    ensures Raises(DEFAULTS.(ylag := PyFloat(Finite(2.0))), YlagType) == ValueError
  {
  }

  /** Outcome of the constructor's default arguments. */
  const DEFAULTS: Config := Config(
    PyInt(2), PyInt(2), PyInt(2), PyInt(200), PyFloat(Finite(0.99)),
    PyBool(false), PyBool(false), PyStr("NARMAX"))

  lemma DefaultsAccepted()
    ensures ValidateParams(DEFAULTS) == Accepted
    ensures ValidateParamsIntended(DEFAULTS) == Accepted
  {
  }

  /** Line 217 as written accepts q = NaN, although its own message requires
      q to lie between 0 and 1; the intended check rejects it. */
  lemma NaNQuantileAccepted()
    ensures ValidateParams(DEFAULTS.(q := PyFloat(NaN))) == Accepted
    ensures ValidateParamsIntended(DEFAULTS.(q := PyFloat(NaN))) == Rejected(QInvalid)
  {
  }
}

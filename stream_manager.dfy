/**
 * Two helpers of the live stream manager: the reconnect backoff `getDelay`
 * and the data source key `datasourceKey`. Durations are Go's
 * `time.Duration`, a signed 64-bit count of nanoseconds.
 */
module StreamManager {
  import opened Wrappers
  import JsNumber

  const Millisecond: int := 1_000_000
  const Second: int := 1_000_000_000

  /** `coolDownDelay`. */
  const CoolDownDelay: int := 100 * Millisecond
  /** `maxDelay`. */
  const MaxDelay: int := 5 * Second

  const TwoTo63: int := 0x8000_0000_0000_0000
  const TwoTo64: int := 0x1_0000_0000_0000_0000

  function Pow2(n: nat): (r: nat)
    ensures r >= 1
  {
    if n == 0 then 1 else 2 * Pow2(n - 1)
  }

  lemma {:induction false} Pow2Monotone(n: nat, m: nat)
    requires n <= m
    ensures Pow2(n) <= Pow2(m)
  {
    if n < m {
      Pow2Monotone(n, m - 1);
    }
  }

  lemma {:induction false} Pow2Add(a: nat, b: nat)
    ensures Pow2(a + b) == Pow2(a) * Pow2(b)
  {
    if b > 0 {
      Pow2Add(a, b - 1);
    }
  }

  lemma Pow2Of36()
    ensures Pow2(36) == 68719476736
  {
    assert Pow2(6) == 64;
    Pow2Add(6, 6);
    assert Pow2(12) == 4096;
    Pow2Add(12, 12);
    assert Pow2(24) == 16777216;
    Pow2Add(24, 12);
  }

  /** Two's complement wrap-around of an `int64` product. */
  function WrapInt64(x: int): (r: int)
    ensures -TwoTo63 <= r < TwoTo63
    ensures -TwoTo63 <= x < TwoTo63 ==> r == x
  {
    var m := x % TwoTo64;
    if m >= TwoTo63 then m - TwoTo64 else m
  }

  /**
   * `getDelay(numErrors)` as written: `math.Pow(2, n)` is exact and
   * `time.Duration` of it fits `int64` up to n = 62 (below 0 it is a
   * fraction truncated to 0), but the product with `coolDownDelay` wraps.
   * None for n >= 63, where Go leaves the float conversion to the
   * implementation.
   */
  function GetDelayAsWritten(numErrors: int): (r: Option<int>)
    ensures numErrors <= 62 <==> r.Some?
  {
    if numErrors == 0 then Some(0)
    else if numErrors < 0 then Some(0)
    else if numErrors >= 63 then None
    else
      var delay := WrapInt64(CoolDownDelay * Pow2(numErrors));
      Some(if delay > MaxDelay then MaxDelay else delay)
  }

  /**
   * At 37 errors the product passes 2^63 and wraps to a negative delay,
   * so the backoff falls from its 5s cap back below zero. This is a latent
   * defect of `getDelay` taken alone: `runStream` calls it only while the
   * delay is still below the cap (manager.go:179-184), which it reaches at
   * 6 errors, so that caller never passes 37.
   */
  lemma AsWrittenWrapsAt37()
    ensures GetDelayAsWritten(36) == Some(MaxDelay)
    ensures GetDelayAsWritten(37).Some? && GetDelayAsWritten(37).value < 0
  {
    Pow2Of36();
    assert Pow2(37) == 137438953472;
  }

  /**
   * Not every count from 37 on wraps negative: the product is 390625·2^(n+8)
   * modulo 2^64, which is positive again at 38 (and then capped) and exactly
   * 0 from 56 to 62.
   */
  lemma AsWrittenWrapsUnevenly()
    ensures GetDelayAsWritten(38) == Some(MaxDelay)
    ensures GetDelayAsWritten(56) == Some(0)
  {
    Pow2Of36();
    assert Pow2(2) == 4;
    Pow2Add(36, 2);
    assert Pow2(8) == 256;
    Pow2Add(12, 8);
    assert Pow2(56) == Pow2(36) * Pow2(20) by { Pow2Add(36, 20); }
  }

  /** The reconnect delay with the product capped before it can wrap. */
  function GetDelay(numErrors: int): (r: int)
  {
    if numErrors <= 0 then 0
    else if CoolDownDelay * Pow2(numErrors) > MaxDelay then MaxDelay
    else CoolDownDelay * Pow2(numErrors)
  }

  /** No errors, no delay; never more than `maxDelay`, never negative. */
  lemma GetDelayBounds(numErrors: int)
    ensures GetDelay(0) == 0
    ensures 0 <= GetDelay(numErrors) <= MaxDelay
  {
  }

  /** `100ms·2ⁿ` exactly, as long as that is at most `maxDelay`. */
  lemma GetDelayExact(numErrors: int)
    requires numErrors >= 1 && CoolDownDelay * Pow2(numErrors) <= MaxDelay
    ensures GetDelay(numErrors) == CoolDownDelay * Pow2(numErrors)
  {
  }

  /** More errors never shorten the delay. */
  lemma GetDelayMonotone(n: int, m: int)
    requires n <= m
    ensures GetDelay(n) <= GetDelay(m)
  {
    if n > 0 {
      Pow2Monotone(n, m);
    }
  }

  /** The written code and the capped one agree for every count below 37. */
  lemma AsWrittenAgreesBelow37(numErrors: int)
    requires numErrors <= 36
    ensures GetDelayAsWritten(numErrors) == Some(GetDelay(numErrors))
  {
    if numErrors > 0 {
      var p := Pow2(numErrors);
      Pow2Monotone(numErrors, 36);
      Pow2Of36();
      assert p <= 68719476736;
      assert CoolDownDelay * p <= CoolDownDelay * 68719476736;
      assert WrapInt64(CoolDownDelay * p) == CoolDownDelay * p;
    }
  }

  /** `datasourceKey(orgID, dsUID)`: `"<org>_<uid>"`. */
  function DatasourceKey(orgId: int, dsUid: string): (k: string)
    ensures |k| == |JsNumber.IntToString(orgId)| + 1 + |dsUid|
    ensures k[..|JsNumber.IntToString(orgId)|] == JsNumber.IntToString(orgId)
    ensures k[|JsNumber.IntToString(orgId)|] == '_'
    ensures k[|JsNumber.IntToString(orgId)| + 1..] == dsUid
  {
    JsNumber.IntToString(orgId) + "_" + dsUid
  }

  lemma NoUnderscore(i: int)
    ensures forall k :: 0 <= k < |JsNumber.IntToString(i)| ==> JsNumber.IntToString(i)[k] != '_'
  {
    if i < 0 {
      assert JsNumber.IntToString(i) == "-" + JsNumber.NatToString(-i);
    }
  }

  /** Different org/uid pairs never share a key. */
  lemma DatasourceKeyInjective(o1: int, u1: string, o2: int, u2: string)
    requires DatasourceKey(o1, u1) == DatasourceKey(o2, u2)
    ensures o1 == o2 && u1 == u2
  {
    var a, c := JsNumber.IntToString(o1), JsNumber.IntToString(o2);
    var k := DatasourceKey(o1, u1);
    NoUnderscore(o1);
    NoUnderscore(o2);
    assert a == c;
    JsNumber.ParseIntOfIntToString(o1);
    JsNumber.ParseIntOfIntToString(o2);
  }
}

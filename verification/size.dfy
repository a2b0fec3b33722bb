/**
 * `get_size`: scaling a byte count onto the unit ladder "", K, M, G, T, P by
 * repeated division by 1024.
 */
module Size {
  import opened Wrappers
  import opened Text

  /** The unit ladder, smallest first; each unit is 1024 times the one before. */
  const Units: seq<string> := ["", "K", "M", "G", "T", "P"]

  const Factor: real := 1024.0

  /** 1024 to the power `k`. */
  function Pow1024(k: nat): (p: real)
    ensures p >= 1.0
  {
    if k == 0 then 1.0 else Factor * Pow1024(k - 1)
  }

  lemma {:induction false} Pow1024Monotonic(j: nat, k: nat)
    requires j <= k
    ensures Pow1024(j) <= Pow1024(k)
  {
    if j < k {
      Pow1024Monotonic(j, k - 1);
    }
  }

  /** A scaled quantity: `magnitude` in the unit `Units[unit]`. */
  datatype Scaled = Scaled(magnitude: real, unit: nat)

  /** `m` multiplied by 1024 `j` times: a magnitude `j` ladder steps up, back in the units of step 0. */
  function Unscale(m: real, j: nat): real
  {
    if j == 0 then m else Factor * Unscale(m, j - 1)
  }

  /**
   * The loop of `get_size` entered at ladder step `k` with running value `v`:
   * return at the first step where the value is below 1024, otherwise divide
   * and move on; past the last step the loop ends without returning.
   */
  function ScaleFrom(v: real, k: nat): (r: Option<Scaled>)
    requires k <= |Units|
    ensures r.None? <==> k == |Units| || v >= Pow1024(|Units| - k)
    ensures r.Some? ==> k <= r.value.unit < |Units| && r.value.magnitude < Factor
    ensures r.Some? ==> Unscale(r.value.magnitude, r.value.unit - k) == v
    ensures r.Some? && r.value.unit > k ==> v >= Pow1024(r.value.unit - k)
    decreases |Units| - k
  {
    if k == |Units| then None
    else if v < Factor then Some(Scaled(v, k))
    else ScaleFrom(v / Factor, k + 1)
  }

  /** `Unscale` is multiplication by a power of 1024. */
  lemma {:induction false} UnscaleIsProduct(m: real, j: nat)
    ensures Unscale(m, j) == m * Pow1024(j)
  {
    if j > 0 {
      UnscaleIsProduct(m, j - 1);
      ScaleStep(m, Pow1024(j - 1), Unscale(m, j));
    }
  }

  /** One division step undone: if `m * p` is `v / 1024` then `m * (1024 * p)` is `v`. */
  lemma ScaleStep(m: real, p: real, v: real)
    requires m * p == v / Factor
    ensures m * (Factor * p) == v
  {
    calc {
      m * (Factor * p);
      Factor * (m * p);
      Factor * (v / Factor);
    }
  }

  /**
   * `get_size(bytes)` before rendering. `None` is what the function returns
   * when the loop runs off the end of the ladder: for 1024^6 bytes and more.
   */
  function GetSize(bytes: real): (r: Option<Scaled>)
    ensures r.None? <==> bytes >= Pow1024(|Units|)
    ensures r.Some? ==>
      && r.value.unit < |Units|
      && r.value.magnitude == bytes / Pow1024(r.value.unit)
      && r.value.magnitude < Factor
      && (r.value.unit > 0 ==> bytes >= Pow1024(r.value.unit))
    ensures bytes < Factor ==> r == Some(Scaled(bytes, 0))
  {
    var r := ScaleFrom(bytes, 0);
    if r.Some? then
      var m, u := r.value.magnitude, r.value.unit;
      UnscaleQuotient(m, u, bytes);
      r
    else r
  }

  /** A magnitude scaled back up to `b` is `b` divided by the matching power of 1024. */
  lemma UnscaleQuotient(m: real, j: nat, b: real)
    requires Unscale(m, j) == b
    ensures m == b / Pow1024(j)
  {
    UnscaleIsProduct(m, j);
    QuotientOfProduct(m, Pow1024(j), b);
  }

  lemma QuotientOfProduct(m: real, p: real, b: real)
    requires p >= 1.0 && m * p == b
    ensures m == b / p
  {
    assert (b / p) * p == b;
    assert (m - b / p) * p == 0.0;
  }

  /**
   * Every division `get_size` made before returning started from a value of
   * at least 1024: at step `j` the running value is `bytes / 1024^j`, so
   * `bytes` is at least 1024 times 1024^j.
   */
  lemma EarlierStepsAtLeastFactor(bytes: real)
    requires bytes < Pow1024(|Units|)
    ensures GetSize(bytes).Some?
    ensures forall j :: 0 <= j < GetSize(bytes).value.unit ==> Factor * Pow1024(j) <= bytes
  {
    var u := GetSize(bytes).value.unit;
    forall j | 0 <= j < u
      ensures Factor * Pow1024(j) <= bytes
    {
      Pow1024Monotonic(j + 1, u);
    }
  }

  /** `k` is the ladder step at which `bytes` is shown: the largest power of 1024 not above it, below 1024^6. */
  ghost predicate FitsUnit(bytes: real, k: nat)
  {
    && k < |Units|
    && (k == 0 || Pow1024(k) <= bytes)
    && bytes < Pow1024(k + 1)
  }

  /** `get_size` shows `bytes` at step `k`, as `bytes / 1024^k`, exactly when step `k` fits it. */
  lemma GetSizeFitsUnit(bytes: real, k: nat)
    ensures GetSize(bytes) == Some(Scaled(bytes / Pow1024(k), k)) <==> FitsUnit(bytes, k)
  {
    var r := GetSize(bytes);
    if FitsUnit(bytes, k) {
      Pow1024Monotonic(k + 1, |Units|);
      var u := r.value.unit;
      if u < k {
        Pow1024Monotonic(u + 1, k);
      } else if u > k {
        Pow1024Monotonic(k + 1, u);
      }
    }
  }

  /** A larger byte count is never shown at a smaller unit, nor with a smaller magnitude at the same unit. */
  lemma GetSizeMonotonic(a: real, b: real)
    requires a <= b && GetSize(b).Some?
    ensures GetSize(a).Some?
    ensures GetSize(a).value.unit <= GetSize(b).value.unit
    ensures GetSize(a).value.unit == GetSize(b).value.unit ==>
      GetSize(a).value.magnitude <= GetSize(b).value.magnitude
  {
    var ua, ub := GetSize(a).value.unit, GetSize(b).value.unit;
    if ua > ub {
      Pow1024Monotonic(ub + 1, ua);
    }
  }

  /** Sample byte counts and their scaling: 0, 1023, 1024, 1536 and 2 * 1024^5 bytes, and 1024^6 where the ladder runs out. */
  lemma GetSizeExamples()
    ensures GetSize(0.0) == Some(Scaled(0.0, 0))
    ensures GetSize(1023.0) == Some(Scaled(1023.0, 0))
    ensures GetSize(1024.0) == Some(Scaled(1.0, 1))
    ensures GetSize(1536.0) == Some(Scaled(1.5, 1))
    ensures GetSize(2.0 * Pow1024(5)) == Some(Scaled(2.0, 5))
    ensures GetSize(Pow1024(6)) == None
  {
    GetSizeFitsUnit(1024.0, 1);
    GetSizeFitsUnit(1536.0, 1);
    GetSizeFitsUnit(2.0 * Pow1024(5), 5);
  }

  /**
   * The text `get_size(bytes, suffix)` contributes to an f-string: the
   * two-decimal magnitude, the unit letter and the suffix, or `None` when the
   * function returned nothing.
   */
  function SizeText(bytes: real, suffix: string, fmt: NumberFormat): string
  {
    match GetSize(bytes)
    case None => "None"
    case Some(s) => fmt.fixed2(s.magnitude) + Units[s.unit] + suffix
  }

  /**
   * The rendered size is `None` from 1024^6 bytes up, ends with the suffix
   * below that, and below 1024 is the two-decimal value itself.
   */
  lemma SizeTextShape(bytes: real, suffix: string, fmt: NumberFormat)
    ensures bytes >= Pow1024(|Units|) ==> SizeText(bytes, suffix, fmt) == "None"
    ensures bytes < Pow1024(|Units|) ==>
      var r := SizeText(bytes, suffix, fmt);
      |r| >= |suffix| && r[|r| - |suffix|..] == suffix
    ensures bytes < Factor ==> SizeText(bytes, suffix, fmt) == fmt.fixed2(bytes) + suffix
  {
  }

  /**
   * At the ladder step `k` that fits `bytes`, the text is the two-decimal
   * rendering of `bytes / 1024^k`, then the unit letter of step `k`, then
   * the suffix.
   */
  lemma SizeTextAtUnit(bytes: real, suffix: string, fmt: NumberFormat, k: nat)
    requires FitsUnit(bytes, k)
    ensures SizeText(bytes, suffix, fmt) == fmt.fixed2(bytes / Pow1024(k)) + Units[k] + suffix
  {
    GetSizeFitsUnit(bytes, k);
  }

  /** Sample byte counts rendered with the default suffix: 1024 bytes is 1.00 KB, 2 * 1024^5 bytes is 2.00 PB. */
  lemma SizeTextExamples(fmt: NumberFormat)
    ensures SizeText(1024.0, "B", fmt) == fmt.fixed2(1.0) + "KB"
    ensures SizeText(2.0 * Pow1024(5), "B", fmt) == fmt.fixed2(2.0) + "PB"
  {
    SizeTextAtUnit(1024.0, "B", fmt, 1);
    SizeTextAtUnit(2.0 * Pow1024(5), "B", fmt, 5);
    assert Pow1024(6) == 1024.0 * Pow1024(5);
  }
}

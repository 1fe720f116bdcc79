/** fancyprint/utils.py: cell alignment and the tracker's delta functions. */
module Utils {
  import opened Wrappers
  import opened PyStr

  /** `stralign(s, n, mode)`: `ljust`, `rjust` or `center` by mode; any other mode
      raises ValueError. */
  function StrAlign(s: string, n: int, mode: string): (r: Result<string>)
    ensures r.Success? <==> mode == "l" || mode == "r" || mode == "c"
    ensures r.Failure? ==> r.error == ValueError
    ensures r.Success? ==> |r.value| == Max(|s|, n)
    ensures r.Success? && |s| >= n ==> r.value == s
    ensures mode == "l" ==> r == Success(LJust(s, n))
    ensures mode == "r" ==> r == Success(RJust(s, n))
    ensures mode == "c" ==> r == Success(Center(s, n))
  {
    match mode
    case "l" => Success(LJust(s, n))
    case "r" => Success(RJust(s, n))
    case "c" => Success(Center(s, n))
    case _ => Failure(ValueError)
  }

  /** Where `stralign` places `s`: flush left, flush right, or after the `center` margin. */
  function AlignOffset(s: string, n: int, mode: string): nat {
    if |s| >= n then 0
    else if mode == "r" then n - |s|
    else if mode == "c" then CenterLeft(|s|, n)
    else 0
  }

  /** An aligned string holds `s` unchanged at its offset, with only spaces around it. */
  lemma StrAlignKeepsText(s: string, n: int, mode: string)
    requires StrAlign(s, n, mode).Success?
    ensures var r, k := StrAlign(s, n, mode).value, AlignOffset(s, n, mode);
      k + |s| <= |r| && r[k..k + |s|] == s &&
      (forall i :: 0 <= i < k ==> r[i] == ' ') &&
      (forall i :: k + |s| <= i < |r| ==> r[i] == ' ')
  {
    var r := StrAlign(s, n, mode).value;
    if |s| >= n {
      assert r == s && r[0..0 + |s|] == s;
    } else if mode == "l" {
      assert r == LJust(s, n) && r[0..0 + |s|] == s;
    } else if mode == "r" {
      assert r == RJust(s, n) && |r| == n;
      assert r[n - |s|..n - |s| + |s|] == s;
    } else {
      assert r == Center(s, n);
    }
  }

  /** `TrackerFunctions.delta`: the last sample minus the one before; `None` stands for
      the NaN returned for fewer than two samples. */
  function Delta(hist: seq<real>): (r: Option<real>)
    ensures r.None? <==> |hist| < 2
    ensures r.Some? ==> hist[|hist| - 2] + r.value == hist[|hist| - 1]
  {
    if |hist| < 2 then None else Some(hist[|hist| - 1] - hist[|hist| - 2])
  }

  function Abs(x: real): real {
    if x < 0.0 then -x else x
  }

  /** `TrackerFunctions.absdelta`: the size of the last step, NaN for fewer than two
      samples. */
  function AbsDelta(hist: seq<real>): (r: Option<real>)
    ensures r.None? <==> |hist| < 2
    ensures r.Some? ==> r.value >= 0.0
    ensures r.Some? ==> r.value == hist[|hist| - 1] - hist[|hist| - 2] ||
                        r.value == hist[|hist| - 2] - hist[|hist| - 1]
  {
    if |hist| < 2 then None else Some(Abs(hist[|hist| - 1] - hist[|hist| - 2]))
  }

  /** Wherever it is defined, `absdelta` is the absolute value of `delta`. */
  lemma AbsDeltaIsAbsOfDelta(hist: seq<real>)
    ensures AbsDelta(hist).Some? <==> Delta(hist).Some?
    ensures Delta(hist).Some? ==> AbsDelta(hist).value == Abs(Delta(hist).value)
  {
  }

  /** Both functions look only at the last two samples: any older history is irrelevant. */
  lemma DeltasUseLastTwo(older: seq<real>, hist: seq<real>)
    requires |hist| >= 2
    ensures Delta(older + hist) == Delta(hist) == Delta(hist[|hist| - 2..])
    ensures AbsDelta(older + hist) == AbsDelta(hist) == AbsDelta(hist[|hist| - 2..])
  {
    var h := older + hist;
    assert h[|h| - 1] == hist[|hist| - 1] && h[|h| - 2] == hist[|hist| - 2];
  }

  /** The statistics `TrackerFunctions` offers, in the (alphabetical) order `dir` lists
      them. */
  datatype Quantity = AbsDeltaQ | AbsRelDeltaQ | DeltaQ | MeanQ | RelDeltaQ | StdQ | VarQ

  /** The attribute name of each statistic. */
  function QuantityName(q: Quantity): string {
    match q
    case AbsDeltaQ => "absdelta"
    case AbsRelDeltaQ => "absreldelta"
    case DeltaQ => "delta"
    case MeanQ => "mean"
    case RelDeltaQ => "reldelta"
    case StdQ => "std"
    case VarQ => "var"
  }

  /** The statistic an attribute name denotes, if any. */
  function QuantityNamed(name: string): (r: Option<Quantity>)
    ensures r.Some? ==> QuantityName(r.value) == name
    ensures r.None? ==> forall q :: QuantityName(q) != name
  {
    match name
    case "absdelta" => Some(AbsDeltaQ)
    case "absreldelta" => Some(AbsRelDeltaQ)
    case "delta" => Some(DeltaQ)
    case "mean" => Some(MeanQ)
    case "reldelta" => Some(RelDeltaQ)
    case "std" => Some(StdQ)
    case "var" => Some(VarQ)
    case _ => None
  }

  /** Names and statistics correspond one to one. */
  lemma QuantityNamesRoundTrip(q: Quantity)
    ensures QuantityNamed(QuantityName(q)) == Some(q)
  {
  }
}

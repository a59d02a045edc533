/** Price structure: rolling extremes, gaps, lagged true range, and returns. */
module Price {
  import opened Numbers
  import opened Series
  import opened Momentum
  import Adx

  function RollingAt(vals: seq<real>, period: int, high: bool, i: nat): Num
    requires i < |vals|
  {
    if period < 1 || i < period then NaN else Val(Extreme(vals, i - period, i, high))
  }

  method RollingExtreme(vals: seq<real>, period: int, high: bool) returns (out: array<Num>)
    ensures out.Length == |vals| && forall i :: 0 <= i < |vals| ==> out[i] == RollingAt(vals, period, high, i)
  {
    out := new Num[|vals|](_ => NaN);
    if period < 1 {
      return;
    }
    for i := 0 to |vals|
      invariant forall k :: 0 <= k < i ==> out[k] == RollingAt(vals, period, high, k)
    {
      if i < period {
        out[i] := NaN;
        continue;
      }
      var ext := vals[i - period];
      for j := i - period + 1 to i
        invariant ext == Extreme(vals, i - period, j, high)
      {
        if (high && vals[j] > ext) || (!high && vals[j] < ext) {
          ext := vals[j];
        }
      }
      out[i] := Val(ext);
    }
  }

  lemma {:induction false} RollingSeesOnlyPast(a: seq<real>, b: seq<real>, period: int, high: bool, i: nat)
    requires i < |a| && Agree(a, b, i)
    ensures RollingAt(a, period, high, i) == RollingAt(b, period, high, i)
  {
    if 1 <= period <= i {
      ExtremeAgrees(a, b, i - period, i, high);
    }
  }

  /** A rolling high is reached in its window and nothing in the window exceeds it (a rolling low: nothing is
      below it). */
  lemma {:induction false} RollingIsExtreme(vals: seq<real>, period: int, high: bool, i: nat)
    requires 1 <= period <= i < |vals|
    ensures var x := RollingAt(vals, period, high, i);
      && x.Val?
      && (forall j :: i - period <= j < i ==> if high then vals[j] <= x.v else vals[j] >= x.v)
      && (exists j :: i - period <= j < i && vals[j] == x.v)
  {
    ExtremeBounds(vals, i - period, i, high);
  }

  function GapAt(opens: seq<real>, closes: seq<real>, i: nat): Num
    requires i < |opens| == |closes|
  {
    if i < 2 || closes[i - 2] == 0.0 then NaN else Val((opens[i - 1] / closes[i - 2] - 1.0) * 100.0)
  }

  method GapPct(opens: seq<real>, closes: seq<real>) returns (out: array<Num>)
    requires |opens| == |closes|
    ensures out.Length == |opens| && forall i :: 0 <= i < |opens| ==> out[i] == GapAt(opens, closes, i)
  {
    out := new Num[|opens|](_ => NaN);
    for i := 0 to |opens|
      invariant forall k :: 0 <= k < i ==> out[k] == GapAt(opens, closes, k)
    {
      if i < 2 || closes[i - 2] == 0.0 {
        out[i] := NaN;
        continue;
      }
      out[i] := Val((opens[i - 1] / closes[i - 2] - 1.0) * 100.0);
    }
  }

  function TrueRangeAt(highs: seq<real>, lows: seq<real>, closes: seq<real>, i: nat): Num
    requires SameLength(highs, lows, closes) && i < |closes|
  {
    if i < 2 then NaN else Val(Adx.TrueRange(highs[i - 1], lows[i - 1], closes[i - 2]))
  }

  method TrueRange(highs: seq<real>, lows: seq<real>, closes: seq<real>) returns (out: array<Num>)
    requires SameLength(highs, lows, closes)
    ensures out.Length == |closes| && forall i :: 0 <= i < |closes| ==> out[i] == TrueRangeAt(highs, lows, closes, i)
  {
    out := new Num[|closes|](_ => NaN);
    for i := 0 to |closes|
      invariant forall k :: 0 <= k < i ==> out[k] == TrueRangeAt(highs, lows, closes, k)
    {
      if i < 2 {
        out[i] := NaN;
        continue;
      }
      out[i] := Val(Adx.TrueRange(highs[i - 1], lows[i - 1], closes[i - 2]));
    }
  }

  /** The change over the k bars that end just before i. */
  function ReturnAt(vals: seq<real>, k: int, i: nat): Num
    requires i < |vals|
  {
    if i < k + 1 || k < 1 || vals[i - 1 - k] <= 0.0 then NaN else Val(vals[i - 1] / vals[i - 1 - k] - 1.0)
  }

  method Return(vals: seq<real>, k: int) returns (out: array<Num>)
    ensures out.Length == |vals| && forall i :: 0 <= i < |vals| ==> out[i] == ReturnAt(vals, k, i)
  {
    out := new Num[|vals|](_ => NaN);
    for i := 0 to |vals|
      invariant forall j :: 0 <= j < i ==> out[j] == ReturnAt(vals, k, j)
    {
      if i < k + 1 || k < 1 || vals[i - 1 - k] <= 0.0 {
        out[i] := NaN;
        continue;
      }
      out[i] := Val(vals[i - 1] / vals[i - 1 - k] - 1.0);
    }
  }

  /** Returns over adjoining spans compound: j bars and then k bars make j + k bars. */
  lemma {:induction false} ReturnsCompound(vals: seq<real>, j: int, k: int, i: nat)
    requires i < |vals| && 1 <= j && 1 <= k && j + k + 1 <= i
    requires vals[i - 1 - k] > 0.0 && vals[i - 1 - k - j] > 0.0
    ensures ReturnAt(vals, j + k, i).Val? && ReturnAt(vals, k, i).Val? && ReturnAt(vals, j, i - k).Val?
    ensures 1.0 + ReturnAt(vals, j + k, i).v == (1.0 + ReturnAt(vals, j, i - k).v) * (1.0 + ReturnAt(vals, k, i).v)
  {
    var a, b, c := vals[i - 1 - k - j], vals[i - 1 - k], vals[i - 1];
    assert b / a * (c / b) == c / a by {
      assert b / a * (c / b) * a == b / a * a * (c / b) == b * (c / b) == c;
    }
  }

  /** Rate of change in percent; a zero base gives no value. */
  function RocAt(closes: seq<real>, period: nat, i: nat): Num
    requires i < |closes|
  {
    if i <= period || closes[i - 1 - period] == 0.0 then NaN
    else Val((closes[i - 1] / closes[i - 1 - period] - 1.0) * 100.0)
  }

  /** On a positive base the rate of change is the return in percent. */
  lemma {:induction false} RocIsReturn(closes: seq<real>, period: nat, i: nat)
    requires 1 <= period < i < |closes| && closes[i - 1 - period] > 0.0
    ensures ReturnAt(closes, period, i).Val? && RocAt(closes, period, i) == Val(ReturnAt(closes, period, i).v * 100.0)
  {}

  method ROC(closes: seq<real>, period: nat) returns (out: array<Num>)
    ensures out.Length == |closes| && forall i :: 0 <= i < |closes| ==> out[i] == RocAt(closes, period, i)
  {
    out := new Num[|closes|](_ => NaN);
    for i := 0 to |closes|
      invariant forall j :: 0 <= j < i ==> out[j] == RocAt(closes, period, j)
    {
      if i <= period || closes[i - 1 - period] == 0.0 {
        out[i] := NaN;
        continue;
      }
      out[i] := Val((closes[i - 1] / closes[i - 1 - period] - 1.0) * 100.0);
    }
  }
}

/** The derived metrics `combined_data` computes from the daily closes,
    highs and lows: trailing simple moving averages, percentage returns and
    the 52-week high and low. Prices are exact reals. */
module Metrics {
  import opened Wrappers
  import opened Upstream

  /** Python's `sum`: a left-to-right running total starting at 0. */
  function Sum(s: seq<real>): real {
    if |s| == 0 then 0.0 else Sum(s[..|s| - 1]) + s[|s| - 1]
  }

  /** The last `n` elements: `s[-n:]` when `len(s) >= n`. */
  function Trailing(s: seq<real>, n: nat): (t: seq<real>)
    requires n <= |s|
    ensures |t| == n && forall i :: 0 <= i < n ==> t[i] == s[|s| - n + i]
  {
    s[|s| - n..]
  }

  /** `d` is the `DMA_n` the code promises: present exactly when there are
      at least `n` closes, and then the mean of the last `n`. */
  ghost predicate IsTrailingMean(d: Option<real>, closes: seq<real>, n: nat) {
    && (d.Some? <==> |closes| >= n)
    && (d.Some? ==> d.value * (n as real) == Sum(Trailing(closes, n)))
  }

  /** `sum(closes[-n:]) / n if len(closes) >= n else None`. */
  function Dma(closes: seq<real>, n: nat): (r: Option<real>)
    requires n > 0
    ensures IsTrailingMean(r, closes, n)
  {
    if |closes| >= n then Some(Sum(Trailing(closes, n)) / (n as real)) else None
  }

  /** A sum of values in `[lo, hi]` lies between `|s| * lo` and `|s| * hi`. */
  lemma {:induction false} SumBounds(s: seq<real>, lo: real, hi: real)
    requires forall i :: 0 <= i < |s| ==> lo <= s[i] <= hi
    ensures (|s| as real) * lo <= Sum(s) <= (|s| as real) * hi
  {
    if |s| > 0 {
      var init := s[..|s| - 1];
      assert forall i :: 0 <= i < |init| ==> init[i] == s[i];
      SumBounds(init, lo, hi);
    }
  }

  /** A moving average lies between the lowest and the highest close of its
      window. */
  lemma DmaWithinWindow(closes: seq<real>, n: nat, lo: real, hi: real)
    requires n > 0 && |closes| >= n
    requires forall i :: |closes| - n <= i < |closes| ==> lo <= closes[i] <= hi
    ensures Dma(closes, n).Some?
    ensures lo <= Dma(closes, n).value <= hi
  {
    var t := Trailing(closes, n);
    SumBounds(t, lo, hi);
    var m := Dma(closes, n).value;
    assert (n as real) * lo <= m * (n as real) <= (n as real) * hi;
  }

  /** Only the last `n` closes matter: older history does not move the
      average. */
  lemma DmaIgnoresHistory(older: seq<real>, closes: seq<real>, n: nat)
    requires n > 0 && |closes| >= n
    ensures Dma(older + closes, n) == Dma(closes, n)
  {
    assert Trailing(older + closes, n) == Trailing(closes, n);
  }

  /** `d` is the return `calc_return(days)` promises: present exactly when
      there are at least `days` closes and the close `days` from the end is
      not zero, and then the percentage change from it to the last close. */
  ghost predicate IsReturn(d: Option<real>, closes: seq<real>, days: nat)
    requires days >= 1
  {
    && (d.Some? <==> |closes| >= days && closes[|closes| - days] != 0.0)
    && (d.Some? ==>
          d.value * closes[|closes| - days] == (closes[|closes| - 1] - closes[|closes| - days]) * 100.0)
  }

  /** `calc_return(days)`. */
  function CalcReturn(closes: seq<real>, days: nat): (r: Option<real>)
    requires days >= 1
    ensures IsReturn(r, closes, days)
  {
    if |closes| < days then None
    else
      var past := closes[|closes| - days];
      var current := closes[|closes| - 1];
      if past != 0.0 then Some((current - past) / past * 100.0) else None
  }

  /** `calc_return(1)` compares the last close with itself: the `1D%` figure
      is 0 whenever the last close is non-zero, and absent otherwise. */
  lemma OneDayReturnIsZero(closes: seq<real>)
    ensures CalcReturn(closes, 1) ==
      (if |closes| >= 1 && closes[|closes| - 1] != 0.0 then Some(0.0) else None)
  {
  }

  /** Against a positive past close, the return is positive exactly when the
      price rose and negative exactly when it fell. */
  lemma ReturnSign(closes: seq<real>, days: nat)
    requires days >= 1 && |closes| >= days && closes[|closes| - days] > 0.0
    ensures CalcReturn(closes, days).Some?
    ensures CalcReturn(closes, days).value > 0.0 <==> closes[|closes| - 1] > closes[|closes| - days]
    ensures CalcReturn(closes, days).value < 0.0 <==> closes[|closes| - 1] < closes[|closes| - days]
  {
    var past := closes[|closes| - days];
    var d := CalcReturn(closes, days).value;
    assert d * past == (closes[|closes| - 1] - past) * 100.0;
    if d > 0.0 { assert d * past > 0.0; }
    if d < 0.0 { assert d * past < 0.0; }
  }

  /** `max` of a non-empty sequence, scanning left to right. */
  function MaxNonEmpty(s: seq<real>): (m: real)
    requires |s| > 0
    ensures forall i :: 0 <= i < |s| ==> s[i] <= m
    ensures exists i :: 0 <= i < |s| && s[i] == m
  {
    if |s| == 1 then s[0]
    else
      var m := MaxNonEmpty(s[..|s| - 1]);
      assert forall i :: 0 <= i < |s| - 1 ==> s[..|s| - 1][i] == s[i];
      if s[|s| - 1] > m then s[|s| - 1] else m
  }

  /** `min` of a non-empty sequence, scanning left to right. */
  function MinNonEmpty(s: seq<real>): (m: real)
    requires |s| > 0
    ensures forall i :: 0 <= i < |s| ==> m <= s[i]
    ensures exists i :: 0 <= i < |s| && s[i] == m
  {
    if |s| == 1 then s[0]
    else
      var m := MinNonEmpty(s[..|s| - 1]);
      assert forall i :: 0 <= i < |s| - 1 ==> s[..|s| - 1][i] == s[i];
      if s[|s| - 1] < m then s[|s| - 1] else m
  }

  /** Python's `max()`: raises on an empty sequence. */
  function MaxOf(s: seq<real>): (r: Result<real, Error>)
    ensures r.Err? <==> |s| == 0
    ensures r.Err? ==> r.error == EmptySequence
    ensures r.Ok? ==> forall i :: 0 <= i < |s| ==> s[i] <= r.value
    ensures r.Ok? ==> exists i :: 0 <= i < |s| && s[i] == r.value
  {
    if |s| == 0 then Err(EmptySequence) else Ok(MaxNonEmpty(s))
  }

  /** Python's `min()`: raises on an empty sequence. */
  function MinOf(s: seq<real>): (r: Result<real, Error>)
    ensures r.Err? <==> |s| == 0
    ensures r.Err? ==> r.error == EmptySequence
    ensures r.Ok? ==> forall i :: 0 <= i < |s| ==> r.value <= s[i]
    ensures r.Ok? ==> exists i :: 0 <= i < |s| && s[i] == r.value
  {
    if |s| == 0 then Err(EmptySequence) else Ok(MinNonEmpty(s))
  }

  /** The numbers of a column of cells; arithmetic on a text cell raises
      `TypeError`. */
  function Prices(cells: seq<Cell>): (r: Result<seq<real>, Error>)
    ensures r.Ok? <==> forall i :: 0 <= i < |cells| ==> cells[i].Num?
    ensures r.Err? ==> r.error == TypeError
    ensures r.Ok? ==> |r.value| == |cells| && forall i :: 0 <= i < |cells| ==> cells[i] == Num(r.value[i])
  {
    if |cells| == 0 then Ok([])
    else if cells[0].Text? then Err(TypeError)
    else
      match Prices(cells[1..])
      case Err(e) => Err(e)
      case Ok(rest) =>
        assert forall i :: 1 <= i < |cells| ==> cells[i] == cells[1..][i - 1];
        Ok([cells[0].num] + rest)
  }
}

/** The batch loop of `evaluate_emissions` in the Scope3 sample script: how many
    calls it makes, which request records each call sends, and the two
    impression counters it accumulates over the responses. */
module Batching {
  import opened PyValues

  /** What one API call answers with: its result rows and its two counters. */
  datatype ApiResponse = ApiResponse(rows: seq<Json>, impressionsModeled: int, impressionsSkipped: int)

  function Min(a: nat, b: nat): nat { if a <= b then a else b }

  /** Python's `s[lo:hi]` for non-negative bounds: both are clipped to the
      length, and a range that is empty once clipped gives `[]`. */
  function Slice<T>(s: seq<T>, lo: nat, hi: nat): (r: seq<T>)
    ensures |r| == if lo < Min(hi, |s|) then Min(hi, |s|) - lo else 0
    ensures forall k :: 0 <= k < |r| ==> r[k] == s[lo + k]
  {
    var top := Min(hi, |s|);
    if lo < top then s[lo..top] else []
  }

  /** `len(rows_to_compute) // max_json_rows + 1`. */
  function NumberOfCalls(n: nat, b: nat): (c: nat)
    requires 0 < b
    ensures 1 <= c && (c - 1) * b <= n < c * b
  {
    DivModUnique(n, b, n / b, n % b);
    n / b + 1
  }

  /** What call `i` sends: `rows_to_compute[i*max_json_rows:(i+1)*max_json_rows-1]`. */
  function Batch<T>(records: seq<T>, b: nat, i: nat): (r: seq<T>)
    requires 0 < b
    ensures |r| < b
    ensures i * b + b - 1 <= |records| ==> |r| == b - 1
    ensures forall k :: 0 <= k < |r| ==> i * b + k < |records| && r[k] == records[i * b + k]
  {
    Slice(records, i * b, i * b + b - 1)
  }

  /** Everything the first `c` calls sent, in order. */
  function SentBy<T>(records: seq<T>, b: nat, c: nat): seq<T>
    requires 0 < b
  {
    if c == 0 then [] else SentBy(records, b, c - 1) + Batch(records, b, c - 1)
  }

  /** The responses to the first `c` calls, `server(i, batch)` standing for the
      answer to the POST of batch `i`. */
  function Responses<T>(records: seq<T>, b: nat, server: (nat, seq<T>) -> ApiResponse, c: nat)
    : (rs: seq<ApiResponse>)
    requires 0 < b
    ensures |rs| == c
    ensures forall i :: 0 <= i < c ==> rs[i] == server(i, Batch(records, b, i))
  {
    if c == 0 then [] else Responses(records, b, server, c - 1) + [server(c - 1, Batch(records, b, c - 1))]
  }

  /** `impressionsModeled` summed over the responses. */
  function ModeledTotal(rs: seq<ApiResponse>): (r: int)
    ensures (forall i :: 0 <= i < |rs| ==> 0 <= rs[i].impressionsModeled) ==> 0 <= r
  {
    if rs == [] then 0 else ModeledTotal(rs[..|rs| - 1]) + rs[|rs| - 1].impressionsModeled
  }

  /** `impressionsSkipped` summed over the responses. */
  function SkippedTotal(rs: seq<ApiResponse>): (r: int)
    ensures (forall i :: 0 <= i < |rs| ==> 0 <= rs[i].impressionsSkipped) ==> 0 <= r
  {
    if rs == [] then 0 else SkippedTotal(rs[..|rs| - 1]) + rs[|rs| - 1].impressionsSkipped
  }

  /** The result rows of all responses, in call order (`pd.concat`). */
  function ResultRows(rs: seq<ApiResponse>): (r: seq<Json>)
    ensures r == [] <==> forall i :: 0 <= i < |rs| ==> rs[i].rows == []
  {
    if rs == [] then [] else ResultRows(rs[..|rs| - 1]) + rs[|rs| - 1].rows
  }

  /** Accumulating `impressionsModeled` call by call is summing: over two
      stretches of calls the totals add up. */
  lemma {:induction false} ModeledTotalAppend(xs: seq<ApiResponse>, ys: seq<ApiResponse>)
    ensures ModeledTotal(xs + ys) == ModeledTotal(xs) + ModeledTotal(ys)
  {
    if ys == [] {
      assert xs + ys == xs;
    } else {
      var zs := xs + ys;
      assert zs[..|zs| - 1] == xs + ys[..|ys| - 1];
      ModeledTotalAppend(xs, ys[..|ys| - 1]);
    }
  }

  /** The same for `impressionsSkipped`. */
  lemma {:induction false} SkippedTotalAppend(xs: seq<ApiResponse>, ys: seq<ApiResponse>)
    ensures SkippedTotal(xs + ys) == SkippedTotal(xs) + SkippedTotal(ys)
  {
    if ys == [] {
      assert xs + ys == xs;
    } else {
      var zs := xs + ys;
      assert zs[..|zs| - 1] == xs + ys[..|ys| - 1];
      SkippedTotalAppend(xs, ys[..|ys| - 1]);
    }
  }

  /** Over two stretches of calls the result rows concatenate. */
  lemma {:induction false} ResultRowsAppend(xs: seq<ApiResponse>, ys: seq<ApiResponse>)
    ensures ResultRows(xs + ys) == ResultRows(xs) + ResultRows(ys)
  {
    if ys == [] {
      assert xs + ys == xs;
    } else {
      var zs := xs + ys;
      assert zs[..|zs| - 1] == xs + ys[..|ys| - 1];
      var init := ys[..|ys| - 1];
      ResultRowsAppend(xs, init);
      assert zs[|zs| - 1] == ys[|ys| - 1];
      calc {
        ResultRows(zs);
        ResultRows(xs + init) + ys[|ys| - 1].rows;
        (ResultRows(xs) + ResultRows(init)) + ys[|ys| - 1].rows;
        ResultRows(xs) + (ResultRows(init) + ys[|ys| - 1].rows);
        ResultRows(xs) + ResultRows(ys);
      }
    }
  }

  /** The indices below `n` that the batch plan keeps: every index except the
      last position of each block of `b`. */
  function KeptIndices(n: nat, b: nat): (idx: seq<nat>)
    requires 0 < b
    ensures forall j :: 0 <= j < |idx| ==> idx[j] < n && idx[j] % b != b - 1
    ensures forall j, k :: 0 <= j < k < |idx| ==> idx[j] < idx[k]
    ensures forall i :: 0 <= i < n && i % b != b - 1 ==> i in idx
  {
    if n == 0 then []
    else KeptIndices(n - 1, b) + (if (n - 1) % b != b - 1 then [n - 1] else [])
  }

  /** The elements of `s` at the given indices, in that order. */
  function Pick<T>(s: seq<T>, idx: seq<nat>): (r: seq<T>)
    requires forall j :: 0 <= j < |idx| ==> idx[j] < |s|
    ensures |r| == |idx|
    ensures forall j :: 0 <= j < |idx| ==> r[j] == s[idx[j]]
  {
    seq(|idx|, j requires 0 <= j < |idx| => s[idx[j]])
  }

  /** The indices `lo, lo+1, ..., hi-1`. */
  function Range(lo: nat, hi: nat): (r: seq<nat>)
    ensures |r| == if lo <= hi then hi - lo else 0
    ensures forall j :: 0 <= j < |r| ==> r[j] == lo + j
  {
    if hi <= lo then [] else seq(hi - lo, j requires 0 <= j < hi - lo => lo + j)
  }

  lemma {:induction false} MulGrows(d: nat, b: nat)
    requires 1 <= d
    ensures b <= d * b
  {
    if d > 1 {
      MulGrows(d - 1, b);
      assert d * b == (d - 1) * b + b;
    }
  }

  /** Euclidean division is determined by quotient and remainder. */
  lemma DivModUnique(a: nat, b: nat, q: nat, r: nat)
    requires 0 < b && r < b && a == q * b + r
    ensures a / b == q && a % b == r
  {
    var q', r' := a / b, a % b;
    assert a == q' * b + r';
    if q' > q {
      MulGrows(q' - q, b);
      assert false;
    } else if q' < q {
      MulGrows(q - q', b);
      assert false;
    }
  }

  /** Inside the block that starts at `c*b`, the index `c*b + t` leaves `t`. */
  lemma InBlock(c: nat, b: nat, t: nat)
    requires t < b
    ensures (c * b + t) % b == t
  {
    DivModUnique(c * b + t, b, c, t);
  }

  /** Within one block the plan keeps every index but the block's last. */
  lemma {:induction false} KeptInBlock(c: nat, b: nat, m: nat)
    requires 0 < b && c * b <= m <= c * b + b
    ensures KeptIndices(m, b) == KeptIndices(c * b, b) + Range(c * b, Min(m, c * b + b - 1))
  {
    var lo := c * b;
    if m > lo {
      KeptInBlock(c, b, m - 1);
      InBlock(c, b, m - 1 - lo);
      assert (m - 1) % b == m - 1 - lo;
      if m - 1 - lo != b - 1 {
        assert Range(lo, m - 1) + [m - 1] == Range(lo, m);
      }
    }
  }

  /** Picking a contiguous range is slicing. */
  lemma PickRange<T>(s: seq<T>, lo: nat, hi: nat)
    requires lo <= hi <= |s|
    ensures Pick(s, Range(lo, hi)) == s[lo..hi]
  {
  }

  /** Picking along two index lists one after the other. */
  lemma PickConcat<T>(s: seq<T>, idx1: seq<nat>, idx2: seq<nat>)
    requires forall j :: 0 <= j < |idx1| ==> idx1[j] < |s|
    requires forall j :: 0 <= j < |idx2| ==> idx2[j] < |s|
    ensures Pick(s, idx1 + idx2) == Pick(s, idx1) + Pick(s, idx2)
  {
  }

  /** The batch of a call whose block starts at `lo`, inside the records. */
  lemma BatchInside<T>(records: seq<T>, b: nat, p: nat, lo: nat)
    requires 0 < b && lo == p * b && lo < |records|
    ensures Batch(records, b, p) == records[lo..Min(Min(lo + b, |records|), lo + b - 1)]
  {
  }

  /** What the first `c` calls sent is the records at the kept indices below
      `c*b` (or below `n` once the blocks reach past the end). */
  lemma {:induction false} SentByKept<T>(records: seq<T>, b: nat, c: nat)
    requires 0 < b
    ensures SentBy(records, b, c) == Pick(records, KeptIndices(Min(c * b, |records|), b))
  {
    var n := |records|;
    if c > 0 {
      var p := c - 1;
      var lo := p * b;
      var m := Min(c * b, n);
      assert c * b == lo + b;
      SentByKept(records, b, p);
      assert SentBy(records, b, c) == SentBy(records, b, p) + Batch(records, b, p);
      if lo < n {
        var hi := Min(m, lo + b - 1);
        var before := KeptIndices(lo, b);
        assert SentBy(records, b, p) == Pick(records, before);
        BatchInside(records, b, p, lo);
        assert Batch(records, b, p) == records[lo..hi];
        PickRange(records, lo, hi);
        PickConcat(records, before, Range(lo, hi));
        KeptInBlock(p, b, m);
        assert KeptIndices(m, b) == before + Range(lo, hi);
      } else {
        assert Batch(records, b, p) == [];
        assert Min(lo, n) == n == m;
      }
    }
  }

  /** `n - n/b` indices below `n` are kept. */
  lemma {:induction false} KeptCount(n: nat, b: nat)
    requires 0 < b
    ensures |KeptIndices(n, b)| == n - n / b
  {
    if n > 0 {
      var m := n - 1;
      KeptCount(m, b);
      var q, r := m / b, m % b;
      if r + 1 < b {
        DivModUnique(n, b, q, r + 1);
      } else {
        DivModUnique(n, b, q + 1, 0);
      }
    }
  }

  /** Everything the loop sends, over all its calls. */
  function AllSent<T>(records: seq<T>, b: nat): seq<T>
    requires 0 < b
  {
    SentBy(records, b, NumberOfCalls(|records|, b))
  }

  /** The calls send exactly the records whose index leaves `b - 1` unequal to
      its remainder modulo `b`, once each, in their original order; that is
      `n - n/b` records. */
  lemma AllSentExactly<T>(records: seq<T>, b: nat)
    requires 0 < b
    ensures AllSent(records, b) == Pick(records, KeptIndices(|records|, b))
    ensures |AllSent(records, b)| == |records| - |records| / b
  {
    var n := |records|;
    var c := NumberOfCalls(n, b);
    DivModUnique(n, b, n / b, n % b);
    assert c * b == (n / b) * b + b;
    SentByKept(records, b, c);
    KeptCount(n, b);
  }

  /** The last call sends nothing exactly when `n` is a multiple of `b`; every
      other call sends something whenever `b` is at least 2. */
  lemma LastBatchEmpty<T>(records: seq<T>, b: nat)
    requires 0 < b
    ensures Batch(records, b, NumberOfCalls(|records|, b) - 1) == [] <==> |records| % b == 0
    ensures 2 <= b ==> forall i :: 0 <= i < NumberOfCalls(|records|, b) - 1 ==> Batch(records, b, i) != []
  {
    var n := |records|;
    var q := n / b;
    DivModUnique(n, b, q, n % b);
    if 2 <= b {
      forall i | 0 <= i < NumberOfCalls(n, b) - 1
        ensures Batch(records, b, i) != []
      {
        MulMonotone(i + 1, q, b);
        assert (i + 1) * b == i * b + b;
      }
    }
  }

  /** The record at any index `i` with `i % b == b - 1` (the last of each full
      block of `b`) is never sent, however many records there are. */
  lemma BlockLastNeverSent<T>(records: seq<T>, b: nat, i: nat)
    requires 0 < b && i < |records| && i % b == b - 1
    ensures forall j :: 0 <= j < |KeptIndices(|records|, b)| ==> KeptIndices(|records|, b)[j] != i
  {
  }

  /** Four records in batches of two: only records 0 and 2 are sent, and the
      third call posts an empty batch. */
  lemma AsWrittenDropsRecords<T>(records: seq<T>)
    requires |records| == 4
    ensures NumberOfCalls(4, 2) == 3
    ensures Batch(records, 2, 0) == [records[0]]
    ensures Batch(records, 2, 1) == [records[2]]
    ensures Batch(records, 2, 2) == []
    ensures AllSent(records, 2) == [records[0], records[2]]
  {
    assert SentBy(records, 2, 1) == [records[0]];
    assert SentBy(records, 2, 2) == [records[0], records[2]];
  }

  /** The evidently intended plan: `ceil(n / b)` calls, call `i` sending
      `rows_to_compute[i*b:(i+1)*b]`. */
  function IntendedCalls(n: nat, b: nat): nat
    requires 0 < b
  {
    (n + b - 1) / b
  }

  function IntendedBatch<T>(records: seq<T>, b: nat, i: nat): seq<T>
    requires 0 < b
  {
    Slice(records, i * b, i * b + b)
  }

  function IntendedSentBy<T>(records: seq<T>, b: nat, c: nat): seq<T>
    requires 0 < b
  {
    if c == 0 then [] else IntendedSentBy(records, b, c - 1) + IntendedBatch(records, b, c - 1)
  }

  /** The first `c` intended calls send the first `c*b` records. */
  lemma {:induction false} IntendedSentByPrefix<T>(records: seq<T>, b: nat, c: nat)
    requires 0 < b
    ensures IntendedSentBy(records, b, c) == records[..Min(c * b, |records|)]
  {
    if c > 0 {
      var p := c - 1;
      var lo := p * b;
      assert c * b == lo + b;
      IntendedSentByPrefix(records, b, p);
      if lo < |records| {
        assert records[..Min(c * b, |records|)] == records[..lo] + records[lo..Min(lo + b, |records|)];
      }
    }
  }

  /** The intended plan partitions the records: its batches, concatenated in
      call order, are exactly the records, and each holds between 1 and `b`. */
  lemma IntendedBatchesPartition<T>(records: seq<T>, b: nat)
    requires 0 < b
    ensures IntendedSentBy(records, b, IntendedCalls(|records|, b)) == records
    ensures forall i :: 0 <= i < IntendedCalls(|records|, b) ==>
      1 <= |IntendedBatch(records, b, i)| <= b
  {
    var n := |records|;
    var c := IntendedCalls(n, b);
    var a := n + b - 1;
    DivModUnique(a, b, a / b, a % b);
    assert c * b >= n;
    IntendedSentByPrefix(records, b, c);
    forall i | 0 <= i < c
      ensures 1 <= |IntendedBatch(records, b, i)| <= b
    {
      if i * b >= n {
        MulMonotone(i + 1, c, b);
        assert false;
      }
    }
  }

  lemma MulMonotone(x: nat, y: nat, b: nat)
    requires x <= y
    ensures x * b <= y * b
  {
    if x < y {
      MulGrows(y - x, b);
      assert y * b == x * b + (y - x) * b;
    }
  }

  /** The batch loop (`for i in range(number_of_api_calls_to_make)`): it posts
      each batch, adds the response's counters to `impressionsModeled` and
      `impressionsSkipped`, and appends the response's rows to the results. */
  method SubmitBatches<T>(records: seq<T>, b: nat, server: (nat, seq<T>) -> ApiResponse)
    returns (sent: seq<seq<T>>, results: seq<Json>, impressionsModeled: int, impressionsSkipped: int)
    requires 0 < b
    ensures |sent| == NumberOfCalls(|records|, b)
    ensures forall i :: 0 <= i < |sent| ==> sent[i] == Batch(records, b, i)
    ensures impressionsModeled == ModeledTotal(Responses(records, b, server, |sent|))
    ensures impressionsSkipped == SkippedTotal(Responses(records, b, server, |sent|))
    ensures results == ResultRows(Responses(records, b, server, |sent|))
  {
    var calls := |records| / b + 1;
    sent, results, impressionsModeled, impressionsSkipped := [], [], 0, 0;
    for i := 0 to calls
      invariant |sent| == i
      invariant forall j :: 0 <= j < i ==> sent[j] == Batch(records, b, j)
      invariant impressionsModeled == ModeledTotal(Responses(records, b, server, i))
      invariant impressionsSkipped == SkippedTotal(Responses(records, b, server, i))
      invariant results == ResultRows(Responses(records, b, server, i))
    {
      var rows := Slice(records, i * b, (i + 1) * b - 1);
      assert rows == Batch(records, b, i);
      var response := server(i, rows);
      var rs := Responses(records, b, server, i + 1);
      assert rs == Responses(records, b, server, i) + [response];
      assert rs[..|rs| - 1] == Responses(records, b, server, i) && rs[|rs| - 1] == response;
      assert ModeledTotal(rs) == impressionsModeled + response.impressionsModeled;
      assert SkippedTotal(rs) == impressionsSkipped + response.impressionsSkipped;
      assert ResultRows(rs) == results + response.rows;
      impressionsModeled := impressionsModeled + response.impressionsModeled;
      impressionsSkipped := impressionsSkipped + response.impressionsSkipped;
      results := results + response.rows;
      sent := sent + [rows];
    }
  }
}

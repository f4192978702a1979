/** The batching idiom the commands share: `queue.splice(0, k)` taken
    repeatedly from a copy of the input until the copy is empty, one batch
    after another, each batch handed to a call that may fail. */
module Chunking {
  import opened Base

  /** The batches `splice(0, k)` cuts from `s`, in order. */
  function Chunks<T>(s: seq<T>, k: nat): seq<seq<T>>
    requires k > 0
    decreases |s|
  {
    if s == [] then []
    else if |s| <= k then [s]
    else [s[..k]] + Chunks(s[k..], k)
  }

  /** The first batch `splice(0, k)` removes. */
  function Head<T>(s: seq<T>, k: nat): (h: seq<T>)
    requires k > 0
    ensures |h| == if |s| < k then |s| else k
    ensures h == s[..|h|]
  {
    if |s| <= k then s else s[..k]
  }

  function Flatten<T>(ss: seq<seq<T>>): seq<T> {
    if ss == [] then [] else ss[0] + Flatten(ss[1..])
  }

  lemma {:induction false} FlattenAppend<T>(a: seq<seq<T>>, b: seq<seq<T>>)
    ensures Flatten(a + b) == Flatten(a) + Flatten(b)
  {
    if a != [] {
      assert (a + b)[0] == a[0];
      assert (a + b)[1..] == a[1..] + b;
      FlattenAppend(a[1..], b);
    } else {
      assert a + b == b;
    }
  }

  lemma FlattenSnoc<T>(a: seq<seq<T>>, x: seq<T>)
    ensures Flatten(a + [x]) == Flatten(a) + x
  {
    FlattenAppend(a, [x]);
    assert Flatten([x]) == x + Flatten([x][1..]);
  }

  /** The batches put back together give the input, and each batch holds
      between 1 and `k` elements, all but the last exactly `k`. */
  lemma {:induction false} ChunksPartition<T>(s: seq<T>, k: nat)
    requires k > 0
    ensures Flatten(Chunks(s, k)) == s
    ensures forall i :: 0 <= i < |Chunks(s, k)| ==> 0 < |Chunks(s, k)[i]| <= k
    ensures forall i :: 0 <= i < |Chunks(s, k)| - 1 ==> |Chunks(s, k)[i]| == k
    decreases |s|
  {
    if s != [] && |s| > k {
      ChunksPartition(s[k..], k);
      assert s == s[..k] + s[k..];
    }
  }

  /** Batch `i` starts at position `i * k` of the input. */
  lemma {:induction false} ChunkAt<T>(s: seq<T>, k: nat, i: nat)
    requires k > 0 && i < |Chunks(s, k)|
    ensures i * k < |s|
    ensures Chunks(s, k)[i] == s[i * k .. if (i + 1) * k <= |s| then (i + 1) * k else |s|]
    decreases i
  {
    if i > 0 {
      ChunkAt(s[k..], k, i - 1);
      assert s[k..][(i - 1) * k ..] == s[i * k ..];
    }
  }

  /** 250 instructions in batches of 100 go out as 100, 100 and 50. */
  lemma MintBatchesExample<T>(s: seq<T>)
    requires |s| == 250
    ensures |Chunks(s, 100)| == 3
    ensures |Chunks(s, 100)[0]| == 100 && |Chunks(s, 100)[1]| == 100 && |Chunks(s, 100)[2]| == 50
  {
    assert Chunks(s, 100) == [s[..100]] + Chunks(s[100..], 100);
    assert Chunks(s[100..], 100) == [s[100..][..100]] + Chunks(s[200..], 100);
    assert s[100..][100..] == s[200..];
  }

  // ---------------------------------------------------------------------
  // Running a fallible call on each batch, stopping at the first failure.

  /** What a splice loop leaves behind: the batches it handed out, the
      outputs of those that succeeded (in order), and the failure, if any. */
  datatype Run<T, U, E> = Run(submitted: seq<seq<T>>, outputs: seq<U>, failure: Option<E>)

  function RunChunks<T, U, E>(s: seq<T>, k: nat, f: seq<T> -> Result<seq<U>, E>): Run<T, U, E>
    requires k > 0
    decreases |s|
  {
    if s == [] then Run([], [], None)
    else
      var h := Head(s, k);
      match f(h)
      case Err(e) => Run([h], [], Some(e))
      case Ok(out) =>
        var rest := RunChunks(s[|h|..], k, f);
        Run([h] + rest.submitted, out + rest.outputs, rest.failure)
  }

  /** One batch of a run: a failed batch ends it with no further output
      and nothing done; a successful one puts its output and its input in
      front of the rest of the run's. */
  lemma Unroll<T, U, E>(s: seq<T>, k: nat, f: seq<T> -> Result<seq<U>, E>)
    requires k > 0 && s != []
    ensures var h := Head(s, k);
      && (f(h).Err? ==> RunChunks(s, k, f).outputs == [] && Done(s, k, f) == [])
      && (f(h).Ok? ==>
            && RunChunks(s, k, f).outputs == f(h).value + RunChunks(s[|h|..], k, f).outputs
            && Done(s, k, f) == h + Done(s[|h|..], k, f))
  {
  }

  /** The batches handed out are the leading batches of the input. */
  lemma {:induction false} RunSubmittedPrefix<T, U, E>(s: seq<T>, k: nat, f: seq<T> -> Result<seq<U>, E>)
    requires k > 0
    ensures |RunChunks(s, k, f).submitted| <= |Chunks(s, k)|
    ensures RunChunks(s, k, f).submitted == Chunks(s, k)[..|RunChunks(s, k, f).submitted|]
    decreases |s|
  {
    if s != [] {
      var h := Head(s, k);
      assert Chunks(s, k) == [h] + Chunks(s[|h|..], k);
      if f(h).Ok? {
        RunSubmittedPrefix(s[|h|..], k, f);
      }
    }
  }

  /** The run fails exactly when some batch's call fails; when it does not,
      every batch was handed out. */
  lemma {:induction false} RunFailsIff<T, U, E>(s: seq<T>, k: nat, f: seq<T> -> Result<seq<U>, E>)
    requires k > 0
    ensures RunChunks(s, k, f).failure.None? <==> forall i :: 0 <= i < |Chunks(s, k)| ==> f(Chunks(s, k)[i]).Ok?
    ensures RunChunks(s, k, f).failure.None? ==> RunChunks(s, k, f).submitted == Chunks(s, k)
    decreases |s|
  {
    if s != [] {
      var h := Head(s, k);
      var cs := Chunks(s, k);
      assert cs == [h] + Chunks(s[|h|..], k);
      if f(h).Ok? {
        RunFailsIff(s[|h|..], k, f);
        var ts := Chunks(s[|h|..], k);
        if forall i :: 0 <= i < |ts| ==> f(ts[i]).Ok? {
          forall i | 0 <= i < |cs| ensures f(cs[i]).Ok? {
            if i > 0 { assert cs[i] == ts[i - 1]; }
          }
        } else {
          var j :| 0 <= j < |ts| && !f(ts[j]).Ok?;
          assert cs[j + 1] == ts[j];
        }
      } else {
        assert cs[0] == h;
        assert RunChunks(s, k, f).failure.Some?;
      }
    }
  }

  /** Putting a successful batch in front keeps the last batch last and
      every earlier one successful. */
  lemma ShiftedBatches<T, U, E>(first: seq<seq<T>>, rest: seq<seq<T>>, f: seq<T> -> Result<seq<U>, E>)
    requires |first| == 1 && f(first[0]).Ok? && |rest| > 0
    requires forall i :: 0 <= i < |rest| - 1 ==> f(rest[i]).Ok?
    ensures var all := first + rest;
      && all[|all| - 1] == rest[|rest| - 1]
      && forall i :: 0 <= i < |all| - 1 ==> f(all[i]).Ok?
  {
    var all := first + rest;
    forall i | 0 <= i < |all| - 1 ensures f(all[i]).Ok? {
      if i > 0 {
        assert all[i] == rest[i - 1];
      }
    }
  }

  /** A failed run stops at the batch that failed; every batch before it
      succeeded. */
  lemma {:induction false} RunStopsAtFailure<T, U, E>(s: seq<T>, k: nat, f: seq<T> -> Result<seq<U>, E>)
    requires k > 0
    ensures var r := RunChunks(s, k, f);
      r.failure.Some? ==>
        && |r.submitted| > 0
        && f(r.submitted[|r.submitted| - 1]) == Err(r.failure.value)
        && forall i :: 0 <= i < |r.submitted| - 1 ==> f(r.submitted[i]).Ok?
    decreases |s|
  {
    if s != [] {
      var h := Head(s, k);
      if f(h).Ok? {
        RunStopsAtFailure(s[|h|..], k, f);
        var r, rest := RunChunks(s, k, f), RunChunks(s[|h|..], k, f);
        assert r.submitted == [h] + rest.submitted && r.failure == rest.failure;
        if r.failure.Some? {
          ShiftedBatches([h], rest.submitted, f);
        }
      }
    }
  }

  /** The accumulated outputs are those of the successful batches, in order. */
  lemma {:induction false} RunOutputs<T, U, E>(s: seq<T>, k: nat, f: seq<T> -> Result<seq<U>, E>)
    requires k > 0
    ensures RunChunks(s, k, f).outputs == Flatten(OkOutputs(RunChunks(s, k, f).submitted, f))
    decreases |s|
  {
    if s != [] {
      var h := Head(s, k);
      var r := RunChunks(s, k, f);
      if f(h).Ok? {
        RunOutputs(s[|h|..], k, f);
        var rest := RunChunks(s[|h|..], k, f);
        assert r.submitted == [h] + rest.submitted;
        assert r.submitted[1..] == rest.submitted;
      } else {
        assert r.submitted == [h];
        assert OkOutputs([h], f) == [] + OkOutputs([h][1..], f);
      }
    }
  }

  /** The outputs of the batches that succeeded, one entry per batch. */
  function OkOutputs<T, U, E>(batches: seq<seq<T>>, f: seq<T> -> Result<seq<U>, E>): seq<seq<U>> {
    if batches == [] then []
    else (if f(batches[0]).Ok? then [f(batches[0]).value] else []) + OkOutputs(batches[1..], f)
  }

  /** The inputs of the batches that succeeded, in order: what a loop that
      adds up batch sizes after each successful call has counted. */
  function Done<T, U, E>(s: seq<T>, k: nat, f: seq<T> -> Result<seq<U>, E>): seq<T>
    requires k > 0
    decreases |s|
  {
    if s == [] then []
    else
      var h := Head(s, k);
      if f(h).Err? then [] else h + Done(s[|h|..], k, f)
  }

  /** The completed inputs are a prefix of the input, all of it exactly
      when no batch failed. */
  lemma {:induction false} DonePrefix<T, U, E>(s: seq<T>, k: nat, f: seq<T> -> Result<seq<U>, E>)
    requires k > 0
    ensures var d := Done(s, k, f);
      && |d| <= |s| && d == s[..|d|]
      && (|d| == |s| <==> RunChunks(s, k, f).failure.None?)
    decreases |s|
  {
    if s != [] {
      var h := Head(s, k);
      if f(h).Ok? {
        DonePrefix(s[|h|..], k, f);
        var d, d' := Done(s, k, f), Done(s[|h|..], k, f);
        assert d == h + d';
        assert s == h + s[|h|..];
        assert s[..|d|] == h + s[|h|..][..|d'|];
      }
    }
  }
}

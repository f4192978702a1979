/** command/whitelist.ts: whitelist entries submitted in batches of 100,
    one after another; a failing batch fails the command, after the batches
    before it have taken effect. */
module WhitelistCommand {
  import opened Base
  import Chunking

  /** Entries per update. */
  const WhitelistBatch: nat := 100

  /** One `updateWhitelists` call (not modelled) as a batch step: a batch
      that goes through is reported as applied. */
  function Apply<W>(update: seq<W> -> Result<(), string>): seq<W> -> Result<seq<seq<W>>, string> {
    (batch: seq<W>) => if update(batch).Ok? then Ok([batch]) else Err(update(batch).error)
  }

  /** `setWhitelists`: the batches that took effect, in order, and the
      command's outcome, the first failure rethrown. An empty list makes no
      call. */
  method SetWhitelists<W>(whitelists: seq<W>, update: seq<W> -> Result<(), string>)
    returns (r: Result<(), string>, applied: seq<seq<W>>)
    ensures whitelists == [] ==> r.Ok? && applied == []
    ensures var run := Chunking.RunChunks(whitelists, WhitelistBatch, Apply(update));
      && applied == run.outputs
      && (r.Ok? <==> run.failure.None?)
      && (r.Err? ==> r.error == run.failure.value)
  {
    applied := [];
    if |whitelists| <= 0 {
      return Ok(()), applied;
    }
    ghost var apply := Apply(update);
    var chunkedWhitelists := whitelists;
    while |chunkedWhitelists| > 0
      invariant Chunking.RunChunks(whitelists, WhitelistBatch, apply).outputs
             == applied + Chunking.RunChunks(chunkedWhitelists, WhitelistBatch, apply).outputs
      invariant Chunking.RunChunks(whitelists, WhitelistBatch, apply).failure
             == Chunking.RunChunks(chunkedWhitelists, WhitelistBatch, apply).failure
      decreases |chunkedWhitelists|
    {
      var tempWhitelists := Chunking.Head(chunkedWhitelists, WhitelistBatch);
      var outcome := update(tempWhitelists);
      assert apply(tempWhitelists).Ok? <==> outcome.Ok?;
      if outcome.Err? {
        return Err(outcome.error), applied;
      }
      applied := applied + [tempWhitelists];
      chunkedWhitelists := chunkedWhitelists[|tempWhitelists|..];
    }
    assert Chunking.RunChunks(whitelists, WhitelistBatch, apply).outputs == applied;
    r := Ok(());
  }

  /** The batches that took effect are the leading batches of 100
      consecutive entries: all of them, covering the list, when the command
      succeeds; all but the failing one and those after it otherwise. */
  lemma {:induction false} AppliedBatches<W>(whitelists: seq<W>, update: seq<W> -> Result<(), string>)
    ensures var run := Chunking.RunChunks(whitelists, WhitelistBatch, Apply(update));
      && |run.outputs| <= |Chunking.Chunks(whitelists, WhitelistBatch)|
      && run.outputs == Chunking.Chunks(whitelists, WhitelistBatch)[..|run.outputs|]
      && (forall i :: 0 <= i < |run.outputs| ==> update(run.outputs[i]).Ok?)
      && (run.failure.None? ==> Chunking.Flatten(run.outputs) == whitelists)
      && (run.failure.Some? ==>
            && |run.outputs| < |Chunking.Chunks(whitelists, WhitelistBatch)|
            && update(Chunking.Chunks(whitelists, WhitelistBatch)[|run.outputs|]) == Err(run.failure.value))
    decreases |whitelists|
  {
    var apply := Apply(update);
    var cs := Chunking.Chunks(whitelists, WhitelistBatch);
    Chunking.ChunksPartition(whitelists, WhitelistBatch);
    if whitelists != [] {
      var h := Chunking.Head(whitelists, WhitelistBatch);
      var rest := whitelists[|h|..];
      assert cs == [h] + Chunking.Chunks(rest, WhitelistBatch);
      if update(h).Ok? {
        AppliedBatches(rest, update);
        var more := Chunking.RunChunks(rest, WhitelistBatch, apply).outputs;
        assert Chunking.RunChunks(whitelists, WhitelistBatch, apply).outputs == [h] + more;
        assert Chunking.Flatten([h] + more) == h + Chunking.Flatten(more);
        assert whitelists == h + rest;
      } else {
        assert cs[0] == h;
      }
    }
  }
}

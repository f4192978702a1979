/** command/mint.ts: minting a list of instructions in transactions of 100,
    one after another, keeping the receipts of those that went through. */
module MintCommand {
  import opened Base
  import opened Interfaces
  import Chunking
  import NftHelpers

  /** Instructions per transaction. */
  const MintBatch: nat := 100

  /** One `bulkMint` call on a batch of instructions. */
  function Mint(addresses: Records.Obj<string>, execute: NftHelpers.BatchExecutor)
    : seq<Instruction> -> Result<seq<NftTx>, string>
  {
    (batch: seq<Instruction>) => NftHelpers.BulkMintOf(addresses, batch, execute)
  }

  /** `mintNfts`: nothing for no instructions; otherwise the receipts of the
      batches minted before the first failure (which is swallowed), and the
      progress count, the number of instructions in those batches. */
  method MintNfts(data: SoilData, instructions: seq<Instruction>, execute: NftHelpers.BatchExecutor)
    returns (r: Option<seq<NftTx>>, count: nat)
    ensures instructions == [] ==> r.None? && count == 0
    ensures instructions != [] ==>
      && r == Some(Chunking.RunChunks(instructions, MintBatch, Mint(data.addresses, execute)).outputs)
      && count == |Chunking.Done(instructions, MintBatch, Mint(data.addresses, execute))|
  {
    if |instructions| <= 0 {
      return None, 0;
    }
    var addresses := data.addresses;
    ghost var mint := Mint(addresses, execute);
    var chunkedInstructions := instructions;
    count := 0;
    var nfts: seq<NftTx> := [];
    while |chunkedInstructions| > 0
      invariant Chunking.RunChunks(instructions, MintBatch, mint).outputs
             == nfts + Chunking.RunChunks(chunkedInstructions, MintBatch, mint).outputs
      invariant |Chunking.Done(instructions, MintBatch, mint)| == count + |Chunking.Done(chunkedInstructions, MintBatch, mint)|
      decreases |chunkedInstructions|
    {
      Chunking.Unroll(chunkedInstructions, MintBatch, mint);
      var tempInstructions := Chunking.Head(chunkedInstructions, MintBatch);
      var tempNfts := MintChunk(addresses, tempInstructions, execute);
      if tempNfts.Err? {
        break;
      }
      assert nfts + (tempNfts.value + Chunking.RunChunks(chunkedInstructions[|tempInstructions|..], MintBatch, mint).outputs)
          == (nfts + tempNfts.value) + Chunking.RunChunks(chunkedInstructions[|tempInstructions|..], MintBatch, mint).outputs;
      count := count + |tempInstructions|;
      nfts := nfts + tempNfts.value;
      chunkedInstructions := chunkedInstructions[|tempInstructions|..];
    }
    assert Chunking.RunChunks(instructions, MintBatch, mint).outputs == nfts;
    r := Some(nfts);
  }

  /** One `bulkMint` call, seen as the batch step of the run. */
  method MintChunk(addresses: Records.Obj<string>, batch: seq<Instruction>, execute: NftHelpers.BatchExecutor)
    returns (r: Result<seq<NftTx>, string>)
    ensures r == Mint(addresses, execute)(batch)
  {
    r := NftHelpers.BulkMint(addresses, batch, execute);
  }

  /** The receipts name the minted instructions' token ids in order, and
      receipt `j` sits at position `j % 100` of its transaction. The minted
      instructions are a leading part of the list, all of it unless a batch
      failed. */
  lemma MintReceipts(addresses: Records.Obj<string>, instructions: seq<Instruction>, execute: NftHelpers.BatchExecutor)
    ensures var mint := Mint(addresses, execute);
      var receipts := Chunking.RunChunks(instructions, MintBatch, mint).outputs;
      var done := Chunking.Done(instructions, MintBatch, mint);
      && |done| <= |instructions| && done == instructions[..|done|]
      && (|done| == |instructions| <==> Chunking.RunChunks(instructions, MintBatch, mint).failure.None?)
      && |receipts| == |done|
      && forall j :: 0 <= j < |done| ==> receipts[j].tokenId == done[j].tokenId && receipts[j].msgIndex == j % MintBatch
  {
    Chunking.DonePrefix(instructions, MintBatch, Mint(addresses, execute));
    ReceiptsInOrder(addresses, instructions, execute);
  }

  lemma {:induction false} ReceiptsInOrder(addresses: Records.Obj<string>, instructions: seq<Instruction>,
                                           execute: NftHelpers.BatchExecutor)
    ensures var mint := Mint(addresses, execute);
      var receipts := Chunking.RunChunks(instructions, MintBatch, mint).outputs;
      var done := Chunking.Done(instructions, MintBatch, mint);
      && |receipts| == |done|
      && forall j :: 0 <= j < |done| ==> receipts[j].tokenId == done[j].tokenId && receipts[j].msgIndex == j % MintBatch
    decreases |instructions|
  {
    var mint := Mint(addresses, execute);
    if instructions != [] {
      var h := Chunking.Head(instructions, MintBatch);
      if mint(h).Ok? {
        var rest := instructions[|h|..];
        ReceiptsInOrder(addresses, rest, execute);
        BatchReceipts(addresses, h, execute);
        var out := mint(h).value;
        var more := Chunking.RunChunks(rest, MintBatch, mint).outputs;
        var doneRest := Chunking.Done(rest, MintBatch, mint);
        assert Chunking.RunChunks(instructions, MintBatch, mint).outputs == out + more;
        assert Chunking.Done(instructions, MintBatch, mint) == h + doneRest;
        Concatenated(out, more, h, doneRest);
      }
    }
  }

  /** A batch's receipts name its instructions and count their positions. */
  lemma BatchReceipts(addresses: Records.Obj<string>, batch: seq<Instruction>, execute: NftHelpers.BatchExecutor)
    requires NftHelpers.BulkMintOf(addresses, batch, execute).Ok?
    ensures var out := NftHelpers.BulkMintOf(addresses, batch, execute).value;
      |out| == |batch| && forall j :: 0 <= j < |out| ==> out[j].tokenId == batch[j].tokenId && out[j].msgIndex == j
  {
  }

  /** A full batch followed by receipts numbered within their own batches. */
  lemma Concatenated(out: seq<NftTx>, more: seq<NftTx>, h: seq<Instruction>, doneRest: seq<Instruction>)
    requires |out| == |h| && forall j :: 0 <= j < |out| ==> out[j].tokenId == h[j].tokenId && out[j].msgIndex == j
    requires |more| == |doneRest|
    requires forall j :: 0 <= j < |more| ==> more[j].tokenId == doneRest[j].tokenId && more[j].msgIndex == j % MintBatch
    requires |h| <= MintBatch && (more != [] ==> |h| == MintBatch)
    ensures |out + more| == |h + doneRest|
    ensures forall j :: 0 <= j < |h + doneRest| ==>
      (out + more)[j].tokenId == (h + doneRest)[j].tokenId && (out + more)[j].msgIndex == j % MintBatch
  {
    forall j | 0 <= j < |h + doneRest|
      ensures (out + more)[j].tokenId == (h + doneRest)[j].tokenId && (out + more)[j].msgIndex == j % MintBatch
    {
      if j < |h| {
        assert (out + more)[j] == out[j] && (h + doneRest)[j] == h[j];
      } else {
        assert (out + more)[j] == more[j - MintBatch] && (h + doneRest)[j] == doneRest[j - MintBatch];
        ShiftedPosition(j);
      }
    }
  }

  lemma ShiftedPosition(j: int)
    requires j >= MintBatch
    ensures (j - MintBatch) % MintBatch == j % MintBatch
  {
  }

  /** No instructions, no transaction. */
  lemma NoInstructionsNoMint(addresses: Records.Obj<string>, execute: NftHelpers.BatchExecutor)
    ensures Chunking.RunChunks([], MintBatch, Mint(addresses, execute)).submitted == []
  {
  }
}

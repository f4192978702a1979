/** command/upload.ts (`uploadIpfs`): the distinct image filenames of the
    instructions that have no URI yet are pinned in batches of 30, each
    batch merged against the whole instruction list, and the merged
    batches concatenated. */
module UploadCommand {
  import opened Base
  import opened Interfaces
  import Chunking
  import NftHelpers
  import Ipfs

  /** Filenames per `upload` call. */
  const UploadBatch: nat := 30

  /** `!inst.imageUri` fails: the instruction already has a URI. */
  predicate HasUri(inst: Instruction) {
    inst.imageUri.Some? && Truthy(inst.imageUri.value)
  }

  /** The image filenames of the instructions without a URI, in order,
      repeats kept. */
  function Unresolved(instructions: seq<Instruction>): seq<string> {
    if instructions == [] then []
    else
      var inst := instructions[|instructions| - 1];
      Unresolved(instructions[..|instructions| - 1]) + (if HasUri(inst) then [] else [inst.imageFilename])
  }

  /** `[...new Set(...)]`: the same names, once each, in first-occurrence
      order. */
  function UniqueImageFilenames(instructions: seq<Instruction>): seq<string> {
    NftHelpers.Dedup(Unresolved(instructions))
  }

  /** One `upload` call as a batch step. */
  function Batch(instructions: seq<Instruction>, pin: Ipfs.Pinner): seq<string> -> Result<seq<Instruction>, string> {
    (filenames: seq<string>) => Ipfs.UploadOf(instructions, filenames, pin)
  }

  /** The command's outcome: the concatenated merges, or the first pinning
      failure. */
  function UploadIpfsOf(instructions: seq<Instruction>, pin: Ipfs.Pinner): Result<seq<Instruction>, string> {
    var run := Chunking.RunChunks(UniqueImageFilenames(instructions), UploadBatch, Batch(instructions, pin));
    if run.failure.Some? then Err(run.failure.value) else Ok(run.outputs)
  }

  /** `uploadIpfs`. */
  method UploadIpfs(instructions: seq<Instruction>, pin: Ipfs.Pinner) returns (r: Result<seq<Instruction>, string>)
    ensures r == UploadIpfsOf(instructions, pin)
  {
    var uniqueImageFilenames := UniqueImageFilenames(instructions);
    ghost var batch := Batch(instructions, pin);
    var chunkedImageFilenames := uniqueImageFilenames;
    var updatedInstructions: seq<Instruction> := [];
    while |chunkedImageFilenames| > 0
      invariant Chunking.RunChunks(uniqueImageFilenames, UploadBatch, batch).outputs
             == updatedInstructions + Chunking.RunChunks(chunkedImageFilenames, UploadBatch, batch).outputs
      invariant Chunking.RunChunks(uniqueImageFilenames, UploadBatch, batch).failure
             == Chunking.RunChunks(chunkedImageFilenames, UploadBatch, batch).failure
      decreases |chunkedImageFilenames|
    {
      var tempImageFilenames := Chunking.Head(chunkedImageFilenames, UploadBatch);
      var tempInstructions := Ipfs.Upload(instructions, tempImageFilenames, pin);
      assert batch(tempImageFilenames) == tempInstructions;
      if tempInstructions.Err? {
        return Err(tempInstructions.error);
      }
      ghost var rest := Chunking.RunChunks(chunkedImageFilenames[|tempImageFilenames|..], UploadBatch, batch).outputs;
      assert updatedInstructions + (tempInstructions.value + rest) == (updatedInstructions + tempInstructions.value) + rest;
      updatedInstructions := updatedInstructions + tempInstructions.value;
      chunkedImageFilenames := chunkedImageFilenames[|tempImageFilenames|..];
    }
    assert Chunking.RunChunks(uniqueImageFilenames, UploadBatch, batch).outputs == updatedInstructions;
    r := Ok(updatedInstructions);
  }

  /** The URI every pinnable name among `names` gets. */
  function TableOf(names: seq<string>, pin: Ipfs.Pinner): map<string, string> {
    map f | f in names && pin(f).Ok? :: Ipfs.UriOf(pin(f).value)
  }

  /** The filenames to pin are exactly the images of the instructions
      without a URI, each named once. */
  lemma UniqueImageFilenamesMeaning(instructions: seq<Instruction>)
    ensures NoDup(UniqueImageFilenames(instructions))
    ensures forall f :: f in UniqueImageFilenames(instructions) <==>
      exists i :: 0 <= i < |instructions| && !HasUri(instructions[i]) && instructions[i].imageFilename == f
  {
    NftHelpers.DedupMembers(Unresolved(instructions));
    UnresolvedMeaning(instructions);
  }

  lemma {:induction false} UnresolvedMeaning(instructions: seq<Instruction>)
    ensures forall f :: f in Unresolved(instructions) <==>
      exists i :: 0 <= i < |instructions| && !HasUri(instructions[i]) && instructions[i].imageFilename == f
  {
    if instructions != [] {
      var n := |instructions|;
      var init := instructions[..n - 1];
      UnresolvedMeaning(init);
      forall f | f in Unresolved(instructions)
        ensures exists i :: 0 <= i < n && !HasUri(instructions[i]) && instructions[i].imageFilename == f
      {
        if f in Unresolved(init) {
          var i :| 0 <= i < n - 1 && !HasUri(init[i]) && init[i].imageFilename == f;
          assert instructions[i] == init[i];
        } else {
          assert !HasUri(instructions[n - 1]) && instructions[n - 1].imageFilename == f;
        }
      }
      forall f, i | 0 <= i < n && !HasUri(instructions[i]) && instructions[i].imageFilename == f
        ensures f in Unresolved(instructions)
      {
        if i < n - 1 {
          assert init[i] == instructions[i];
        }
      }
    }
  }

  /** Merging against two tables with no name in common yields, together,
      the instructions merging against their union yields. */
  lemma {:induction false} MergeSplit(instructions: seq<Instruction>, a: map<string, string>, b: map<string, string>)
    requires a.Keys !! b.Keys
    ensures multiset(Ipfs.Merge(instructions, a + b))
         == multiset(Ipfs.Merge(instructions, a)) + multiset(Ipfs.Merge(instructions, b))
  {
    if instructions != [] {
      MergeSplit(instructions[..|instructions| - 1], a, b);
    }
  }

  lemma {:induction false} MergeNothing(instructions: seq<Instruction>)
    ensures Ipfs.Merge(instructions, map[]) == []
  {
    if instructions != [] {
      MergeNothing(instructions[..|instructions| - 1]);
    }
  }

  lemma SplitDisjoint(s: seq<string>, k: nat)
    requires NoDup(s) && k <= |s|
    ensures forall f :: f in s[..k] ==> f !in s[k..]
  {
    forall i, j | 0 <= i < k && 0 <= j < |s| - k ensures s[..k][i] != s[k..][j] {
      assert s[..k][i] == s[i] && s[k..][j] == s[k + j];
    }
  }

  /** A batch that pins succeeds with the table of its names. */
  lemma PinnedTable(filenames: seq<string>, pin: Ipfs.Pinner)
    requires Ipfs.PinAll(filenames, pin).Ok?
    ensures Ipfs.PinAll(filenames, pin).value == TableOf(filenames, pin)
  {
    Ipfs.PinAllMeaning(filenames, pin);
  }

  /** The names of a list split in two, when no name repeats. */
  lemma TableSplit(s: seq<string>, k: nat, pin: Ipfs.Pinner)
    requires NoDup(s) && k <= |s|
    ensures NoDup(s[k..])
    ensures TableOf(s[..k], pin).Keys !! TableOf(s[k..], pin).Keys
    ensures TableOf(s, pin) == TableOf(s[..k], pin) + TableOf(s[k..], pin)
  {
    SplitDisjoint(s, k);
    assert s == s[..k] + s[k..];
    forall i, j | 0 <= i < j < |s| - k ensures s[k..][i] != s[k..][j] {
      assert s[k..][i] == s[k + i] && s[k..][j] == s[k + j];
    }
  }

  /** A first batch that pins adds its merge ahead of the rest of the run. */
  lemma RunStep(instructions: seq<Instruction>, s: seq<string>, pin: Ipfs.Pinner)
    requires s != [] && Ipfs.PinAll(Chunking.Head(s, UploadBatch), pin).Ok?
    ensures var h := Chunking.Head(s, UploadBatch);
      var run := Chunking.RunChunks(s, UploadBatch, Batch(instructions, pin));
      var restRun := Chunking.RunChunks(s[|h|..], UploadBatch, Batch(instructions, pin));
      && run.failure == restRun.failure
      && run.outputs == Ipfs.Merge(instructions, TableOf(h, pin)) + restRun.outputs
  {
    PinnedTable(Chunking.Head(s, UploadBatch), pin);
  }

  /** Every name of a list pins exactly when every name of its head and of
      its tail pins. */
  lemma AllPinSplit(s: seq<string>, k: nat, pin: Ipfs.Pinner)
    requires k <= |s|
    ensures (forall i :: 0 <= i < |s| ==> pin(s[i]).Ok?)
        <==> (forall i :: 0 <= i < k ==> pin(s[..k][i]).Ok?) && (forall i :: 0 <= i < |s| - k ==> pin(s[k..][i]).Ok?)
  {
    assert forall i :: 0 <= i < k ==> s[..k][i] == s[i];
    assert forall i :: 0 <= i < |s| - k ==> s[k..][i] == s[k + i];
    if (forall i :: 0 <= i < k ==> pin(s[..k][i]).Ok?) && (forall i :: 0 <= i < |s| - k ==> pin(s[k..][i]).Ok?) {
      forall i | 0 <= i < |s| ensures pin(s[i]).Ok? {
        if i >= k {
          assert s[i] == s[k..][i - k];
        }
      }
    }
  }

  /** Batching distinct names: the run fails exactly when some name does
      not pin, and otherwise holds each instruction once per batch table
      it matches, that is, once in all. */
  lemma {:induction false} RunMeaning(instructions: seq<Instruction>, s: seq<string>, pin: Ipfs.Pinner)
    requires NoDup(s)
    ensures var run := Chunking.RunChunks(s, UploadBatch, Batch(instructions, pin));
      && (run.failure.None? <==> forall i :: 0 <= i < |s| ==> pin(s[i]).Ok?)
      && (run.failure.None? ==> multiset(run.outputs) == multiset(Ipfs.Merge(instructions, TableOf(s, pin))))
    decreases |s|
  {
    if s == [] {
      assert TableOf(s, pin) == map[];
      MergeNothing(instructions);
    } else {
      var h := Chunking.Head(s, UploadBatch);
      var rest := s[|h|..];
      TableSplit(s, |h|, pin);
      AllPinSplit(s, |h|, pin);
      Ipfs.PinAllMeaning(h, pin);
      if Ipfs.PinAll(h, pin).Ok? {
        RunMeaning(instructions, rest, pin);
        RunStep(instructions, s, pin);
        MergeSplit(instructions, TableOf(h, pin), TableOf(rest, pin));
      }
    }
  }

  /** The command fails exactly when some image without a URI fails to pin.
      Otherwise its output is, up to order, the single-pass merge of the
      instructions against the URIs of all those images: each instruction
      whose image was pinned appears exactly once, with its new URI. */
  lemma UploadIpfsMeaning(instructions: seq<Instruction>, pin: Ipfs.Pinner)
    ensures UploadIpfsOf(instructions, pin).Ok? <==>
      forall i :: 0 <= i < |instructions| && !HasUri(instructions[i]) ==> pin(instructions[i].imageFilename).Ok?
    ensures UploadIpfsOf(instructions, pin).Ok? ==>
      multiset(UploadIpfsOf(instructions, pin).value)
      == multiset(Ipfs.Merge(instructions, TableOf(Unresolved(instructions), pin)))
  {
    var u := Unresolved(instructions);
    var unique := UniqueImageFilenames(instructions);
    NftHelpers.DedupMembers(u);
    UnresolvedMeaning(instructions);
    RunMeaning(instructions, unique, pin);
    assert TableOf(unique, pin) == TableOf(u, pin);
    if forall i :: 0 <= i < |unique| ==> pin(unique[i]).Ok? {
      forall i | 0 <= i < |instructions| && !HasUri(instructions[i])
        ensures pin(instructions[i].imageFilename).Ok?
      {
        assert instructions[i].imageFilename in unique;
      }
    } else {
      var k :| 0 <= k < |unique| && !pin(unique[k]).Ok?;
      assert unique[k] in u;
      var i :| 0 <= i < |instructions| && !HasUri(instructions[i]) && instructions[i].imageFilename == unique[k];
    }
  }

  /** Every instruction the command returns carries the URI of an image
      that had none: an instruction that already had a URI survives only
      when its filename is shared with one that did not. */
  lemma UploadKeepsOnlyPinned(instructions: seq<Instruction>, pin: Ipfs.Pinner)
    ensures UploadIpfsOf(instructions, pin).Ok? ==>
      forall x :: x in UploadIpfsOf(instructions, pin).value ==>
        && x.imageFilename in Unresolved(instructions)
        && pin(x.imageFilename).Ok?
        && x.imageUri == Some(Ipfs.UriOf(pin(x.imageFilename).value))
        && exists i :: 0 <= i < |instructions| && x == instructions[i].(imageUri := x.imageUri)
  {
    var t := TableOf(Unresolved(instructions), pin);
    if UploadIpfsOf(instructions, pin).Ok? {
      UploadIpfsMeaning(instructions, pin);
      Ipfs.MergeMeaning(instructions, t);
      var merged := Ipfs.Merge(instructions, t);
      var k := Ipfs.Kept(instructions, t);
      forall x | x in UploadIpfsOf(instructions, pin).value
        ensures x.imageFilename in Unresolved(instructions)
        ensures pin(x.imageFilename).Ok?
        ensures x.imageUri == Some(Ipfs.UriOf(pin(x.imageFilename).value))
        ensures exists i :: 0 <= i < |instructions| && x == instructions[i].(imageUri := x.imageUri)
      {
        assert x in multiset(merged);
        var j :| 0 <= j < |merged| && merged[j] == x;
        assert instructions[k[j]].imageFilename in t;
      }
    }
  }
}

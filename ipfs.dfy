/** helpers/ipfs.ts (`upload`): pin each named image file, note its
    `ipfs://` URI, then hand back the instructions whose image was pinned,
    each with its URI set. The pinning service is a parameter. */
module Ipfs {
  import opened Base
  import opened Interfaces

  /** Pins one image file and answers its content hash; the HTTP call, the
      file read and the delays before it are not modelled. */
  type Pinner = string -> Result<string, string>

  function UriOf(hash: string): string {
    "ipfs://" + hash
  }

  /** The filename-to-URI table after pinning `filenames` in order; any
      failure fails the whole call (the first one in list order is the one
      reported). */
  function PinAll(filenames: seq<string>, pin: Pinner): Result<map<string, string>, string> {
    if filenames == [] then Ok(map[])
    else
      match PinAll(filenames[..|filenames| - 1], pin)
      case Err(e) => Err(e)
      case Ok(table) =>
        var f := filenames[|filenames| - 1];
        match pin(f)
        case Err(e) => Err(e)
        case Ok(hash) => Ok(table[f := UriOf(hash)])
  }

  /** The instructions whose image has a URI in `table`, in order, each
      with that URI. */
  function Merge(instructions: seq<Instruction>, table: map<string, string>): seq<Instruction> {
    if instructions == [] then []
    else
      var rest := Merge(instructions[..|instructions| - 1], table);
      var inst := instructions[|instructions| - 1];
      if inst.imageFilename in table then rest + [inst.(imageUri := Some(table[inst.imageFilename]))] else rest
  }

  function UploadOf(instructions: seq<Instruction>, uniqueImageFilenames: seq<string>, pin: Pinner)
    : Result<seq<Instruction>, string>
  {
    match PinAll(uniqueImageFilenames, pin)
    case Err(e) => Err(e)
    case Ok(table) => Ok(Merge(instructions, table))
  }

  /** `upload`. */
  method Upload(instructions: seq<Instruction>, uniqueImageFilenames: seq<string>, pin: Pinner)
    returns (r: Result<seq<Instruction>, string>)
    ensures r == UploadOf(instructions, uniqueImageFilenames, pin)
  {
    var filenameToUri: map<string, string> := map[];
    for i := 0 to |uniqueImageFilenames|
      invariant PinAll(uniqueImageFilenames[..i], pin) == Ok(filenameToUri)
    {
      assert uniqueImageFilenames[..i + 1][..i] == uniqueImageFilenames[..i];
      var response := pin(uniqueImageFilenames[i]);
      if response.Err? {
        PinErrorStays(uniqueImageFilenames, pin, i + 1);
        return Err(response.error);
      }
      filenameToUri := filenameToUri[uniqueImageFilenames[i] := UriOf(response.value)];
    }
    assert uniqueImageFilenames[..|uniqueImageFilenames|] == uniqueImageFilenames;
    var updatedInstructions: seq<Instruction> := [];
    for i := 0 to |instructions|
      invariant updatedInstructions == Merge(instructions[..i], filenameToUri)
    {
      assert instructions[..i + 1][..i] == instructions[..i];
      var inst := instructions[i];
      if inst.imageFilename in filenameToUri {
        updatedInstructions := updatedInstructions + [inst.(imageUri := Some(filenameToUri[inst.imageFilename]))];
      }
    }
    assert instructions[..|instructions|] == instructions;
    r := Ok(updatedInstructions);
  }

  lemma {:induction false} PinErrorStays(filenames: seq<string>, pin: Pinner, k: nat)
    requires k <= |filenames| && PinAll(filenames[..k], pin).Err?
    ensures PinAll(filenames, pin) == PinAll(filenames[..k], pin)
    decreases |filenames| - k
  {
    if k < |filenames| {
      assert filenames[..k + 1][..k] == filenames[..k];
      PinErrorStays(filenames, pin, k + 1);
    } else {
      assert filenames[..k] == filenames;
    }
  }

  /** `table` maps exactly the names in `filenames`, each to `ipfs://`
      and the hash its pin answered. */
  ghost predicate PinTable(table: map<string, string>, filenames: seq<string>, pin: Pinner) {
    && table.Keys == (set f | f in filenames)
    && forall f :: f in table ==> pin(f).Ok? && table[f] == UriOf(pin(f).value)
  }

  /** Pinning one more file that pins extends the table by it. */
  lemma PinTableStep(table: map<string, string>, init: seq<string>, f: string, pin: Pinner)
    requires PinTable(table, init, pin) && pin(f).Ok?
    ensures PinTable(table[f := UriOf(pin(f).value)], init + [f], pin)
  {
    assert (set g | g in init + [f]) == (set g | g in init) + {f};
  }

  /** Pinning succeeds exactly when every file pins; the table then maps
      exactly the given names, each to `ipfs://` and its hash. */
  lemma {:induction false} PinAllMeaning(filenames: seq<string>, pin: Pinner)
    ensures PinAll(filenames, pin).Ok? <==> forall i :: 0 <= i < |filenames| ==> pin(filenames[i]).Ok?
    ensures PinAll(filenames, pin).Ok? ==>
      && PinAll(filenames, pin).value.Keys == set f | f in filenames
      && forall f :: f in PinAll(filenames, pin).value ==> pin(f).Ok? && PinAll(filenames, pin).value[f] == UriOf(pin(f).value)
  {
    if filenames != [] {
      var init := filenames[..|filenames| - 1];
      var f := filenames[|filenames| - 1];
      PinAllMeaning(init, pin);
      assert filenames == init + [f];
      if PinAll(init, pin).Ok? {
        if pin(f).Ok? {
          PinTableStep(PinAll(init, pin).value, init, f, pin);
        }
      } else {
        var i :| 0 <= i < |init| && !pin(init[i]).Ok?;
        assert filenames[i] == init[i];
      }
    }
  }

  /** Which input each merged instruction comes from. */
  ghost function Kept(instructions: seq<Instruction>, table: map<string, string>): seq<nat> {
    if instructions == [] then []
    else
      Kept(instructions[..|instructions| - 1], table)
      + (if instructions[|instructions| - 1].imageFilename in table then [|instructions| - 1] else [])
  }

  /** `out` is the instructions at the increasing positions `k` of
      `instructions`, each with its URI from `table`, and `k` holds exactly
      the positions whose image has one. */
  ghost predicate Tracks(instructions: seq<Instruction>, table: map<string, string>, out: seq<Instruction>, k: seq<nat>) {
    && |out| == |k|
    && (forall j :: 0 <= j < |k| ==>
          && k[j] < |instructions| && instructions[k[j]].imageFilename in table
          && out[j] == instructions[k[j]].(imageUri := Some(table[instructions[k[j]].imageFilename])))
    && (forall a, b :: 0 <= a < b < |k| ==> k[a] < k[b])
    && (forall i :: 0 <= i < |instructions| ==> (instructions[i].imageFilename in table <==> i in k))
  }

  /** One more instruction whose image has a URI is kept, with it. */
  lemma TracksKeep(instructions: seq<Instruction>, table: map<string, string>, out: seq<Instruction>, k: seq<nat>)
    requires |instructions| > 0 && Tracks(instructions[..|instructions| - 1], table, out, k)
    requires instructions[|instructions| - 1].imageFilename in table
    ensures var n := |instructions|;
      Tracks(instructions, table, out + [instructions[n - 1].(imageUri := Some(table[instructions[n - 1].imageFilename]))],
             k + [n - 1])
  {
    var init := instructions[..|instructions| - 1];
    assert forall i :: 0 <= i < |init| ==> init[i] == instructions[i];
  }

  /** One more instruction whose image has none is dropped. */
  lemma TracksDrop(instructions: seq<Instruction>, table: map<string, string>, out: seq<Instruction>, k: seq<nat>)
    requires |instructions| > 0 && Tracks(instructions[..|instructions| - 1], table, out, k)
    requires instructions[|instructions| - 1].imageFilename !in table
    ensures Tracks(instructions, table, out, k)
  {
    var init := instructions[..|instructions| - 1];
    assert forall i :: 0 <= i < |init| ==> init[i] == instructions[i];
    assert |instructions| - 1 !in k;
  }

  /** The merge keeps, in input order, exactly the instructions whose image
      has a URI, and changes nothing in them but the URI. */
  lemma {:induction false} MergeMeaning(instructions: seq<Instruction>, table: map<string, string>)
    ensures Tracks(instructions, table, Merge(instructions, table), Kept(instructions, table))
  {
    if instructions != [] {
      var n := |instructions|;
      var init := instructions[..n - 1];
      MergeMeaning(init, table);
      if instructions[n - 1].imageFilename in table {
        TracksKeep(instructions, table, Merge(init, table), Kept(init, table));
      } else {
        TracksDrop(instructions, table, Merge(init, table), Kept(init, table));
      }
    }
  }
}

/** helpers/minter.ts (`parseMasterConfig`): the rows of the master config
    CSV, checked one by one in file order and turned into mint
    instructions; the first bad row stops the program. */
module Minter {
  import opened Base
  import opened Interfaces

  /** One row of the master config, its columns by header name. */
  datatype Record = Record(
    id: string,
    name: string,
    imageFilename: string,
    metadataFilename: string,
    ipfs: string,
    owner: string)

  /** Why a row stops the program (`process.exit(-1)` after the message). */
  datatype ConfigError =
    | MissingId(id: string)
    | DuplicateId(id: string)
    | MissingName(id: string)
    | ImageNotFound(imageFilename: string)
    | MetadataNotFound(metadataFilename: string)
    | InvalidOwner(owner: string)

  /** What the checks ask of the outside world: whether a path names an
      existing file (`fs.existsSync`) and whether a string is a valid
      account address (`AccAddress.validate`). */
  datatype Environment = Environment(fileExists: string -> bool, validAddress: string -> bool)

  const IpfsScheme := "ipfs://"

  /** An empty metadata filename reads as null. */
  function MetadataOf(record: Record): Option<string> {
    if record.metadataFilename == "" then None else Some(record.metadataFilename)
  }

  /** The instruction a row becomes; the `ipfs` column is not carried. */
  function InstructionOf(record: Record): Instruction {
    Instruction(record.id, record.name, record.imageFilename, MetadataOf(record), None, record.owner, None, None)
  }

  /** The checks on one row, in the order they run, given the ids of the
      rows before it. */
  function CheckRecord(record: Record, seen: set<string>, imagePath: string, metadataPath: string, env: Environment)
    : Result<Instruction, ConfigError>
  {
    var metadataFilename := MetadataOf(record);
    if !Truthy(record.id) then Err(MissingId(record.id))
    else if record.id in seen then Err(DuplicateId(record.id))
    else if !Truthy(record.name) then Err(MissingName(record.id))
    else if !StartsWith(record.ipfs, IpfsScheme) && !env.fileExists(imagePath + "/" + record.imageFilename) then
      Err(ImageNotFound(record.imageFilename))
    else if metadataPath != "" && metadataFilename.Some? && !env.fileExists(metadataPath + "/" + metadataFilename.value) then
      Err(MetadataNotFound(metadataFilename.value))
    else if record.owner != "candy" && !env.validAddress(record.owner) then Err(InvalidOwner(record.owner))
    else Ok(InstructionOf(record))
  }

  function TokenIds(instructions: seq<Instruction>): set<string> {
    set inst | inst in instructions :: inst.tokenId
  }

  /** The whole file: every row's instruction, or the first row's error. */
  function ParseOf(records: seq<Record>, imagePath: string, metadataPath: string, env: Environment)
    : Result<seq<Instruction>, ConfigError>
  {
    if records == [] then Ok([])
    else
      match ParseOf(records[..|records| - 1], imagePath, metadataPath, env)
      case Err(e) => Err(e)
      case Ok(instructions) =>
        match CheckRecord(records[|records| - 1], TokenIds(instructions), imagePath, metadataPath, env)
        case Err(e) => Err(e)
        case Ok(inst) => Ok(instructions + [inst])
  }

  /** `parseMasterConfig`; reading and splitting the CSV file is not
      modelled, the rows arrive parsed. */
  method ParseMasterConfig(records: seq<Record>, imagePath: string, metadataPath: string, env: Environment)
    returns (r: Result<seq<Instruction>, ConfigError>)
    ensures r == ParseOf(records, imagePath, metadataPath, env)
  {
    var instructions: seq<Instruction> := [];
    var tokenSet: set<string> := {};
    for i := 0 to |records|
      invariant ParseOf(records[..i], imagePath, metadataPath, env) == Ok(instructions)
      invariant tokenSet == TokenIds(instructions)
    {
      ParseStep(records, imagePath, metadataPath, env, i, instructions);
      var record := records[i];
      var outcome := CheckRecord(record, tokenSet, imagePath, metadataPath, env);
      if outcome.Err? {
        ParseErrorStays(records, imagePath, metadataPath, env, i + 1);
        return Err(outcome.error);
      }
      IdsGrow(instructions, outcome.value);
      tokenSet := tokenSet + {record.id};
      instructions := instructions + [outcome.value];
    }
    assert records[..|records|] == records;
    r := Ok(instructions);
  }

  /** One more row: the parse so far, extended by that row's checks. */
  lemma ParseStep(records: seq<Record>, imagePath: string, metadataPath: string, env: Environment, i: nat,
                  instructions: seq<Instruction>)
    requires i < |records| && ParseOf(records[..i], imagePath, metadataPath, env) == Ok(instructions)
    ensures ParseOf(records[..i + 1], imagePath, metadataPath, env) ==
      match CheckRecord(records[i], TokenIds(instructions), imagePath, metadataPath, env)
      case Err(e) => Err(e)
      case Ok(inst) => Ok(instructions + [inst])
  {
    assert records[..i + 1][..i] == records[..i];
  }

  lemma IdsGrow(instructions: seq<Instruction>, inst: Instruction)
    ensures TokenIds(instructions + [inst]) == TokenIds(instructions) + {inst.tokenId}
  {
    var s := instructions + [inst];
    assert forall x :: x in s <==> x in instructions || x == inst;
  }

  lemma {:induction false} ParseErrorStays(records: seq<Record>, imagePath: string, metadataPath: string, env: Environment, k: nat)
    requires k <= |records| && ParseOf(records[..k], imagePath, metadataPath, env).Err?
    ensures ParseOf(records, imagePath, metadataPath, env) == ParseOf(records[..k], imagePath, metadataPath, env)
    decreases |records| - k
  {
    if k < |records| {
      assert records[..k + 1][..k] == records[..k];
      ParseErrorStays(records, imagePath, metadataPath, env, k + 1);
    } else {
      assert records[..k] == records;
    }
  }

  /** A row passes its own checks, the id aside. */
  predicate RowValid(record: Record, imagePath: string, metadataPath: string, env: Environment) {
    && record.id != ""
    && record.name != ""
    && (StartsWith(record.ipfs, IpfsScheme) || env.fileExists(imagePath + "/" + record.imageFilename))
    && (metadataPath == "" || record.metadataFilename == "" || env.fileExists(metadataPath + "/" + record.metadataFilename))
    && (record.owner == "candy" || env.validAddress(record.owner))
  }

  /** A row passes exactly when it is valid and its id is new, and then
      becomes its instruction. */
  lemma CheckRecordMeaning(record: Record, seen: set<string>, imagePath: string, metadataPath: string, env: Environment)
    ensures CheckRecord(record, seen, imagePath, metadataPath, env).Ok?
        <==> RowValid(record, imagePath, metadataPath, env) && record.id !in seen
    ensures CheckRecord(record, seen, imagePath, metadataPath, env).Ok?
        ==> CheckRecord(record, seen, imagePath, metadataPath, env).value == InstructionOf(record)
  {
  }

  /** An accepted file yields one instruction per row, in order. */
  lemma {:induction false} ParseShape(records: seq<Record>, imagePath: string, metadataPath: string, env: Environment)
    ensures ParseOf(records, imagePath, metadataPath, env).Ok? ==>
      var out := ParseOf(records, imagePath, metadataPath, env).value;
      |out| == |records| && forall i :: 0 <= i < |records| ==> out[i] == InstructionOf(records[i])
  {
    if records != [] {
      var init := records[..|records| - 1];
      ParseShape(init, imagePath, metadataPath, env);
      assert forall i :: 0 <= i < |init| ==> init[i] == records[i];
    }
  }

  /** The ids an accepted prefix has taken. */
  lemma IdsTaken(records: seq<Record>, instructions: seq<Instruction>)
    requires |instructions| == |records| && forall i :: 0 <= i < |records| ==> instructions[i] == InstructionOf(records[i])
    ensures forall x :: x in TokenIds(instructions) <==> exists i :: 0 <= i < |records| && records[i].id == x
  {
    forall x | x in TokenIds(instructions) ensures exists i :: 0 <= i < |records| && records[i].id == x {
      var inst :| inst in instructions && inst.tokenId == x;
      var i :| 0 <= i < |instructions| && instructions[i] == inst;
    }
    forall i | 0 <= i < |records| ensures records[i].id in TokenIds(instructions) {
      assert instructions[i] in instructions;
    }
  }

  predicate AllValid(records: seq<Record>, imagePath: string, metadataPath: string, env: Environment) {
    forall i :: 0 <= i < |records| ==> RowValid(records[i], imagePath, metadataPath, env)
  }

  predicate IdsDistinct(records: seq<Record>) {
    forall i, j :: 0 <= i < j < |records| ==> records[i].id != records[j].id
  }

  /** Both conditions, split at the last row. */
  lemma SplitLast(records: seq<Record>, imagePath: string, metadataPath: string, env: Environment)
    requires |records| > 0
    ensures var init, last := records[..|records| - 1], records[|records| - 1];
      && (AllValid(records, imagePath, metadataPath, env)
          <==> AllValid(init, imagePath, metadataPath, env) && RowValid(last, imagePath, metadataPath, env))
      && (IdsDistinct(records) <==> IdsDistinct(init) && forall i :: 0 <= i < |init| ==> init[i].id != last.id)
  {
    var init := records[..|records| - 1];
    assert forall i :: 0 <= i < |init| ==> init[i] == records[i];
  }

  /** The file is accepted exactly when every row is valid and no id
      repeats. */
  lemma {:induction false} ParseAccepts(records: seq<Record>, imagePath: string, metadataPath: string, env: Environment)
    ensures ParseOf(records, imagePath, metadataPath, env).Ok? <==>
      AllValid(records, imagePath, metadataPath, env) && IdsDistinct(records)
  {
    if records != [] {
      var n := |records|;
      var init := records[..n - 1];
      var last := records[n - 1];
      ParseAccepts(init, imagePath, metadataPath, env);
      SplitLast(records, imagePath, metadataPath, env);
      var before := ParseOf(init, imagePath, metadataPath, env);
      if before.Ok? {
        ParseShape(init, imagePath, metadataPath, env);
        IdsTaken(init, before.value);
        CheckRecordMeaning(last, TokenIds(before.value), imagePath, metadataPath, env);
      }
    }
  }

  /** An accepted file yields one instruction per row, in order, with the
      row's id, name, filenames and owner, an empty metadata filename read
      as none, and no URI, description or attributes. */
  lemma ParseMeaning(records: seq<Record>, imagePath: string, metadataPath: string, env: Environment)
    ensures ParseOf(records, imagePath, metadataPath, env).Ok? ==>
      var out := ParseOf(records, imagePath, metadataPath, env).value;
      && |out| == |records|
      && (forall i, j :: 0 <= i < j < |out| ==> out[i].tokenId != out[j].tokenId)
      && (forall i :: 0 <= i < |records| ==>
            && out[i].tokenId == records[i].id && out[i].name == records[i].name
            && out[i].imageFilename == records[i].imageFilename
            && out[i].metadataFilename == (if records[i].metadataFilename == "" then None else Some(records[i].metadataFilename))
            && out[i].imageUri.None? && out[i].owner == records[i].owner
            && out[i].description.None? && out[i].attributes.None?)
  {
    ParseShape(records, imagePath, metadataPath, env);
    ParseAccepts(records, imagePath, metadataPath, env);
  }

  /** A rejected file is rejected by its first bad row: the rows before it
      parse, and its checks fail with the reported error. */
  lemma {:induction false} ParseStopsAtFirstBadRow(records: seq<Record>, imagePath: string, metadataPath: string, env: Environment)
    ensures ParseOf(records, imagePath, metadataPath, env).Err? ==>
      exists k :: 0 <= k < |records|
        && ParseOf(records[..k], imagePath, metadataPath, env).Ok?
        && CheckRecord(records[k], TokenIds(ParseOf(records[..k], imagePath, metadataPath, env).value), imagePath, metadataPath, env)
           == Err(ParseOf(records, imagePath, metadataPath, env).error)
  {
    if records != [] {
      var n := |records|;
      var init := records[..n - 1];
      ParseStopsAtFirstBadRow(init, imagePath, metadataPath, env);
      var before := ParseOf(init, imagePath, metadataPath, env);
      if before.Err? {
        var k :| 0 <= k < |init| && ParseOf(init[..k], imagePath, metadataPath, env).Ok?
          && CheckRecord(init[k], TokenIds(ParseOf(init[..k], imagePath, metadataPath, env).value), imagePath, metadataPath, env)
             == Err(before.error);
        assert init[..k] == records[..k] && init[k] == records[k];
      } else {
        assert records[..n - 1] == init;
      }
    }
  }
}

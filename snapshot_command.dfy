/** command/snapshot.ts: holder snapshots taken in batches of 30 token ids,
    one batch after another, keeping what was found when a batch fails. */
module SnapshotCommand {
  import opened Base
  import opened Records
  import opened Interfaces
  import opened Chain
  import Chunking
  import SnapshotHelpers
  import NftCommand

  /** Token ids per `snapshot` call. */
  const SnapshotBatch: nat := 30

  // =======================================================================
  // The memo table: which role name each configured address plays.

  /** `addressMemos[addresses[key]] = key` for every key in order: a later
      role for the same address overwrites an earlier one. */
  function Invert(addresses: Obj<string>): Obj<string> {
    if addresses == [] then []
    else
      var last := addresses[|addresses| - 1];
      Put(Invert(addresses[..|addresses| - 1]), last.val, last.key)
  }

  /** An address no role holds reads as undefined, and only such an
      address does. */
  lemma {:induction false} InvertAbsent(addresses: Obj<string>, address: string)
    ensures (forall i :: 0 <= i < |addresses| ==> addresses[i].val != address) <==> Get(Invert(addresses), address).None?
  {
    if addresses != [] {
      var n := |addresses|;
      var init := addresses[..n - 1];
      var last := addresses[n - 1];
      InvertAbsent(init, address);
      assert Invert(addresses) == Put(Invert(init), last.val, last.key);
      if last.val == address {
        PutGetSame(Invert(init), last.val, last.key);
        assert addresses[n - 1].val == address;
      } else {
        PutGetOther(Invert(init), last.val, last.key, address);
        if forall i :: 0 <= i < n - 1 ==> init[i].val != address {
          forall i | 0 <= i < n ensures addresses[i].val != address {
            if i < n - 1 {
              assert addresses[i] == init[i];
            }
          }
        } else {
          var i :| 0 <= i < n - 1 && init[i].val == address;
          assert addresses[i] == init[i];
        }
      }
    }
  }

  /** An address reads as the role of the last entry holding it: a later
      role overwrites an earlier one. */
  lemma {:induction false} InvertLastRoleWins(addresses: Obj<string>, address: string, i: nat)
    requires i < |addresses| && addresses[i].val == address
    requires forall j :: i < j < |addresses| ==> addresses[j].val != address
    ensures Get(Invert(addresses), address) == Some(addresses[i].key)
  {
    var n := |addresses|;
    var init := addresses[..n - 1];
    var last := addresses[n - 1];
    assert Invert(addresses) == Put(Invert(init), last.val, last.key);
    if i == n - 1 {
      PutGetSame(Invert(init), last.val, last.key);
    } else {
      assert last.val != address;
      assert init[i] == addresses[i];
      forall j | i < j < n - 1 ensures init[j].val != address {
        assert init[j] == addresses[j];
      }
      InvertLastRoleWins(init, address, i);
      PutGetOther(Invert(init), last.val, last.key, address);
    }
  }

  /** Fills the memo table from the configured addresses. */
  method MemoTable(addresses: Obj<string>) returns (addressMemos: Obj<string>)
    ensures addressMemos == Invert(addresses)
  {
    addressMemos := [];
    for i := 0 to |addresses|
      invariant addressMemos == Invert(addresses[..i])
    {
      assert addresses[..i + 1][..i] == addresses[..i];
      addressMemos := Put(addressMemos, addresses[i].val, addresses[i].key);
    }
    assert addresses[..|addresses|] == addresses;
  }

  // =======================================================================
  // The batch loop both commands run.

  /** One `snapshot` call on a batch of token ids. */
  function Batch(network: string, nftContract: string, findOriginalOwner: bool, addressMemos: Obj<string>,
                 gateway: Gateway, height: Option<nat>, now: Instant): seq<string> -> Result<seq<NftOwner>, string>
  {
    (ids: seq<string>) => SnapshotHelpers.SnapshotOf(network, nftContract, ids, findOriginalOwner, addressMemos,
                                                     gateway, height, now)
  }

  /** The owners a batch loop collects: those of the batches before the
      first failure, in batch order. */
  function OwnersOf(network: string, nftContract: string, ids: seq<string>, findOriginalOwner: bool,
                    addressMemos: Obj<string>, gateway: Gateway, height: Option<nat>, now: Instant): seq<NftOwner>
  {
    Chunking.RunChunks(ids, SnapshotBatch, Batch(network, nftContract, findOriginalOwner, addressMemos, gateway, height, now)).outputs
  }

  /** `while (ids.length > 0) { tempIds = ids.splice(0, 30); ... }` on a
      copy of the ids, with the error caught: the owners found so far, and
      how many of them the progress counter shows. */
  method SnapshotInBatches(network: string, nftContract: string, tokenIds: seq<string>, findOriginalOwner: bool,
                           addressMemos: Obj<string>, gateway: Gateway, height: Option<nat>, now: Instant)
    returns (owners: seq<NftOwner>, count: nat)
    ensures owners == OwnersOf(network, nftContract, tokenIds, findOriginalOwner, addressMemos, gateway, height, now)
    ensures count == |owners|
  {
    ghost var batch := Batch(network, nftContract, findOriginalOwner, addressMemos, gateway, height, now);
    var ids := tokenIds;
    owners := [];
    count := 0;
    while |ids| > 0
      invariant Chunking.RunChunks(tokenIds, SnapshotBatch, batch).outputs
             == owners + Chunking.RunChunks(ids, SnapshotBatch, batch).outputs
      invariant count == |owners|
      decreases |ids|
    {
      var tempIds := Chunking.Head(ids, SnapshotBatch);
      var tempOwners := SnapshotHelpers.Snapshot(network, nftContract, tempIds, findOriginalOwner, addressMemos,
                                                 gateway, height, now);
      if tempOwners.Err? {
        break;
      }
      count := count + |tempOwners.value|;
      owners := owners + tempOwners.value;
      ids := ids[|tempIds|..];
    }
  }

  /** `owners` holds one owner of `nftContract` per id of `ids`. */
  predicate Names(owners: seq<NftOwner>, ids: seq<string>, nftContract: string) {
    && |owners| == |ids|
    && multiset(SnapshotHelpers.TokenIds(owners)) == multiset(ids)
    && forall i :: 0 <= i < |owners| ==> owners[i].nftContract == nftContract
  }

  lemma NamesJoin(out: seq<NftOwner>, more: seq<NftOwner>, h: seq<string>, rest: seq<string>, nftContract: string)
    requires Names(out, h, nftContract) && Names(more, rest, nftContract)
    ensures Names(out + more, h + rest, nftContract)
  {
    assert SnapshotHelpers.TokenIds(out + more) == SnapshotHelpers.TokenIds(out) + SnapshotHelpers.TokenIds(more);
    forall i | 0 <= i < |out + more| ensures (out + more)[i].nftContract == nftContract {
      if i >= |out| {
        assert (out + more)[i] == more[i - |out|];
      }
    }
  }

  /** The owners collected name exactly the token ids of the batches that
      completed (a leading part of the ids, all of them unless a batch
      failed), one owner per id. */
  lemma {:induction false} OwnersMatchCompletedIds(network: string, nftContract: string, ids: seq<string>,
                                                   findOriginalOwner: bool, addressMemos: Obj<string>, gateway: Gateway,
                                                   height: Option<nat>, now: Instant)
    ensures var batch := Batch(network, nftContract, findOriginalOwner, addressMemos, gateway, height, now);
      var owners := OwnersOf(network, nftContract, ids, findOriginalOwner, addressMemos, gateway, height, now);
      var done := Chunking.Done(ids, SnapshotBatch, batch);
      && |owners| == |done|
      && multiset(SnapshotHelpers.TokenIds(owners)) == multiset(done)
      && (forall i :: 0 <= i < |owners| ==> owners[i].nftContract == nftContract)
    decreases |ids|
  {
    var batch := Batch(network, nftContract, findOriginalOwner, addressMemos, gateway, height, now);
    if ids != [] {
      var h := Chunking.Head(ids, SnapshotBatch);
      if batch(h).Ok? {
        var rest := ids[|h|..];
        OwnersMatchCompletedIds(network, nftContract, rest, findOriginalOwner, addressMemos, gateway, height, now);
        SnapshotHelpers.OneHolderPerToken(network, nftContract, h, findOriginalOwner, addressMemos, gateway, height, now);
        var out := batch(h).value;
        var more := OwnersOf(network, nftContract, rest, findOriginalOwner, addressMemos, gateway, height, now);
        var doneRest := Chunking.Done(rest, SnapshotBatch, batch);
        assert Names(out, h, nftContract);
        assert Names(more, doneRest, nftContract);
        NamesJoin(out, more, h, doneRest, nftContract);
        assert OwnersOf(network, nftContract, ids, findOriginalOwner, addressMemos, gateway, height, now) == out + more;
        assert Chunking.Done(ids, SnapshotBatch, batch) == h + doneRest;
      }
    }
  }

  // =======================================================================
  // nftHolderSnapshot

  /** The contract address the queries are sent to: the `collection`
      entry, or, when there is none, `undefined`, which the client writes
      into the query's path as it stands. */
  const UndefinedAddress: string := "undefined"

  function CollectionOf(addresses: Obj<string>): string {
    match Get(addresses, "collection")
    case None => UndefinedAddress
    case Some(nftContract) => nftContract
  }

  /** The owners `nftHolderSnapshot` reports: nothing for no instructions;
      otherwise the batch loop over the instructions' token ids, on the
      contract configured as `collection`, annotated from the memo table. */
  function HolderSnapshotOf(addresses: Obj<string>, instructions: seq<Instruction>, findOriginalOwner: bool,
                            network: string, gateway: Gateway, height: Option<nat>, now: Instant)
    : Option<seq<NftOwner>>
  {
    if instructions == [] then None
    else
      Some(OwnersOf(network, CollectionOf(addresses), TokenIdsOf(instructions), findOriginalOwner, Invert(addresses),
                    gateway, height, now))
  }

  function TokenIdsOf(instructions: seq<Instruction>): (ids: seq<string>)
    ensures |ids| == |instructions| && forall i :: 0 <= i < |ids| ==> ids[i] == instructions[i].tokenId
  {
    seq(|instructions|, i requires 0 <= i < |instructions| => instructions[i].tokenId)
  }

  /** `nftHolderSnapshot`. */
  method NftHolderSnapshot(soilData: SoilData, instructions: seq<Instruction>, findOriginalOwner: bool,
                           network: string, gateway: Gateway, height: Option<nat>, now: Instant)
    returns (r: Option<seq<NftOwner>>)
    ensures r == HolderSnapshotOf(soilData.addresses, instructions, findOriginalOwner, network, gateway, height, now)
  {
    var nftContract := CollectionOf(soilData.addresses);
    var tokenIds := TokenIdsOf(instructions);
    if |tokenIds| <= 0 {
      return None;
    }
    var addressMemos := MemoTable(soilData.addresses);
    var owners, count := SnapshotInBatches(network, nftContract, tokenIds, findOriginalOwner, addressMemos,
                                           gateway, height, now);
    r := Some(owners);
  }

  /** With instructions, the snapshot reports one owner for each token id
      of the batches that completed. */
  lemma HolderSnapshotMeaning(addresses: Obj<string>, instructions: seq<Instruction>, findOriginalOwner: bool,
                              network: string, gateway: Gateway, height: Option<nat>, now: Instant)
    requires instructions != []
    ensures var r := HolderSnapshotOf(addresses, instructions, findOriginalOwner, network, gateway, height, now);
      var nftContract := CollectionOf(addresses);
      var done := Chunking.Done(TokenIdsOf(instructions), SnapshotBatch,
                                Batch(network, nftContract, findOriginalOwner, Invert(addresses), gateway, height, now));
      && r.Some?
      && |r.value| == |done| && multiset(SnapshotHelpers.TokenIds(r.value)) == multiset(done)
      && |done| <= |instructions| && done == TokenIdsOf(instructions)[..|done|]
  {
    var nftContract := CollectionOf(addresses);
    var batch := Batch(network, nftContract, findOriginalOwner, Invert(addresses), gateway, height, now);
    OwnersMatchCompletedIds(network, nftContract, TokenIdsOf(instructions), findOriginalOwner, Invert(addresses),
                            gateway, height, now);
    Chunking.DonePrefix(TokenIdsOf(instructions), SnapshotBatch, batch);
  }

  /** Without a configured collection every query goes to `undefined`; a
      node that refuses them all leaves the snapshot empty, the error being
      caught. */
  lemma MissingCollectionEmpty(addresses: Obj<string>, instructions: seq<Instruction>, findOriginalOwner: bool,
                               network: string, gateway: Gateway, height: Option<nat>, now: Instant)
    requires instructions != [] && Get(addresses, "collection").None?
    requires forall id :: gateway(UndefinedAddress, OwnerOf(id), Pinned(height)).Err?
    ensures HolderSnapshotOf(addresses, instructions, findOriginalOwner, network, gateway, height, now)
         == Some(OwnersOf(network, UndefinedAddress, TokenIdsOf(instructions), findOriginalOwner, Invert(addresses),
                          gateway, height, now))
    ensures HolderSnapshotOf(addresses, instructions, findOriginalOwner, network, gateway, height, now) == Some([])
  {
    var ids := TokenIdsOf(instructions);
    var h := Chunking.Head(ids, SnapshotBatch);
    var batch := Batch(network, UndefinedAddress, findOriginalOwner, Invert(addresses), gateway, height, now);
    assert batch(h) == SnapshotHelpers.SnapshotOf(network, UndefinedAddress, h, findOriginalOwner, Invert(addresses),
                                                  gateway, height, now);
    assert gateway(UndefinedAddress, OwnerOf(h[|h| - 1]), Pinned(height)).Err?;
    assert batch(h).Err?;
  }

  /** No instructions, no snapshot and no query. */
  lemma NoInstructionsNoSnapshot(addresses: Obj<string>, findOriginalOwner: bool, network: string,
                                 g1: Gateway, g2: Gateway, height: Option<nat>, now: Instant)
    ensures HolderSnapshotOf(addresses, [], findOriginalOwner, network, g1, height, now) == None
    ensures HolderSnapshotOf(addresses, [], findOriginalOwner, network, g2, height, now) == None
  {
  }

  // =======================================================================
  // holderSnapshot

  const UndefinedTokenIds: string := "TypeError: tokenIds is not iterable"

  /** What `holderSnapshot` returns: the batch loop over every token id of
      the contract, with an empty memo table. A failed enumeration fails
      the command, and so does an empty contract (the enumeration returns
      nothing, which cannot be copied). */
  ghost function HolderSnapshotOfContract(nftAddress: string, findOriginalOwner: bool, network: string,
                                          gateway: Gateway, height: Option<nat>, now: Instant)
    : Result<seq<NftOwner>, string>
    requires NftCommand.PagingEnds(gateway, nftAddress, height)
  {
    match NftCommand.TokenIdsOf(gateway, nftAddress, height)
    case Err(e) => Err(e)
    case Ok(None) => Err(UndefinedTokenIds)
    case Ok(Some(ids)) => Ok(OwnersOf(network, nftAddress, ids, findOriginalOwner, [], gateway, height, now))
  }

  /** `holderSnapshot`. */
  method HolderSnapshot(nftAddress: string, findOriginalOwner: bool, network: string, gateway: Gateway,
                        height: Option<nat>, now: Instant) returns (r: Result<seq<NftOwner>, string>)
    requires NftCommand.PagingEnds(gateway, nftAddress, height)
    ensures r == HolderSnapshotOfContract(nftAddress, findOriginalOwner, network, gateway, height, now)
  {
    var tokenIds := NftCommand.GetNftTokenIds(gateway, nftAddress, height);
    if tokenIds.Err? {
      return Err(tokenIds.error);
    }
    if tokenIds.value.None? {
      return Err(UndefinedTokenIds);
    }
    var addressMemos: Obj<string> := [];
    var owners, count := SnapshotInBatches(network, nftAddress, tokenIds.value.value, findOriginalOwner, addressMemos,
                                           gateway, height, now);
    r := Ok(owners);
  }

  /** Off mainnet, or without tracing, every owner `holderSnapshot` reports
      carries an empty memo: its memo table is empty. */
  lemma HolderSnapshotMemosEmpty(nftAddress: string, findOriginalOwner: bool, network: string, gateway: Gateway,
                                 height: Option<nat>, now: Instant)
    requires NftCommand.PagingEnds(gateway, nftAddress, height)
    requires network != SnapshotHelpers.Mainnet || !findOriginalOwner
    ensures var r := HolderSnapshotOfContract(nftAddress, findOriginalOwner, network, gateway, height, now);
      r.Ok? ==> forall i :: 0 <= i < |r.value| ==> r.value[i].memo == Some("")
  {
    var r := HolderSnapshotOfContract(nftAddress, findOriginalOwner, network, gateway, height, now);
    if r.Ok? {
      var ids := NftCommand.TokenIdsOf(gateway, nftAddress, height).value.value;
      BatchesMemoEmpty(network, nftAddress, ids, findOriginalOwner, gateway, height, now);
    }
  }

  lemma {:induction false} BatchesMemoEmpty(network: string, nftAddress: string, ids: seq<string>,
                                            findOriginalOwner: bool, gateway: Gateway, height: Option<nat>, now: Instant)
    requires network != SnapshotHelpers.Mainnet || !findOriginalOwner
    ensures var owners := OwnersOf(network, nftAddress, ids, findOriginalOwner, [], gateway, height, now);
      forall i :: 0 <= i < |owners| ==> owners[i].memo == Some("")
    decreases |ids|
  {
    var batch := Batch(network, nftAddress, findOriginalOwner, [], gateway, height, now);
    if ids != [] {
      var h := Chunking.Head(ids, SnapshotBatch);
      if batch(h).Ok? {
        BatchesMemoEmpty(network, nftAddress, ids[|h|..], findOriginalOwner, gateway, height, now);
        SnapshotMemoEmpty(network, nftAddress, h, findOriginalOwner, gateway, height, now);
        var out := batch(h).value;
        var more := OwnersOf(network, nftAddress, ids[|h|..], findOriginalOwner, [], gateway, height, now);
        var owners := OwnersOf(network, nftAddress, ids, findOriginalOwner, [], gateway, height, now);
        assert owners == out + more;
        forall i | 0 <= i < |owners| ensures owners[i].memo == Some("") {
          if i < |out| {
            assert owners[i] == out[i];
          } else {
            assert owners[i] == more[i - |out|];
          }
        }
      }
    }
  }

  lemma {:induction false} SnapshotMemoEmpty(network: string, nftAddress: string, ids: seq<string>,
                                             findOriginalOwner: bool, gateway: Gateway, height: Option<nat>, now: Instant)
    requires network != SnapshotHelpers.Mainnet || !findOriginalOwner
    ensures var r := SnapshotHelpers.SnapshotOf(network, nftAddress, ids, findOriginalOwner, [], gateway, height, now);
      r.Ok? ==> forall i :: 0 <= i < |r.value| ==> r.value[i].memo == Some("")
  {
    var r := SnapshotHelpers.SnapshotOf(network, nftAddress, ids, findOriginalOwner, [], gateway, height, now);
    if ids != [] && r.Ok? {
      var id := ids[|ids| - 1];
      var init := ids[..|ids| - 1];
      SnapshotMemoEmpty(network, nftAddress, init, findOriginalOwner, gateway, height, now);
      var before := SnapshotHelpers.SnapshotOf(network, nftAddress, init, findOriginalOwner, [], gateway, height, now);
      assert before.Ok?;
      var prev := before.value;
      assert forall i :: 0 <= i < |prev| ==> prev[i].memo == Some("");
      var reply := gateway(nftAddress, OwnerOf(id), Pinned(height)).value;
      var o := SnapshotHelpers.FindMarketplaceSeller(network, nftAddress, id, findOriginalOwner, reply.owner, [],
                                                     gateway, height, now).value;
      assert r.value == prev + [o];
      assert o.memo == Some("");
      forall i | 0 <= i < |r.value| ensures r.value[i].memo == Some("") {
        if i < |prev| {
          assert r.value[i] == prev[i];
          assert prev[i].memo == Some("");
        } else {
          assert r.value[i] == o;
        }
      }
    }
  }
}

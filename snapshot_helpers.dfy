/** helpers/snapshot.ts: the holder of each token, looked up on the NFT
    contract and, on mainnet, traced through the marketplace contract that
    holds it for its seller; and the holder export's file name and row
    order. */
module SnapshotHelpers {
  import opened Base
  import opened Records
  import opened Interfaces
  import opened Chain
  import opened Marketplace
  import Sorting
  import Csv

  const Mainnet: string := "mainnet"

  // =======================================================================
  // findMarketplaceSeller

  /** The holder of a token as `findMarketplaceSeller` reports it. Off
      mainnet, or when tracing is switched off, the holder stays and is
      annotated from `addressMemos`; on mainnet a marketplace holder is
      handed to that marketplace's handler, any other holder stays with an
      empty memo. `network` is the name the node's chain id maps to. */
  function FindMarketplaceSeller(network: string, nftAddress: string, tokenId: string, findOriginalOwner: bool,
                                 originalOwner: string, addressMemos: Obj<string>, gateway: Gateway,
                                 height: Option<nat>, now: Instant): Result<NftOwner, string>
  {
    if network != Mainnet || !findOriginalOwner then
      Ok(NftOwner(nftAddress, tokenId, originalOwner, now, Some(OrEmpty(Get(addressMemos, originalOwner))), None))
    else if originalOwner in MarketplaceAddressMap then
      MarketplaceSeller(MarketplaceAddressMap[originalOwner], nftAddress, tokenId, originalOwner, gateway, height, now)
    else
      Ok(NftOwner(nftAddress, tokenId, originalOwner, now, Some(""), None))
  }

  /** Without tracing the holder is reported as found, with its memo or an
      empty one, no height, and no query is made. */
  lemma UntracedOwner(network: string, nftAddress: string, tokenId: string, findOriginalOwner: bool,
                      originalOwner: string, addressMemos: Obj<string>, g1: Gateway, g2: Gateway,
                      height: Option<nat>, now: Instant)
    requires network != Mainnet || !findOriginalOwner
    ensures var r := FindMarketplaceSeller(network, nftAddress, tokenId, findOriginalOwner, originalOwner,
                                           addressMemos, g1, height, now);
      && r == FindMarketplaceSeller(network, nftAddress, tokenId, findOriginalOwner, originalOwner,
                                    addressMemos, g2, height, now)
      && r.Ok? && r.value.owner == originalOwner && r.value.height.None?
      && r.value.nftContract == nftAddress && r.value.tokenId == tokenId
      && (Get(addressMemos, originalOwner).Some? ==> r.value.memo == Get(addressMemos, originalOwner))
      && (Get(addressMemos, originalOwner).None? ==> r.value.memo == Some(""))
  {
  }

  /** On mainnet a holder that is not a marketplace stays, with an empty
      memo whatever the memo table says, no height, and no query. */
  lemma PlainHolderOnMainnet(nftAddress: string, tokenId: string, originalOwner: string,
                             memos1: Obj<string>, memos2: Obj<string>, g1: Gateway, g2: Gateway,
                             height: Option<nat>, now: Instant)
    requires originalOwner != KnowhereAddress && originalOwner != TalisMarketplaceAddress
    requires originalOwner != TalisAuctionAddress
    ensures var r := FindMarketplaceSeller(Mainnet, nftAddress, tokenId, true, originalOwner, memos1, g1, height, now);
      && r == FindMarketplaceSeller(Mainnet, nftAddress, tokenId, true, originalOwner, memos2, g2, height, now)
      && r == Ok(NftOwner(nftAddress, tokenId, originalOwner, now, Some(""), None))
  {
    AddressMapEntries();
  }

  /** On mainnet a token held by a Talis contract belongs to the sell
      order's owner or the auction's creator, and one held by Knowhere to
      its auction's seller or, once settled, its bidder. */
  lemma MarketplaceHolderTraced(nftAddress: string, tokenId: string, originalOwner: string,
                                addressMemos: Obj<string>, gateway: Gateway, height: Option<nat>, now: Instant)
    requires originalOwner in MarketplaceAddressMap
    ensures var r := FindMarketplaceSeller(Mainnet, nftAddress, tokenId, true, originalOwner, addressMemos,
                                           gateway, height, now);
      && (originalOwner == KnowhereAddress ==>
            var reply := gateway(KnowhereAddress, NftAuction(nftAddress, tokenId), Pinned(height));
            && (r.Ok? <==> reply.Ok? && reply.value.AuctionReply?)
            && (r.Ok? ==> r.value.owner == (if reply.value.isSettled then reply.value.bidder else reply.value.seller)
                          && r.value.memo == Some("knowhere")))
      && (originalOwner == TalisMarketplaceAddress ==>
            var reply := gateway(TalisMarketplaceAddress, SellOrderForToken(nftAddress, tokenId), Pinned(height));
            && (r.Ok? <==> reply.Ok? && reply.value.SellOrderReply?)
            && (r.Ok? ==> r.value.owner == reply.value.orderOwner && r.value.memo == Some("talis")))
      && (originalOwner == TalisAuctionAddress ==>
            var reply := gateway(TalisAuctionAddress, AuctionByCollectionAndTokenId(nftAddress, tokenId), Pinned(height));
            && (r.Ok? <==> reply.Ok? && reply.value.TalisAuctionReply?)
            && (r.Ok? ==> r.value.owner == reply.value.creator && r.value.memo == Some("talis")))
      && (r.Ok? ==> r.value.height == height && r.value.nftContract == nftAddress && r.value.tokenId == tokenId)
  {
    AddressMapEntries();
    KnowhereResult(nftAddress, tokenId, originalOwner, gateway, height, now);
    TalisResult(nftAddress, tokenId, originalOwner, gateway, height, now);
  }

  // =======================================================================
  // The delegation as written.

  /** The handler call of `findMarketplaceSeller` as the source writes it,
      `queryMarketplaceSeller[m](nftAddress, tokenId, terra, height)`: one
      argument short, so the client lands in `originalOwner`, the height in
      `terra`, and the handler's own `height` is undefined. */
  function DelegateAsWritten(m: MarketplaceName, nftAddress: string, tokenId: string, gateway: Gateway,
                             height: Option<nat>, now: Instant): Result<JsOwner, string>
  {
    QueryMarketplaceSeller(m, nftAddress, tokenId, Client, HeightArg(height), Undefined, gateway, now)
  }

  /** `findMarketplaceSeller` exactly as written, with each record field as
      the JavaScript value it holds. */
  function FindMarketplaceSellerAsWritten(network: string, nftAddress: string, tokenId: string,
                                          findOriginalOwner: bool, originalOwner: string, addressMemos: Obj<string>,
                                          gateway: Gateway, height: Option<nat>, now: Instant)
    : Result<JsOwner, string>
  {
    if network != Mainnet || !findOriginalOwner then
      Ok(JsOwner(nftAddress, tokenId, Str(originalOwner), now, OrEmpty(Get(addressMemos, originalOwner)), Undefined))
    else if originalOwner in MarketplaceAddressMap then
      DelegateAsWritten(MarketplaceAddressMap[originalOwner], nftAddress, tokenId, gateway, height, now)
    else
      Ok(JsOwner(nftAddress, tokenId, Str(originalOwner), now, "", Undefined))
  }

  /** An `NftOwner` as the record of JavaScript values it stands for. */
  function Lift(o: NftOwner): JsOwner {
    JsOwner(o.nftContract, o.tokenId, Str(o.owner), o.createdAt, OrEmpty(o.memo), HeightArg(o.height))
  }

  /** The written and the corrected `findMarketplaceSeller` differ only
      where a mainnet holder is a marketplace: there the written one makes
      the shifted call and the corrected one the five-argument call. */
  lemma AsWrittenAgreesOffMarketplace(network: string, nftAddress: string, tokenId: string, findOriginalOwner: bool,
                                      originalOwner: string, addressMemos: Obj<string>, gateway: Gateway,
                                      height: Option<nat>, now: Instant)
    ensures var written := FindMarketplaceSellerAsWritten(network, nftAddress, tokenId, findOriginalOwner,
                                                          originalOwner, addressMemos, gateway, height, now);
      var fixed := FindMarketplaceSeller(network, nftAddress, tokenId, findOriginalOwner, originalOwner,
                                         addressMemos, gateway, height, now);
      && (!(network == Mainnet && findOriginalOwner && originalOwner in MarketplaceAddressMap) ==>
            fixed.Ok? && written == Ok(Lift(fixed.value)))
      && (network == Mainnet && findOriginalOwner && originalOwner in MarketplaceAddressMap ==>
            var m := MarketplaceAddressMap[originalOwner];
            && written == DelegateAsWritten(m, nftAddress, tokenId, gateway, height, now)
            && fixed == MarketplaceSeller(m, nftAddress, tokenId, originalOwner, gateway, height, now))
  {
  }

  /** As written, no marketplace holder is ever traced and nothing is asked
      of the node: Knowhere holders make the call throw, and Talis holders
      come back with the client object as owner and an undefined height. */
  lemma DelegationAsWrittenNeverTraces(m: MarketplaceName, nftAddress: string, tokenId: string, gateway: Gateway,
                                       height: Option<nat>, now: Instant)
    ensures var r := DelegateAsWritten(m, nftAddress, tokenId, gateway, height, now);
      && (m == Knowhere ==> r == Err(NotAClient(HeightArg(height))))
      && (m == Talis ==> r == Ok(JsOwner(nftAddress, tokenId, Client, now, "talis", Undefined)))
  {
  }

  /** A token listed on the Talis marketplace whose sell order belongs to
      `seller`: the corrected call reports `seller` at the requested height,
      the call as written reports the client object. */
  lemma ShiftedArgumentsLoseSeller(nftAddress: string, tokenId: string, seller: string, addressMemos: Obj<string>,
                                   gateway: Gateway, height: Option<nat>, now: Instant)
    requires gateway(TalisMarketplaceAddress, SellOrderForToken(nftAddress, tokenId), Pinned(height))
          == Ok(SellOrderReply(seller))
    ensures var fixed := FindMarketplaceSeller(Mainnet, nftAddress, tokenId, true, TalisMarketplaceAddress,
                                               addressMemos, gateway, height, now);
      var written := FindMarketplaceSellerAsWritten(Mainnet, nftAddress, tokenId, true, TalisMarketplaceAddress,
                                                    addressMemos, gateway, height, now);
      && fixed == Ok(NftOwner(nftAddress, tokenId, seller, now, Some("talis"), height))
      && written == Ok(JsOwner(nftAddress, tokenId, Client, now, "talis", Undefined))
  {
    AddressMapEntries();
    TalisResult(nftAddress, tokenId, TalisMarketplaceAddress, gateway, height, now);
    DelegationAsWrittenNeverTraces(Talis, nftAddress, tokenId, gateway, height, now);
  }

  /** A token in a Knowhere auction the node answers for: the corrected
      call reports the auction's party, the call as written throws. */
  lemma ShiftedArgumentsFailKnowhere(nftAddress: string, tokenId: string, addressMemos: Obj<string>,
                                     gateway: Gateway, height: Option<nat>, now: Instant)
    requires gateway(KnowhereAddress, NftAuction(nftAddress, tokenId), Pinned(height)).Ok?
    requires gateway(KnowhereAddress, NftAuction(nftAddress, tokenId), Pinned(height)).value.AuctionReply?
    ensures var reply := gateway(KnowhereAddress, NftAuction(nftAddress, tokenId), Pinned(height)).value;
      var fixed := FindMarketplaceSeller(Mainnet, nftAddress, tokenId, true, KnowhereAddress,
                                         addressMemos, gateway, height, now);
      var written := FindMarketplaceSellerAsWritten(Mainnet, nftAddress, tokenId, true, KnowhereAddress,
                                                    addressMemos, gateway, height, now);
      && fixed == Ok(NftOwner(nftAddress, tokenId, if reply.isSettled then reply.bidder else reply.seller,
                              now, Some("knowhere"), height))
      && written == Err(NotAClient(HeightArg(height)))
  {
    AddressMapEntries();
    KnowhereResult(nftAddress, tokenId, KnowhereAddress, gateway, height, now);
    DelegationAsWrittenNeverTraces(Knowhere, nftAddress, tokenId, gateway, height, now);
  }

  // =======================================================================
  // snapshot

  /** The holders of the first |ids| tokens, asked one after another; the
      first failure fails the whole snapshot. */
  function SnapshotOf(network: string, nftAddress: string, ids: seq<string>, findOriginalOwner: bool,
                      addressMemos: Obj<string>, gateway: Gateway, height: Option<nat>, now: Instant)
    : Result<seq<NftOwner>, string>
  {
    if ids == [] then Ok([])
    else
      match SnapshotOf(network, nftAddress, ids[..|ids| - 1], findOriginalOwner, addressMemos, gateway, height, now)
      case Err(e) => Err(e)
      case Ok(owners) =>
        var id := ids[|ids| - 1];
        match gateway(nftAddress, OwnerOf(id), Pinned(height))
        case Err(e) => Err(e)
        case Ok(reply) =>
          if !reply.OwnerReply? then Err("unexpected reply to owner_of")
          else
            match FindMarketplaceSeller(network, nftAddress, id, findOriginalOwner, reply.owner, addressMemos,
                                        gateway, height, now)
            case Err(e) => Err(e)
            case Ok(o) => Ok(owners + [o])
  }

  /** `snapshot`, with the parallel queries taken one at a time. */
  method Snapshot(network: string, nftAddress: string, tokenIds: seq<string>, findOriginalOwner: bool,
                  addressMemos: Obj<string>, gateway: Gateway, height: Option<nat>, now: Instant)
    returns (r: Result<seq<NftOwner>, string>)
    ensures r == SnapshotOf(network, nftAddress, tokenIds, findOriginalOwner, addressMemos, gateway, height, now)
  {
    var owners: seq<NftOwner> := [];
    for i := 0 to |tokenIds|
      invariant SnapshotOf(network, nftAddress, tokenIds[..i], findOriginalOwner, addressMemos, gateway, height, now)
             == Ok(owners)
    {
      assert tokenIds[..i + 1][..i] == tokenIds[..i];
      var id := tokenIds[i];
      var response := gateway(nftAddress, OwnerOf(id), Pinned(height));
      if response.Err? {
        SnapshotErrorStays(network, nftAddress, tokenIds, findOriginalOwner, addressMemos, gateway, height, now, i + 1);
        return Err(response.error);
      }
      if !response.value.OwnerReply? {
        SnapshotErrorStays(network, nftAddress, tokenIds, findOriginalOwner, addressMemos, gateway, height, now, i + 1);
        return Err("unexpected reply to owner_of");
      }
      var owner := FindMarketplaceSeller(network, nftAddress, id, findOriginalOwner, response.value.owner,
                                         addressMemos, gateway, height, now);
      if owner.Err? {
        SnapshotErrorStays(network, nftAddress, tokenIds, findOriginalOwner, addressMemos, gateway, height, now, i + 1);
        return Err(owner.error);
      }
      owners := owners + [owner.value];
    }
    assert tokenIds[..|tokenIds|] == tokenIds;
    r := Ok(owners);
  }

  /** A failure within the first `k` tokens is the snapshot's failure. */
  lemma {:induction false} SnapshotErrorStays(network: string, nftAddress: string, ids: seq<string>,
                                              findOriginalOwner: bool, addressMemos: Obj<string>, gateway: Gateway,
                                              height: Option<nat>, now: Instant, k: nat)
    requires k <= |ids|
    requires SnapshotOf(network, nftAddress, ids[..k], findOriginalOwner, addressMemos, gateway, height, now).Err?
    ensures SnapshotOf(network, nftAddress, ids, findOriginalOwner, addressMemos, gateway, height, now)
         == SnapshotOf(network, nftAddress, ids[..k], findOriginalOwner, addressMemos, gateway, height, now)
    decreases |ids| - k
  {
    if k < |ids| {
      assert ids[..k + 1][..k] == ids[..k];
      SnapshotErrorStays(network, nftAddress, ids, findOriginalOwner, addressMemos, gateway, height, now, k + 1);
    } else {
      assert ids[..k] == ids;
    }
  }

  /** A snapshot that succeeds extends the snapshot of all but the last
      token id by one report, about that last token. */
  lemma SnapshotLast(network: string, nftAddress: string, ids: seq<string>, findOriginalOwner: bool,
                     addressMemos: Obj<string>, gateway: Gateway, height: Option<nat>, now: Instant)
    requires ids != []
    requires SnapshotOf(network, nftAddress, ids, findOriginalOwner, addressMemos, gateway, height, now).Ok?
    ensures var owners := SnapshotOf(network, nftAddress, ids, findOriginalOwner, addressMemos, gateway, height, now).value;
      var prev := SnapshotOf(network, nftAddress, ids[..|ids| - 1], findOriginalOwner, addressMemos, gateway, height, now);
      && prev.Ok? && |owners| == |prev.value| + 1 && owners[..|prev.value|] == prev.value
      && owners[|prev.value|].tokenId == ids[|ids| - 1] && owners[|prev.value|].nftContract == nftAddress
  {
    var id := ids[|ids| - 1];
    var reply := gateway(nftAddress, OwnerOf(id), Pinned(height));
    HolderKeepsToken(network, nftAddress, id, findOriginalOwner, reply.value.owner, addressMemos, gateway, height, now);
  }

  /** A snapshot that succeeds has exactly one holder per token id asked:
      as multisets the reported token ids are the ids given. */
  lemma {:induction false} OneHolderPerToken(network: string, nftAddress: string, ids: seq<string>,
                                             findOriginalOwner: bool, addressMemos: Obj<string>, gateway: Gateway,
                                             height: Option<nat>, now: Instant)
    requires SnapshotOf(network, nftAddress, ids, findOriginalOwner, addressMemos, gateway, height, now).Ok?
    ensures var owners := SnapshotOf(network, nftAddress, ids, findOriginalOwner, addressMemos, gateway, height, now).value;
      && |owners| == |ids|
      && multiset(TokenIds(owners)) == multiset(ids)
      && forall i :: 0 <= i < |owners| ==> owners[i].nftContract == nftAddress
  {
    if ids != [] {
      var init := ids[..|ids| - 1];
      SnapshotLast(network, nftAddress, ids, findOriginalOwner, addressMemos, gateway, height, now);
      OneHolderPerToken(network, nftAddress, init, findOriginalOwner, addressMemos, gateway, height, now);
      var owners := SnapshotOf(network, nftAddress, ids, findOriginalOwner, addressMemos, gateway, height, now).value;
      var prev := SnapshotOf(network, nftAddress, init, findOriginalOwner, addressMemos, gateway, height, now).value;
      assert owners == prev + [owners[|prev|]];
      assert TokenIds(owners) == TokenIds(prev) + [ids[|ids| - 1]];
      assert ids == init + [ids[|ids| - 1]];
      forall i | 0 <= i < |owners| ensures owners[i].nftContract == nftAddress {
        if i < |prev| {
          assert owners[i] == prev[i];
        }
      }
    }
  }

  function TokenIds(owners: seq<NftOwner>): (ids: seq<string>)
    ensures |ids| == |owners| && forall i :: 0 <= i < |owners| ==> ids[i] == owners[i].tokenId
  {
    seq(|owners|, i requires 0 <= i < |owners| => owners[i].tokenId)
  }

  /** Every report names the contract and token it was asked about. */
  lemma HolderKeepsToken(network: string, nftAddress: string, tokenId: string, findOriginalOwner: bool,
                         originalOwner: string, addressMemos: Obj<string>, gateway: Gateway,
                         height: Option<nat>, now: Instant)
    ensures var r := FindMarketplaceSeller(network, nftAddress, tokenId, findOriginalOwner, originalOwner,
                                           addressMemos, gateway, height, now);
      r.Ok? ==> r.value.tokenId == tokenId && r.value.nftContract == nftAddress
  {
    KnowhereResult(nftAddress, tokenId, originalOwner, gateway, height, now);
    TalisResult(nftAddress, tokenId, originalOwner, gateway, height, now);
  }

  // =======================================================================
  // exportCsv / exportJson: row order and file name.

  function OwnerTokenId(o: NftOwner): string { o.tokenId }

  /** `holder_<address>_<stamp>.<extension>`, the stamp being the height
      when one is given (and not 0), the current time otherwise. */
  function HolderFileName(nftAddress: string, height: Option<nat>, isoNow: string, extension: string): string {
    var stamp := if height.Some? && height.value != 0 then DecimalString(height.value) else isoNow;
    "holder_" + nftAddress + "_" + stamp + "." + extension
  }

  /** Two exports of the same contract at different heights get different
      names. */
  lemma HolderFileNamesDiffer(nftAddress: string, h1: nat, h2: nat, iso1: string, iso2: string, extension: string)
    requires 0 < h1 && 0 < h2 && h1 != h2
    ensures HolderFileName(nftAddress, Some(h1), iso1, extension) != HolderFileName(nftAddress, Some(h2), iso2, extension)
  {
    var p := "holder_" + nftAddress + "_";
    var s1, s2 := DecimalString(h1), DecimalString(h2);
    var suffix := "." + extension;
    var f1, f2 := p + s1 + suffix, p + s2 + suffix;
    assert HolderFileName(nftAddress, Some(h1), iso1, extension) == f1;
    assert HolderFileName(nftAddress, Some(h2), iso2, extension) == f2;
    DecimalRoundTrip(h1);
    DecimalRoundTrip(h2);
    InfixDiffers(p, s1, s2, suffix);
  }

  /** Texts that differ only in a middle part differ. */
  lemma InfixDiffers(p: string, s1: string, s2: string, x: string)
    requires s1 != s2
    ensures p + s1 + x != p + s2 + x
  {
    if |s1| != |s2| {
      assert |p + s1 + x| != |p + s2 + x|;
    } else {
      var k :| 0 <= k < |s1| && s1[k] != s2[k];
      assert (p + s1 + x)[|p| + k] == s1[k];
      assert (p + s2 + x)[|p| + k] == s2[k];
    }
  }

  // The holder table: a header line and one line per holder, unquoted.

  const HolderHeader: seq<string> := ["nft address", "token id", "owner", "height", "memo"]

  /** A holder's fields; an absent height or memo is an empty field. */
  function HolderFields(o: NftOwner): seq<string> {
    [o.nftContract, o.tokenId, o.owner, if o.height.Some? then DecimalString(o.height.value) else "", OrEmpty(o.memo)]
  }

  function HolderTable(owners: seq<NftOwner>): (records: seq<seq<string>>)
    ensures Csv.Records(records)
  {
    [HolderHeader] + seq(|owners|, i requires 0 <= i < |owners| => HolderFields(owners[i]))
  }

  /** Holders whose text fields the unquoted format can carry. */
  predicate PlainHolders(owners: seq<NftOwner>) {
    forall i :: 0 <= i < |owners| ==>
      && Csv.Plain(owners[i].nftContract) && Csv.Plain(owners[i].tokenId)
      && Csv.Plain(owners[i].owner) && Csv.Plain(OrEmpty(owners[i].memo))
  }

  /** Reading the holder export back gives the header and then each
      holder's fields, and the height reads back as the number written. */
  lemma HolderExportReadsBack(owners: seq<NftOwner>)
    requires PlainHolders(owners)
    ensures Csv.Parse(Csv.Text(HolderTable(owners))) == HolderTable(owners)
    ensures |HolderTable(owners)| == |owners| + 1 && HolderTable(owners)[0] == HolderHeader
    ensures forall i :: 0 <= i < |owners| ==> HolderTable(owners)[i + 1] == HolderFields(owners[i])
    ensures forall i :: 0 <= i < |owners| && owners[i].height.Some? ==>
      ParseDecimal(HolderFields(owners[i])[3]) == owners[i].height.value
  {
    HolderTablePlain(owners);
    Csv.ParseText(HolderTable(owners));
    forall i | 0 <= i < |owners| && owners[i].height.Some?
      ensures ParseDecimal(HolderFields(owners[i])[3]) == owners[i].height.value
    {
      DecimalRoundTrip(owners[i].height.value);
    }
  }

  lemma HolderTablePlain(owners: seq<NftOwner>)
    requires PlainHolders(owners)
    ensures forall i, j :: 0 <= i < |HolderTable(owners)| && 0 <= j < |HolderTable(owners)[i]| ==>
      Csv.Plain(HolderTable(owners)[i][j])
  {
    var table := HolderTable(owners);
    assert Csv.Plain("nft address") && Csv.Plain("token id") && Csv.Plain("owner");
    assert Csv.Plain("height") && Csv.Plain("memo");
    forall i, j | 0 <= i < |table| && 0 <= j < |table[i]| ensures Csv.Plain(table[i][j]) {
      if i > 0 {
        var o := owners[i - 1];
        assert table[i] == HolderFields(o);
        if o.height.Some? {
          var d := DecimalString(o.height.value);
          assert forall k :: 0 <= k < |d| ==> IsDigit(d[k]);
        }
      } else {
        assert table[i] == HolderHeader;
      }
    }
  }

  /** `exportCsv`: sorts the caller's holders in place by token id and
      returns the file name and the text written to it. */
  method ExportHolderCsv(owners: array<NftOwner>, nftAddress: string, height: Option<nat>, isoNow: string)
    returns (outputFilename: string, text: string)
    modifies owners
    ensures Sorting.Sorted(owners[..], OwnerTokenId) && multiset(owners[..]) == multiset(old(owners[..]))
    ensures text == Csv.Text(HolderTable(owners[..]))
    ensures outputFilename == HolderFileName(nftAddress, height, isoNow, "csv")
  {
    Sorting.SortByKey(owners, OwnerTokenId);
    text := Csv.Text(HolderTable(owners[..]));
    outputFilename := HolderFileName(nftAddress, height, isoNow, "csv");
  }

  /** `exportJson`: the same order and naming; the JSON text itself is left
      out. */
  method ExportHolderJson(owners: array<NftOwner>, nftAddress: string, height: Option<nat>, isoNow: string)
    returns (outputFilename: string)
    modifies owners
    ensures Sorting.Sorted(owners[..], OwnerTokenId) && multiset(owners[..]) == multiset(old(owners[..]))
    ensures outputFilename == HolderFileName(nftAddress, height, isoNow, "json")
  {
    outputFilename := HolderFileName(nftAddress, height, isoNow, "json");
    Sorting.SortByKey(owners, OwnerTokenId);
  }
}

/** helpers/marketplace.ts: who really owns a token that sits in a
    marketplace contract (Knowhere auctions, Talis sell orders and
    auctions), and the two mappers from a contract's metadata to an `Nft`. */
module Marketplace {
  import opened Base
  import opened Records
  import opened Interfaces
  import opened Chain

  datatype MarketplaceName = Knowhere | Talis

  /** The enum value, used as the memo of a resolved owner. */
  function Memo(m: MarketplaceName): string {
    match m
    case Knowhere => "knowhere"
    case Talis => "talis"
  }

  // Each address is written in two halves so its characters can be read.
  const KnowhereAddress: string :=
    "terra16t9fg9x7pssm39fc90yx508cpw" + "4tv33wfr7sprf6mn3qk84wrk2s2v3qy3"
  const TalisMarketplaceAddress: string :=
    "terra1cr6apzg5f3jlqntvykrhehg066" + "68cx7jjy2sh7u7u50f79z48nrshpkxuv"
  const TalisAuctionAddress: string :=
    "terra1ek8ms3uew0rku4wcrqwvgl3hmg" + "rw6jpn2phxv39y66jthjn4vraqww5gpk"

  /** `MarketplaceAddressMap`: the contracts that hold tokens on behalf of
      their sellers. */
  const MarketplaceAddressMap: map<string, MarketplaceName> :=
    map[KnowhereAddress := Knowhere, TalisMarketplaceAddress := Talis, TalisAuctionAddress := Talis]

  /** One address belongs to Knowhere, two to Talis, and no other address
      is a marketplace. */
  lemma AddressMapEntries()
    ensures KnowhereAddress != TalisMarketplaceAddress && KnowhereAddress != TalisAuctionAddress
    ensures TalisMarketplaceAddress != TalisAuctionAddress
    ensures MarketplaceAddressMap.Keys == {KnowhereAddress, TalisMarketplaceAddress, TalisAuctionAddress}
    ensures forall a :: a in MarketplaceAddressMap ==> (MarketplaceAddressMap[a] == Knowhere <==> a == KnowhereAddress)
    ensures forall a :: a in MarketplaceAddressMap ==>
      (MarketplaceAddressMap[a] == Talis <==> a == TalisMarketplaceAddress || a == TalisAuctionAddress)
  {
    assert KnowhereAddress[6] == '6' && TalisMarketplaceAddress[6] == 'c' && TalisAuctionAddress[6] == 'e';
  }

  // =======================================================================
  // The seller handlers. The node is the `gateway` parameter; `now` stands
  // for `new Date()`. The handlers' parameters are untyped at run time, so
  // they are modelled over the JavaScript values a caller can pass.

  /** A value that can reach a handler's parameter: a string, a block
      height, `undefined`, or the node client object. */
  datatype JsArg = Str(text: string) | Num(n: nat) | Undefined | Client

  /** The argument a caller passes for an optional height. */
  function HeightArg(height: Option<nat>): (a: JsArg)
    ensures a.Num? <==> height.Some?
    ensures a.Num? ==> a.n == height.value
  {
    if height.Some? then Num(height.value) else Undefined
  }

  /** The optional height a height argument stands for. */
  function HeightOf(a: JsArg): (height: Option<nat>)
    ensures height.Some? <==> a.Num?
  {
    if a.Num? then Some(a.n) else None
  }

  /** `String(value)`, as the owner field is later read. */
  function JsString(a: JsArg): string {
    match a
    case Str(s) => s
    case Num(n) => DecimalString(n)
    case Undefined => "undefined"
    case Client => "[object Object]"
  }

  /** The record a handler returns, each field as the value it holds. */
  datatype JsOwner = JsOwner(nftContract: string, tokenId: string, owner: JsArg, createdAt: Instant,
                             memo: string, height: JsArg)

  /** What `terra.wasm.contractQuery` throws when `terra` is not the client:
      `undefined` has no `wasm` to read, and a number or a string has no
      `wasm` property, so `contractQuery` is read from undefined. */
  function NotAClient(terra: JsArg): string {
    if terra.Undefined? then "TypeError: Cannot read properties of undefined (reading 'wasm')"
    else "TypeError: Cannot read properties of undefined (reading 'contractQuery')"
  }

  /** `if (height) queryAtHeight(terra, contract, msg, height) else
      query(terra, contract, msg)`: both call `terra.wasm.contractQuery`,
      which throws unless `terra` is the client. Every caller passes a
      number or `undefined` as the height. */
  function QueryThrough(gateway: Gateway, terra: JsArg, height: JsArg, contract: string, msg: QueryMsg)
    : Result<Reply, string>
  {
    if terra != Client then Err(NotAClient(terra)) else gateway(contract, msg, Pinned(HeightOf(height)))
  }

  /** `queryKnowhereSeller(nftAddress, tokenId, originalOwner, terra,
      height)`: asks the Knowhere contract for the token's auction; the
      owner is the bidder once the auction is settled and the seller
      before. The original owner plays no part in the answer. */
  function QueryKnowhereSeller(nftAddress: string, tokenId: string, originalOwner: JsArg, terra: JsArg,
                               height: JsArg, gateway: Gateway, now: Instant): Result<JsOwner, string>
  {
    match QueryThrough(gateway, terra, height, KnowhereAddress, NftAuction(nftAddress, tokenId))
    case Err(e) => Err(e)
    case Ok(reply) =>
      if reply.AuctionReply? then
        Ok(JsOwner(nftAddress, tokenId, Str(if reply.isSettled then reply.bidder else reply.seller),
                   now, Memo(Knowhere), height))
      else Err("unexpected reply to nft_auction")
  }

  /** `queryTalisSeller(nftAddress, tokenId, originalOwner, terra, height)`:
      a token held by the Talis marketplace belongs to the owner of its
      sell order, one held by the Talis auction contract to the auction's
      creator; for any other holder nothing is asked. The loose `==` of the
      source equals a string only to that string here: neither address is
      numeric, and an object compares as "[object Object]". */
  function QueryTalisSeller(nftAddress: string, tokenId: string, originalOwner: JsArg, terra: JsArg,
                            height: JsArg, gateway: Gateway, now: Instant): Result<JsOwner, string>
  {
    var owner :=
      if originalOwner == Str(TalisMarketplaceAddress) then
        match QueryThrough(gateway, terra, height, TalisMarketplaceAddress, SellOrderForToken(nftAddress, tokenId))
        case Err(e) => Err(e)
        case Ok(reply) =>
          if reply.SellOrderReply? then Ok(Str(reply.orderOwner)) else Err("unexpected reply to sell_order_for_token")
      else if originalOwner == Str(TalisAuctionAddress) then
        match QueryThrough(gateway, terra, height, TalisAuctionAddress,
                           AuctionByCollectionAndTokenId(nftAddress, tokenId))
        case Err(e) => Err(e)
        case Ok(reply) =>
          if reply.TalisAuctionReply? then Ok(Str(reply.creator))
          else Err("unexpected reply to auction_by_collection_and_token_id")
      else Ok(originalOwner);
    match owner
    case Err(e) => Err(e)
    case Ok(o) => Ok(JsOwner(nftAddress, tokenId, o, now, Memo(Talis), height))
  }

  /** `queryMarketplaceSeller[m](...)`. */
  function QueryMarketplaceSeller(m: MarketplaceName, nftAddress: string, tokenId: string, originalOwner: JsArg,
                                  terra: JsArg, height: JsArg, gateway: Gateway, now: Instant)
    : Result<JsOwner, string>
  {
    match m
    case Knowhere => QueryKnowhereSeller(nftAddress, tokenId, originalOwner, terra, height, gateway, now)
    case Talis => QueryTalisSeller(nftAddress, tokenId, originalOwner, terra, height, gateway, now)
  }

  /** A handler's record read back as an `NftOwner`. */
  function Lower(r: Result<JsOwner, string>): Result<NftOwner, string> {
    match r
    case Err(e) => Err(e)
    case Ok(o) => Ok(NftOwner(o.nftContract, o.tokenId, JsString(o.owner), o.createdAt, Some(o.memo), HeightOf(o.height)))
  }

  /** The Knowhere handler called as its signature asks: a string owner,
      the client, and the optional height. */
  function KnowhereSeller(nftAddress: string, tokenId: string, originalOwner: string, gateway: Gateway,
                          height: Option<nat>, now: Instant): Result<NftOwner, string>
  {
    Lower(QueryKnowhereSeller(nftAddress, tokenId, Str(originalOwner), Client, HeightArg(height), gateway, now))
  }

  /** The Knowhere handler: what it returns, as a function of the one reply it
      reads. */
  lemma KnowhereResult(nftAddress: string, tokenId: string, originalOwner: string, gateway: Gateway,
                       height: Option<nat>, now: Instant)
    ensures var reply := gateway(KnowhereAddress, NftAuction(nftAddress, tokenId), Pinned(height));
      var r := KnowhereSeller(nftAddress, tokenId, originalOwner, gateway, height, now);
      && (r.Ok? <==> reply.Ok? && reply.value.AuctionReply?)
      && (reply.Err? ==> r == Err(reply.error))
      && (r.Ok? ==>
            && r.value.owner == (if reply.value.isSettled then reply.value.bidder else reply.value.seller)
            && r.value.memo == Some("knowhere")
            && r.value.nftContract == nftAddress && r.value.tokenId == tokenId && r.value.height == height)
  {
  }

  /** The original owner is overwritten by the auction's parties, and only
      the auction query, pinned as the caller asked, is read. */
  lemma KnowhereDependsOnAuctionOnly(nftAddress: string, tokenId: string, owner1: string, owner2: string,
                                     g1: Gateway, g2: Gateway, height: Option<nat>, now: Instant)
    requires g1(KnowhereAddress, NftAuction(nftAddress, tokenId), Pinned(height))
          == g2(KnowhereAddress, NftAuction(nftAddress, tokenId), Pinned(height))
    ensures KnowhereSeller(nftAddress, tokenId, owner1, g1, height, now)
         == KnowhereSeller(nftAddress, tokenId, owner2, g2, height, now)
  {
  }

  /** The Talis handler called as its signature asks. */
  function TalisSeller(nftAddress: string, tokenId: string, originalOwner: string, gateway: Gateway,
                       height: Option<nat>, now: Instant): Result<NftOwner, string>
  {
    Lower(QueryTalisSeller(nftAddress, tokenId, Str(originalOwner), Client, HeightArg(height), gateway, now))
  }

  /** The Talis handler's three cases. */
  lemma TalisResult(nftAddress: string, tokenId: string, originalOwner: string, gateway: Gateway,
                    height: Option<nat>, now: Instant)
    ensures var r := TalisSeller(nftAddress, tokenId, originalOwner, gateway, height, now);
      && (r.Ok? ==> r.value.memo == Some("talis") && r.value.nftContract == nftAddress
                    && r.value.tokenId == tokenId && r.value.height == height)
      && (originalOwner == TalisMarketplaceAddress ==>
            var reply := gateway(TalisMarketplaceAddress, SellOrderForToken(nftAddress, tokenId), Pinned(height));
            && (r.Ok? <==> reply.Ok? && reply.value.SellOrderReply?)
            && (r.Ok? ==> r.value.owner == reply.value.orderOwner))
      && (originalOwner == TalisAuctionAddress ==>
            var reply := gateway(TalisAuctionAddress, AuctionByCollectionAndTokenId(nftAddress, tokenId), Pinned(height));
            && (r.Ok? <==> reply.Ok? && reply.value.TalisAuctionReply?)
            && (r.Ok? ==> r.value.owner == reply.value.creator))
  {
    AddressMapEntries();
  }

  /** A holder that is neither Talis contract keeps the token, whatever the
      node would answer. */
  lemma TalisKeepsOtherOwners(nftAddress: string, tokenId: string, originalOwner: string, gateway: Gateway,
                              height: Option<nat>, now: Instant)
    requires originalOwner != TalisMarketplaceAddress && originalOwner != TalisAuctionAddress
    ensures TalisSeller(nftAddress, tokenId, originalOwner, gateway, height, now)
         == Ok(NftOwner(nftAddress, tokenId, originalOwner, now, Some("talis"), height))
  {
  }

  /** `queryMarketplaceSeller[m](nftAddress, tokenId, originalOwner, terra,
      height)`: the handler called with all five arguments. */
  function MarketplaceSeller(m: MarketplaceName, nftAddress: string, tokenId: string, originalOwner: string,
                             gateway: Gateway, height: Option<nat>, now: Instant): Result<NftOwner, string> {
    Lower(QueryMarketplaceSeller(m, nftAddress, tokenId, Str(originalOwner), Client, HeightArg(height), gateway, now))
  }

  // =======================================================================
  // mapCw721Standard

  /** The `extension` of a CW721 `nft_info` reply, each field possibly
      absent. */
  datatype Cw721Extension = Cw721Extension(
    name: Option<string>,
    description: Option<string>,
    image: Option<string>,
    imageData: Option<string>,
    animationUrl: Option<string>,
    attributes: Option<seq<Trait>>)

  /** A CW721 `nft_info` reply: top-level `name` and `image` and an optional
      `extension`. */
  datatype Cw721Info = Cw721Info(name: Option<string>, image: Option<string>, extension: Option<Cw721Extension>)

  /** `rawData.extension?.<field>` reads every field of a missing
      extension as undefined. */
  const NoExtension := Cw721Extension(None, None, None, None, None, None)

  function MapCw721Standard(nftContract: string, tokenId: string, raw: Cw721Info): (nft: Nft) {
    var e := if raw.extension.Some? then raw.extension.value else NoExtension;
    Nft(
      nftContract,
      tokenId,
      OrElse(e.name, raw.name),
      e.description,
      Some(OrEmpty(OrElse(e.image, None))),
      OrElse(e.imageData, raw.image),
      e.animationUrl,
      e.animationUrl,
      Some(if e.attributes.Some? then e.attributes.value else []),
      None,
      None)
  }

  /** The CW721 mapper prefers the extension's fields, falls back to the
      top-level ones, always yields an image string and a trait list, and
      gives the animation as the video too. */
  lemma Cw721Mapping(nftContract: string, tokenId: string, raw: Cw721Info)
    ensures var nft := MapCw721Standard(nftContract, tokenId, raw);
      && nft.nftContract == nftContract && nft.tokenId == tokenId
      && nft.image.Some? && nft.attributes.Some?
      && nft.videoUrl == nft.animationUrl
      && nft.height.None? && nft.rarities.None?
      && (raw.extension.None? ==>
            nft.name == raw.name && nft.image == Some("") && nft.imageData == raw.image
            && nft.attributes == Some([]) && nft.description.None? && nft.animationUrl.None?)
      && (raw.extension.Some? ==>
            var e := raw.extension.value;
            && (e.name.Some? && e.name.value != "" ==> nft.name == e.name)
            && (e.name.None? || e.name.value == "" ==> nft.name == raw.name)
            && nft.image == Some(if e.image.Some? then e.image.value else "")
            && (e.imageData.Some? && e.imageData.value != "" ==> nft.imageData == e.imageData)
            && (e.imageData.None? || e.imageData.value == "" ==> nft.imageData == raw.image)
            && nft.description == e.description && nft.animationUrl == e.animationUrl
            && (e.attributes.Some? ==> nft.attributes == e.attributes)
            && (e.attributes.None? ==> nft.attributes == Some([])))
  {
  }

  // =======================================================================
  // mapTalisStandard

  /** The keys the Talis mapper treats specially. */
  predicate Reserved(key: string) {
    key == "title" || key == "description" || key == "media"
  }

  /** The text after the last '/', or all of it when there is none
      (`value.substring(value.lastIndexOf('/') + 1)`). */
  function AfterLastSlash(s: string): (r: string)
    ensures '/' !in r
    ensures |r| <= |s| && s[|s| - |r|..] == r
    ensures |r| < |s| ==> s[|s| - |r| - 1] == '/'
  {
    if s == [] then []
    else if s[|s| - 1] == '/' then []
    else
      var r := AfterLastSlash(s[..|s| - 1]);
      assert s[..|s| - 1][|s| - 1 - |r|..] + [s[|s| - 1]] == s[|s| - |r| - 1..];
      r + [s[|s| - 1]]
  }

  /** The image a `media` value gives: `ipfs://<hash>/<file name>` when a
      hash is found in it. */
  function MediaImage(value: string, extractHash: string -> Option<string>): Option<string> {
    var hash := extractHash(value);
    if hash.Some? && Truthy(hash.value) then Some("ipfs://" + hash.value + "/" + AfterLastSlash(value)) else None
  }

  datatype TalisFields = TalisFields(name: string, description: string, image: string, attributes: seq<Trait>)

  /** The mapper's variables after the first |entries| keys. */
  function TalisFieldsOf(entries: Obj<string>, extractHash: string -> Option<string>): TalisFields {
    if entries == [] then TalisFields("", "", "", [])
    else
      var f := TalisFieldsOf(entries[..|entries| - 1], extractHash);
      var e := entries[|entries| - 1];
      if e.key == "title" then f.(name := e.val)
      else if e.key == "description" then f.(description := e.val)
      else if e.key == "media" then
        (var img := MediaImage(e.val, extractHash); if img.Some? then f.(image := img.value) else f)
      else f.(attributes := f.attributes + [Trait(e.key, e.val)])
  }

  function TalisNft(nftContract: string, tokenId: string, f: TalisFields): Nft {
    Nft(nftContract, tokenId, Some(f.name), Some(f.description), Some(f.image), None, None, None,
        Some(f.attributes), None, None)
  }

  /** `mapTalisStandard`: one pass over the metadata's keys in order. */
  method MapTalisStandard(nftContract: string, tokenId: string, raw: Obj<string>,
                          extractHash: string -> Option<string>) returns (nft: Nft)
    ensures nft == TalisNft(nftContract, tokenId, TalisFieldsOf(raw, extractHash))
  {
    var attributes: seq<Trait> := [];
    var name, description, image := "", "", "";
    for i := 0 to |raw|
      invariant TalisFieldsOf(raw[..i], extractHash) == TalisFields(name, description, image, attributes)
    {
      assert raw[..i + 1][..i] == raw[..i];
      var key, value := raw[i].key, raw[i].val;
      if key == "title" {
        name := value;
      } else if key == "description" {
        description := value;
      } else if key == "media" {
        var hash := extractHash(value);
        var fileName := AfterLastSlash(value);
        if hash.Some? && Truthy(hash.value) {
          image := "ipfs://" + hash.value + "/" + fileName;
        }
      } else {
        attributes := attributes + [Trait(key, value)];
      }
    }
    assert raw[..|raw|] == raw;
    nft := TalisNft(nftContract, tokenId, TalisFields(name, description, image, attributes));
  }

  /** The trait list of a Talis record: every key but the reserved ones, in
      key order, each with its value. */
  function AttributeEntries(entries: Obj<string>): seq<Trait> {
    if entries == [] then []
    else (if Reserved(entries[0].key) then [] else [Trait(entries[0].key, entries[0].val)]) + AttributeEntries(entries[1..])
  }

  lemma {:induction false} AttributeEntriesAppend(a: Obj<string>, b: Obj<string>)
    ensures AttributeEntries(a + b) == AttributeEntries(a) + AttributeEntries(b)
  {
    if a == [] {
      assert a + b == b;
    } else {
      AttributeEntriesAppend(a[1..], b);
      assert (a + b)[1..] == a[1..] + b && (a + b)[0] == a[0];
    }
  }

  /** A trait is listed exactly when a non-reserved key carries it. */
  lemma {:induction false} AttributeEntriesMembers(entries: Obj<string>)
    ensures forall t :: t in AttributeEntries(entries) <==> !Reserved(t.traitType) && Entry(t.traitType, t.value) in entries
  {
    if entries != [] {
      AttributeEntriesMembers(entries[1..]);
      assert forall e :: e in entries <==> e == entries[0] || e in entries[1..];
    }
  }

  /** The Talis mapper's traits are the keys other than `title`,
      `description` and `media`, in key order, each with its value. */
  lemma {:induction false} TalisAttributes(entries: Obj<string>, extractHash: string -> Option<string>)
    ensures TalisFieldsOf(entries, extractHash).attributes == AttributeEntries(entries)
  {
    if entries != [] {
      var init, e := entries[..|entries| - 1], entries[|entries| - 1];
      TalisAttributes(init, extractHash);
      assert entries == init + [e];
      AttributeEntriesAppend(init, [e]);
    }
  }

  /** The name and description are the values of the `title` and
      `description` keys, empty when the key is absent. */
  lemma {:induction false} TalisTexts(entries: Obj<string>, extractHash: string -> Option<string>)
    requires WellFormed(entries)
    ensures TalisFieldsOf(entries, extractHash).name == OrEmpty(Get(entries, "title"))
    ensures TalisFieldsOf(entries, extractHash).description == OrEmpty(Get(entries, "description"))
  {
    if entries != [] {
      var init, e := entries[..|entries| - 1], entries[|entries| - 1];
      assert entries == init + [e];
      assert WellFormed(init);
      TalisTexts(init, extractHash);
      GetSnoc(init, e, "title");
      GetSnoc(init, e, "description");
    }
  }

  /** The image a `media` value, if any, gives; empty otherwise. */
  function ImageFrom(media: Option<string>, extractHash: string -> Option<string>): string {
    if media.Some? && MediaImage(media.value, extractHash).Some? then MediaImage(media.value, extractHash).value else ""
  }

  /** The image comes from the `media` key when a hash is found in it, and
      is empty otherwise. */
  lemma {:induction false} TalisImage(entries: Obj<string>, extractHash: string -> Option<string>)
    requires WellFormed(entries)
    ensures TalisFieldsOf(entries, extractHash).image == ImageFrom(Get(entries, "media"), extractHash)
  {
    if entries != [] {
      var init, e := entries[..|entries| - 1], entries[|entries| - 1];
      assert entries == init + [e];
      assert WellFormed(init);
      TalisImage(init, extractHash);
      TalisImageStep(init, e, extractHash);
    }
  }

  lemma TalisImageStep(init: Obj<string>, e: Entry<string>, extractHash: string -> Option<string>)
    requires WellFormed(init + [e])
    requires TalisFieldsOf(init, extractHash).image == ImageFrom(Get(init, "media"), extractHash)
    ensures TalisFieldsOf(init + [e], extractHash).image == ImageFrom(Get(init + [e], "media"), extractHash)
  {
    GetSnoc(init, e, "media");
    assert (init + [e])[..|init|] == init;
    if e.key == "media" {
      forall i | 0 <= i < |init| ensures init[i].key != e.key {
        assert (init + [e])[i] == init[i];
      }
    }
  }

  /** Reading a key of an object extended by one entry with a new key. */
  lemma {:induction false} GetSnoc(o: Obj<string>, e: Entry<string>, k: string)
    requires WellFormed(o + [e])
    ensures Get(o + [e], k) == if e.key == k then Some(e.val) else Get(o, k)
  {
    if o != [] {
      assert (o + [e])[1..] == o[1..] + [e];
      assert WellFormed(o[1..] + [e]) by {
        forall i, j | 0 <= i < j < |o[1..] + [e]| ensures (o[1..] + [e])[i].key != (o[1..] + [e])[j].key {
          assert (o[1..] + [e])[i] == (o + [e])[i + 1] && (o[1..] + [e])[j] == (o + [e])[j + 1];
        }
      }
      GetSnoc(o[1..], e, k);
      assert (o + [e])[0] == o[0];
    }
  }
}

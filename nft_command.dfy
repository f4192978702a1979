/** command/nft.ts: enumerating a contract's token ids page by page with a
    `start_after` cursor, and fetching the NFTs' details in batches of 30. */
module NftCommand {
  import opened Base
  import opened Interfaces
  import opened Chain
  import Chunking

  /** Every `all_tokens` request asks for this many ids. */
  const PageLimit: nat := 30
  /** `getNftInfos` fetches details for this many ids per call. */
  const InfoBatch: nat := 30

  // =======================================================================
  // getNftTokenIds

  /** The page request: `start_after` is sent only when the cursor is a
      non-empty id. */
  function PageRequest(startAfter: Option<string>): QueryMsg {
    AllTokens(PageLimit, if startAfter.Some? && Truthy(startAfter.value) then startAfter else None)
  }

  /** The pages served from cursor `startAfter` on, within `fuel` requests:
      `None` when paging has not stopped by then. A full page moves the
      cursor to its last id; the first short page ends paging; a failed or
      malformed answer fails it. */
  function Walk(gateway: Gateway, nftAddress: string, h: Option<nat>, startAfter: Option<string>, fuel: nat)
    : Option<Result<seq<seq<string>>, string>>
    decreases fuel
  {
    if fuel == 0 then None
    else
      match gateway(nftAddress, PageRequest(startAfter), h)
      case Err(e) => Some(Err(e))
      case Ok(reply) =>
        if !reply.TokensReply? then Some(Err("unexpected reply to all_tokens"))
        else
          var ids := reply.page.ids;
          if |ids| < PageLimit then Some(Ok([ids]))
          else
            match Walk(gateway, nftAddress, h, Some(ids[|ids| - 1]), fuel - 1)
            case None => None
            case Some(Err(e)) => Some(Err(e))
            case Some(Ok(rest)) => Some(Ok([ids] + rest))
  }

  /** Paging from `startAfter` stops after finitely many requests. The
      source loops for as long as the contract serves full pages. */
  ghost predicate Finishes(gateway: Gateway, nftAddress: string, h: Option<nat>, startAfter: Option<string>) {
    exists n: nat :: Walk(gateway, nftAddress, h, startAfter, n).Some?
  }

  /** More requests than paging needs change nothing. */
  lemma {:induction false} WalkFuel(gateway: Gateway, nftAddress: string, h: Option<nat>, startAfter: Option<string>,
                                    m: nat, n: nat)
    requires m <= n && Walk(gateway, nftAddress, h, startAfter, m).Some?
    ensures Walk(gateway, nftAddress, h, startAfter, n) == Walk(gateway, nftAddress, h, startAfter, m)
    decreases m
  {
    var reply := gateway(nftAddress, PageRequest(startAfter), h);
    if reply.Ok? && reply.value.TokensReply? && |reply.value.page.ids| >= PageLimit {
      var ids := reply.value.page.ids;
      WalkFuel(gateway, nftAddress, h, Some(ids[|ids| - 1]), m - 1, n - 1);
    }
  }

  /** The pages served from the start. */
  ghost function Pages(gateway: Gateway, nftAddress: string, h: Option<nat>): Result<seq<seq<string>>, string>
    requires Finishes(gateway, nftAddress, h, None)
  {
    var n: nat :| Walk(gateway, nftAddress, h, None, n).Some?;
    Walk(gateway, nftAddress, h, None, n).value
  }

  lemma PagesIsWalk(gateway: Gateway, nftAddress: string, h: Option<nat>, n: nat)
    requires Walk(gateway, nftAddress, h, None, n).Some?
    ensures Finishes(gateway, nftAddress, h, None)
    ensures Pages(gateway, nftAddress, h) == Walk(gateway, nftAddress, h, None, n).value
  {
    forall m: nat | Walk(gateway, nftAddress, h, None, m).Some?
      ensures Walk(gateway, nftAddress, h, None, m) == Walk(gateway, nftAddress, h, None, n)
    {
      if m <= n {
        WalkFuel(gateway, nftAddress, h, None, m, n);
      } else {
        WalkFuel(gateway, nftAddress, h, None, n, m);
      }
    }
  }

  /** The cursor page `i` was requested with: none for the first page, the
      last id of the page before for the others. */
  function Cursor(start: Option<string>, pages: seq<seq<string>>, i: nat): Option<string>
    requires i < |pages| && (i > 0 ==> |pages[i - 1]| > 0)
  {
    if i == 0 then start else Some(pages[i - 1][|pages[i - 1]| - 1])
  }

  /** The contract answered `request(cursor)` with `page`. */
  predicate ServedAt(gateway: Gateway, nftAddress: string, h: Option<nat>, cursor: Option<string>, page: seq<string>) {
    var reply := gateway(nftAddress, PageRequest(cursor), h);
    reply.Ok? && reply.value.TokensReply? && reply.value.page.ids == page
  }

  /** One request of a paging that finishes: a page of ids, the last one
      when short, followed by the pages from its last id when full. */
  lemma WalkStep(gateway: Gateway, nftAddress: string, h: Option<nat>, start: Option<string>, fuel: nat)
    requires Walk(gateway, nftAddress, h, start, fuel).Some? && Walk(gateway, nftAddress, h, start, fuel).value.Ok?
    ensures fuel > 0
    ensures var reply := gateway(nftAddress, PageRequest(start), h);
      reply.Ok? && reply.value.TokensReply?
    ensures var ids := gateway(nftAddress, PageRequest(start), h).value.page.ids;
      var pages := Walk(gateway, nftAddress, h, start, fuel).value.value;
      && (|ids| < PageLimit ==> pages == [ids])
      && (|ids| >= PageLimit ==>
            var rest := Walk(gateway, nftAddress, h, Some(ids[|ids| - 1]), fuel - 1);
            rest.Some? && rest.value.Ok? && pages == [ids] + rest.value.value)
  {
  }

  /** Paging that finishes has served at least one page; every page but
      the last was full, and the last was short. */
  lemma {:induction false} PageSizes(gateway: Gateway, nftAddress: string, h: Option<nat>, start: Option<string>,
                                     fuel: nat)
    requires Walk(gateway, nftAddress, h, start, fuel).Some? && Walk(gateway, nftAddress, h, start, fuel).value.Ok?
    ensures var pages := Walk(gateway, nftAddress, h, start, fuel).value.value;
      && |pages| > 0
      && (forall i :: 0 <= i < |pages| - 1 ==> |pages[i]| >= PageLimit)
      && |pages[|pages| - 1]| < PageLimit
    decreases fuel
  {
    WalkStep(gateway, nftAddress, h, start, fuel);
    var ids := gateway(nftAddress, PageRequest(start), h).value.page.ids;
    if |ids| >= PageLimit {
      PageSizes(gateway, nftAddress, h, Some(ids[|ids| - 1]), fuel - 1);
    }
  }

  /** The cursors of the pages after the first are those of the paging
      that resumed from the first page's last id. */
  lemma CursorShift(start: Option<string>, ids: seq<string>, rest: seq<seq<string>>, i: nat)
    requires |ids| > 0 && 1 <= i <= |rest| && (i > 1 ==> |rest[i - 2]| > 0)
    ensures var pages := [ids] + rest;
      && pages[i] == rest[i - 1]
      && Cursor(start, pages, i) == Cursor(Some(ids[|ids| - 1]), rest, i - 1)
  {
    var pages := [ids] + rest;
    assert pages[i - 1] == if i == 1 then ids else rest[i - 2];
  }

  /** Paging that finishes has asked for 30 ids at a time, each request
      after the first from the last id of the page before; every page but
      the last was full, and the last was short. */
  lemma {:induction false} PagesServed(gateway: Gateway, nftAddress: string, h: Option<nat>, start: Option<string>,
                                       fuel: nat)
    requires Walk(gateway, nftAddress, h, start, fuel).Some? && Walk(gateway, nftAddress, h, start, fuel).value.Ok?
    ensures var pages := Walk(gateway, nftAddress, h, start, fuel).value.value;
      && |pages| > 0
      && (forall i :: 0 <= i < |pages| - 1 ==> |pages[i]| >= PageLimit)
      && |pages[|pages| - 1]| < PageLimit
      && (forall i :: 0 <= i < |pages| ==> ServedAt(gateway, nftAddress, h, Cursor(start, pages, i), pages[i]))
    decreases fuel
  {
    PageSizes(gateway, nftAddress, h, start, fuel);
    WalkStep(gateway, nftAddress, h, start, fuel);
    var ids := gateway(nftAddress, PageRequest(start), h).value.page.ids;
    var pages := Walk(gateway, nftAddress, h, start, fuel).value.value;
    if |ids| >= PageLimit {
      var next := Some(ids[|ids| - 1]);
      PagesServed(gateway, nftAddress, h, next, fuel - 1);
      var rest := Walk(gateway, nftAddress, h, next, fuel - 1).value.value;
      forall i | 1 <= i < |pages| ensures ServedAt(gateway, nftAddress, h, Cursor(start, pages, i), pages[i]) {
        CursorShift(start, ids, rest, i);
      }
    }
  }

  /** What `getNftTokenIds` returns: nothing (`undefined`) when the contract
      reports no tokens, otherwise every id served, page after page. */
  ghost function TokenIdsOf(gateway: Gateway, nftAddress: string, height: Option<nat>): Result<Option<seq<string>>, string>
    requires PagingEnds(gateway, nftAddress, height)
  {
    match gateway(nftAddress, NumTokens, Pinned(height))
    case Err(e) => Err(e)
    case Ok(reply) =>
      if !reply.CountReply? then Err("unexpected reply to num_tokens")
      else if reply.count <= 0 then Ok(None)
      else
        match Pages(gateway, nftAddress, Pinned(height))
        case Err(e) => Err(e)
        case Ok(pages) => Ok(Some(Chunking.Flatten(pages)))
  }

  /** Paging is reached only when the contract reports tokens; then it must
      stop. */
  ghost predicate PagingEnds(gateway: Gateway, nftAddress: string, height: Option<nat>) {
    var reply := gateway(nftAddress, NumTokens, Pinned(height));
    reply.Ok? && reply.value.CountReply? && reply.value.count > 0 ==> Finishes(gateway, nftAddress, Pinned(height), None)
  }

  /** The pages still to come, put after those already served. */
  function After(served: seq<seq<string>>, rest: Result<seq<seq<string>>, string>): Result<seq<seq<string>>, string> {
    match rest
    case Err(e) => Err(e)
    case Ok(pages) => Ok(served + pages)
  }

  /** One request of the enumeration, seen from the pages served so far:
      a failure is the enumeration's failure, a short page its last, and a
      full page leaves the rest to the paging from its last id. */
  lemma ServeStep(gateway: Gateway, nftAddress: string, h: Option<nat>, startAfter: Option<string>, fuel: nat,
                  served: seq<seq<string>>, target: Result<seq<seq<string>>, string>)
    requires Walk(gateway, nftAddress, h, startAfter, fuel).Some?
    requires After(served, Walk(gateway, nftAddress, h, startAfter, fuel).value) == target
    ensures fuel > 0
    ensures var reply := gateway(nftAddress, PageRequest(startAfter), h);
      && (reply.Err? ==> target == Err(reply.error))
      && (reply.Ok? && !reply.value.TokensReply? ==> target == Err("unexpected reply to all_tokens"))
      && (reply.Ok? && reply.value.TokensReply? && |reply.value.page.ids| < PageLimit ==>
            target == Ok(served + [reply.value.page.ids]))
      && (reply.Ok? && reply.value.TokensReply? && |reply.value.page.ids| >= PageLimit ==>
            var ids := reply.value.page.ids;
            && Walk(gateway, nftAddress, h, Some(ids[|ids| - 1]), fuel - 1).Some?
            && After(served + [ids], Walk(gateway, nftAddress, h, Some(ids[|ids| - 1]), fuel - 1).value) == target)
  {
    var reply := gateway(nftAddress, PageRequest(startAfter), h);
    if reply.Ok? && reply.value.TokensReply? && |reply.value.page.ids| >= PageLimit {
      var ids := reply.value.page.ids;
      var rest := Walk(gateway, nftAddress, h, Some(ids[|ids| - 1]), fuel - 1).value;
      if rest.Ok? {
        assert (served + [ids]) + rest.value == served + ([ids] + rest.value);
      }
    }
  }

  /** `getNftTokenIds`. */
  method GetNftTokenIds(gateway: Gateway, nftAddress: string, height: Option<nat>)
    returns (r: Result<Option<seq<string>>, string>)
    requires PagingEnds(gateway, nftAddress, height)
    ensures r == TokenIdsOf(gateway, nftAddress, height)
  {
    var h := Pinned(height);
    var countResponse := gateway(nftAddress, NumTokens, h);
    if countResponse.Err? {
      return Err(countResponse.error);
    }
    if !countResponse.value.CountReply? {
      return Err("unexpected reply to num_tokens");
    }
    if countResponse.value.count <= 0 {
      return Ok(None);
    }
    ghost var n: nat :| Walk(gateway, nftAddress, h, None, n).Some?;
    PagesIsWalk(gateway, nftAddress, h, n);
    ghost var fuel: nat := n;
    ghost var served: seq<seq<string>> := [];
    assert After(served, Walk(gateway, nftAddress, h, None, n).value) == Walk(gateway, nftAddress, h, None, n).value by {
      if Walk(gateway, nftAddress, h, None, n).value.Ok? {
        assert served + Walk(gateway, nftAddress, h, None, n).value.value == Walk(gateway, nftAddress, h, None, n).value.value;
      }
    }
    var tokenIds: seq<string> := [];
    var startAfter: Option<string> := None;
    var needProcess := true;
    while needProcess
      invariant needProcess ==> Walk(gateway, nftAddress, h, startAfter, fuel).Some?
      invariant needProcess ==> (After(served, Walk(gateway, nftAddress, h, startAfter, fuel).value)
                                 == Walk(gateway, nftAddress, h, None, n).value)
      invariant !needProcess ==> Walk(gateway, nftAddress, h, None, n).value == Ok(served)
      invariant tokenIds == Chunking.Flatten(served)
      decreases if needProcess then fuel + 1 else 0
    {
      ServeStep(gateway, nftAddress, h, startAfter, fuel, served, Walk(gateway, nftAddress, h, None, n).value);
      var response := gateway(nftAddress, PageRequest(startAfter), h);
      if response.Err? {
        return Err(response.error);
      }
      if !response.value.TokensReply? {
        return Err("unexpected reply to all_tokens");
      }
      var ids := response.value.page.ids;
      Chunking.FlattenSnoc(served, ids);
      tokenIds := tokenIds + ids;
      served := served + [ids];
      if |ids| > 0 {
        startAfter := Some(ids[|ids| - 1]);
      } else {
        startAfter := None;
      }
      if |ids| < PageLimit {
        needProcess := false;
      }
      fuel := fuel - 1;
    }
    r := Ok(Some(tokenIds));
  }

  /** A contract that reports no tokens yields nothing, whatever its pages
      would say; one that reports some yields every id of every page served,
      in order, whatever the count. */
  lemma TokenIdsMeaning(gateway: Gateway, nftAddress: string, height: Option<nat>)
    requires PagingEnds(gateway, nftAddress, height)
    ensures var reply := gateway(nftAddress, NumTokens, Pinned(height));
      var r := TokenIdsOf(gateway, nftAddress, height);
      && (r == Ok(None) <==> reply.Ok? && reply.value.CountReply? && reply.value.count <= 0)
      && (r.Ok? && r.value.Some? ==>
            && Pages(gateway, nftAddress, Pinned(height)).Ok?
            && r.value.value == Chunking.Flatten(Pages(gateway, nftAddress, Pinned(height)).value))
  {
  }

  /** Every page of a finished enumeration came from a request for 30 ids
      from the previous page's last id, and only the last page was short. */
  lemma EnumerationPages(gateway: Gateway, nftAddress: string, height: Option<nat>)
    requires Finishes(gateway, nftAddress, Pinned(height), None)
    requires Pages(gateway, nftAddress, Pinned(height)).Ok?
    ensures var pages := Pages(gateway, nftAddress, Pinned(height)).value;
      && |pages| > 0
      && (forall i :: 0 <= i < |pages| - 1 ==> |pages[i]| >= PageLimit)
      && |pages[|pages| - 1]| < PageLimit
      && (forall i :: 0 <= i < |pages| ==> ServedAt(gateway, nftAddress, Pinned(height), Cursor(None, pages, i), pages[i]))
  {
    var n: nat :| Walk(gateway, nftAddress, Pinned(height), None, n).Some?;
    PagesIsWalk(gateway, nftAddress, Pinned(height), n);
    PagesServed(gateway, nftAddress, Pinned(height), None, n);
  }

  // =======================================================================
  // getNftInfos

  /** Fetches the details of a batch of ids (`getNftInfos` of
      helpers/nft.ts, for the chosen NFT standard); not modelled. */
  type InfoFetcher = seq<string> -> Result<seq<Nft>, string>

  /** What `getNftInfos` builds: the contract's name and symbol and the NFTs
      of the batches fetched before the first failure. An empty contract
      fails, because the enumeration returned nothing. */
  ghost function NftInfosOf(gateway: Gateway, nftAddress: string, height: Option<nat>, fetch: InfoFetcher)
    : Result<(string, string, seq<Nft>), string>
    requires PagingEnds(gateway, nftAddress, height)
  {
    match gateway(nftAddress, ContractInfo, Pinned(height))
    case Err(e) => Err(e)
    case Ok(info) =>
      if !info.ContractInfoReply? then Err("unexpected reply to contract_info")
      else
        match TokenIdsOf(gateway, nftAddress, height)
        case Err(e) => Err(e)
        case Ok(None) => Err(UndefinedTokenIds)
        case Ok(Some(ids)) => Ok((info.name, info.symbol, Chunking.RunChunks(ids, InfoBatch, fetch).outputs))
  }

  /** What reading `tokenIds.length` throws when the enumeration gave
      `undefined`. */
  const UndefinedTokenIds: string := "TypeError: Cannot read properties of undefined (reading 'length')"

  /** `getNftInfos`: a fresh collection holding what `NftInfosOf` describes. */
  method GetNftInfos(gateway: Gateway, nftAddress: string, height: Option<nat>, fetch: InfoFetcher)
    returns (r: Result<Collection, string>)
    requires PagingEnds(gateway, nftAddress, height)
    ensures var spec := NftInfosOf(gateway, nftAddress, height, fetch);
      && r.Ok? == spec.Ok?
      && (r.Err? ==> r.error == spec.error)
      && (r.Ok? ==> && fresh(r.value) && r.value.nftContract == nftAddress
                    && r.value.name == Some(spec.value.0) && r.value.symbol == Some(spec.value.1)
                    && r.value.nfts == spec.value.2 && r.value.collectionAttributes.None?)
  {
    var collectionResponse := gateway(nftAddress, ContractInfo, Pinned(height));
    if collectionResponse.Err? {
      return Err(collectionResponse.error);
    }
    if !collectionResponse.value.ContractInfoReply? {
      return Err("unexpected reply to contract_info");
    }
    var collectionName := collectionResponse.value.name;
    var collectionSymbol := collectionResponse.value.symbol;
    var tokenIds := GetNftTokenIds(gateway, nftAddress, height);
    if tokenIds.Err? {
      return Err(tokenIds.error);
    }
    if tokenIds.value.None? {
      return Err(UndefinedTokenIds);
    }
    ghost var all := tokenIds.value.value;
    var nfts: seq<Nft> := [];
    var ids := tokenIds.value.value;
    while |ids| > 0
      invariant Chunking.RunChunks(all, InfoBatch, fetch).outputs == nfts + Chunking.RunChunks(ids, InfoBatch, fetch).outputs
      decreases |ids|
    {
      var tempIds := Chunking.Head(ids, InfoBatch);
      var tempNfts := fetch(tempIds);
      if tempNfts.Err? {
        break;
      }
      nfts := nfts + tempNfts.value;
      ids := ids[|tempIds|..];
    }
    var collection := new Collection(nftAddress, Some(collectionName), Some(collectionSymbol), nfts);
    r := Ok(collection);
  }

  /** The NFTs gathered are those of the batches fetched, in order: leading
      batches of 30 consecutive ids, all of them unless one failed, and only
      the failed one's NFTs are missing. */
  lemma NftInfosPartial(gateway: Gateway, nftAddress: string, height: Option<nat>, fetch: InfoFetcher)
    requires PagingEnds(gateway, nftAddress, height)
    requires NftInfosOf(gateway, nftAddress, height, fetch).Ok?
    ensures var ids := TokenIdsOf(gateway, nftAddress, height).value.value;
      var run := Chunking.RunChunks(ids, InfoBatch, fetch);
      && NftInfosOf(gateway, nftAddress, height, fetch).value.2
         == Chunking.Flatten(Chunking.OkOutputs(run.submitted, fetch))
      && |run.submitted| <= |Chunking.Chunks(ids, InfoBatch)|
      && run.submitted == Chunking.Chunks(ids, InfoBatch)[..|run.submitted|]
      && (run.failure.None? ==> run.submitted == Chunking.Chunks(ids, InfoBatch))
      && (forall i :: 0 <= i < |run.submitted| ==> 0 < |run.submitted[i]| <= InfoBatch)
  {
    var ids := TokenIdsOf(gateway, nftAddress, height).value.value;
    Chunking.RunOutputs(ids, InfoBatch, fetch);
    Chunking.RunSubmittedPrefix(ids, InfoBatch, fetch);
    Chunking.RunFailsIff(ids, InfoBatch, fetch);
    Chunking.ChunksPartition(ids, InfoBatch);
    var run := Chunking.RunChunks(ids, InfoBatch, fetch);
    var cs := Chunking.Chunks(ids, InfoBatch);
    forall i | 0 <= i < |run.submitted| ensures 0 < |run.submitted[i]| <= InfoBatch {
      assert run.submitted[i] == cs[i];
    }
  }

  /** A contract that reports no tokens makes `getNftInfos` fail. */
  lemma EmptyContractFails(gateway: Gateway, nftAddress: string, height: Option<nat>, fetch: InfoFetcher)
    requires PagingEnds(gateway, nftAddress, height)
    requires gateway(nftAddress, ContractInfo, Pinned(height)).Ok?
    requires gateway(nftAddress, ContractInfo, Pinned(height)).value.ContractInfoReply?
    requires gateway(nftAddress, NumTokens, Pinned(height)) == Ok(CountReply(0))
    ensures NftInfosOf(gateway, nftAddress, height, fetch) == Err(UndefinedTokenIds)
  {
  }
}

/** The chain node as the tools see it: read-only contract queries, optionally
    pinned to a block height, and transactions that either go through or
    fail. Both are parameters of the model; what a contract answers is not
    modelled. */
module Chain {
  import opened Base

  /** The contract queries the modelled code sends. */
  datatype QueryMsg =
    | NumTokens
    | AllTokens(limit: nat, startAfter: Option<string>)
    | OwnerOf(tokenId: string)
    | ContractInfo
    | NftAuction(nftContract: string, tokenId: string)
    | SellOrderForToken(contractAddress: string, tokenId: string)
    | AuctionByCollectionAndTokenId(contractAddress: string, tokenId: string)

  /** A page of token ids: some contracts answer with bare ids, others with
      records that carry a `token_id` field. */
  datatype TokenPage = BareIds(ids: seq<string>) | TokenRecords(ids: seq<string>)

  /** The answers the modelled code reads. */
  datatype Reply =
    | CountReply(count: int)
    | TokensReply(page: TokenPage)
    | OwnerReply(owner: string)
    | ContractInfoReply(name: string, symbol: string)
    | AuctionReply(seller: string, bidder: string, isSettled: bool)
    | SellOrderReply(orderOwner: string)
    | TalisAuctionReply(creator: string)

  /** `query(contract, msg)` or `queryAtHeight(contract, msg, h)`; a failure
      carries the error text. */
  type Gateway = (string, QueryMsg, Option<nat>) -> Result<Reply, string>

  /** Callers write `if (height) queryAtHeight(..) else query(..)`: an absent
      height and height 0 both mean "latest". */
  function Pinned(height: Option<nat>): (h: Option<nat>)
    ensures h.Some? <==> height.Some? && height.value != 0
    ensures h.Some? ==> h == height
  {
    if height.Some? && height.value != 0 then height else None
  }

  /** The outcome of a broadcast transaction. */
  datatype TxResponse = TxResponse(txhash: string, height: nat, timestamp: int)
}

/** The records the command-line tools pass around: NFTs and their traits,
    collections with derived trait statistics, ownership snapshots, mint
    instructions and receipts, and the tool's persisted configuration. */
module Interfaces {
  import opened Base
  import opened Records

  /** A point in time (milliseconds); the tools read it from the clock. */
  type Instant = int

  /** The value the trait aggregator uses for "this NFT has no such trait". */
  const NoneValue: string := "[none]"

  /** One entry of an NFT's trait list. The optional `display_type` is not
      read by any of the modelled code and is left out. */
  datatype Trait = Trait(traitType: string, value: string)

  datatype RarityModel = TraitRarity | MeanTraitRarity | StatisticalRarity | RarityScore

  datatype NftRarity = NftRarity(rankModel: RarityModel, score: real, rank: nat)

  datatype Nft = Nft(
    nftContract: string,
    tokenId: string,
    name: Option<string>,
    description: Option<string>,
    image: Option<string>,
    imageData: Option<string>,
    animationUrl: Option<string>,
    videoUrl: Option<string>,
    attributes: Option<seq<Trait>>,
    height: Option<nat>,
    rarities: Option<seq<NftRarity>>)

  /** Statistics of one trait value: how many NFTs carry it and which
      percentage of the collection that is. The value itself is the key under
      which the statistics are stored. */
  datatype ValueStat = ValueStat(count: nat, share: real)

  datatype CollectionAttribute = CollectionAttribute(traitType: string, values: map<string, ValueStat>)

  /** A collection is updated in place by the trait aggregator (which sets
      `collectionAttributes`) and by the rarity ranker (which sets every
      NFT's `rarities`). */
  class Collection {
    var nftContract: string
    var name: Option<string>
    var symbol: Option<string>
    var nfts: seq<Nft>
    var collectionAttributes: Option<seq<CollectionAttribute>>

    constructor (nftContract: string, name: Option<string>, symbol: Option<string>, nfts: seq<Nft>)
      ensures this.nftContract == nftContract && this.name == name && this.symbol == symbol
      ensures this.nfts == nfts && this.collectionAttributes.None?
    {
      this.nftContract := nftContract;
      this.name := name;
      this.symbol := symbol;
      this.nfts := nfts;
      this.collectionAttributes := None;
    }
  }

  datatype NftOwner = NftOwner(
    nftContract: string,
    tokenId: string,
    owner: string,
    createdAt: Instant,
    memo: Option<string>,
    height: Option<nat>)

  /** A row of the rarity export. */
  datatype NftRank = NftRank(
    tokenId: string,
    name: Option<string>,
    traitRarity: nat,
    meanTraitRarity: nat,
    statisticalRarity: nat,
    rarityScore: nat)

  datatype Instruction = Instruction(
    tokenId: string,
    name: string,
    imageFilename: string,
    metadataFilename: Option<string>,
    imageUri: Option<string>,
    owner: string,
    description: Option<string>,
    attributes: Option<seq<Trait>>)

  /** Receipt of one minted token: the transaction it went out in and its
      position among that transaction's messages. */
  datatype NftTx = NftTx(tokenId: string, txhash: string, height: nat, msgIndex: nat, timestamp: Instant)

  /** The tool's persisted state: the network, the deployed contracts by role
      name, their code ids, and when the record was created and updated. */
  class SoilData {
    var network: string
    var addresses: Obj<string>
    var codeIds: Obj<nat>
    var createdAt: Instant
    var updatedAt: Instant

    constructor (network: string, addresses: Obj<string>, codeIds: Obj<nat>, createdAt: Instant, updatedAt: Instant)
      ensures this.network == network && this.addresses == addresses && this.codeIds == codeIds
      ensures this.createdAt == createdAt && this.updatedAt == updatedAt
    {
      this.network := network;
      this.addresses := addresses;
      this.codeIds := codeIds;
      this.createdAt := createdAt;
      this.updatedAt := updatedAt;
    }
  }
}

# Soil CLI core, modelled in Dafny

This project models the command-line tooling of the Soil NFT protocol on Terra (`js/cli/src`). It covers:

- the helpers that aggregate NFT traits and compute four rarity rankings (trait rarity, mean trait rarity, statistical rarity, rarity score);
- the helpers that export rankings and holder snapshots as CSV;
- the helpers that map the CW721 and Talis metadata standards onto the common `Nft` record;
- tracing NFTs parked on the Knowhere and Talis marketplaces back to their sellers;
- parsing a master configuration into mint instructions, and pinning images to IPFS;
- preparing and instantiating a candy machine;
- the batch-driven commands `getNftTokenIds`, `getNftInfos`, `nftHolderSnapshot`, `holderSnapshot`, `mintNfts`, `setWhitelists` and `uploadIpfs`.

The model follows the form of each source file:

- Object mutation is a `class` with `modifies` clauses:
  - `Collection`, changed in place by `calculateTrait` and `calculateRarity`;
  - `SoilData`, changed by `createCandyMachine`.
- Loops are `method`s with invariants, each proved equal to a recursive specification function. The properties the source promises are then proved about that function as lemmas.
- The in-place `Array.prototype.sort` of the exports is an insertion sort over an `array`.
- The chain, IPFS (Pinata), file-system checks and the clock are parameters: total functions from a request to a `Result`, and an `Instant`.

Modules:

| module | models |
|---|---|
| `Base`, `Records`, `Chunking`, `Csv`, `Sorting`, `Chain`, `Interfaces` | shared vocabulary: JS truthiness, decimal strings, string order, objects as ordered key/value lists, `splice`-by-k batching, CSV joining with no quoting, the gateway query and reply types, the interface records |
| `NftHelpers` | `helpers/nft.ts` |
| `Rarity`, `Ranking`, `RarityExport` | `helpers/rarity.ts` |
| `Marketplace` | `helpers/marketplace.ts` |
| `SnapshotHelpers` | `helpers/snapshot.ts` |
| `Minter` | `helpers/minter.ts` |
| `Ipfs` | `helpers/ipfs.ts` |
| `Candy` | `helpers/candy.ts` |
| `NftCommand`, `SnapshotCommand`, `MintCommand`, `WhitelistCommand`, `UploadCommand` | the files of `command/` |

Arithmetic on scores is exact (`real`). Where JavaScript would produce `NaN` or `Infinity`, the model returns the error `NotFinite`.

## Model

| member | source | states |
|---|---|---|
| NftHelpers.UniqueTraitTypes | js/cli/src/helpers/nft.ts:112-117 | the trait types, de-duplicated, in the order of their first occurrence across all NFTs |
| NftHelpers.DedupMembers | js/cli/src/helpers/nft.ts:112-117 | the de-duplicated list holds exactly the types that occur, each once |
| NftHelpers.DedupOrder | js/cli/src/helpers/nft.ts:112-117 | the de-duplicated types keep the order of first occurrence |
| NftHelpers.CountValues | js/cli/src/helpers/nft.ts:128-140 | the per-value tally for one trait type equals the count specification |
| NftHelpers.ValueOfIsFirstEntry | js/cli/src/helpers/nft.ts:125-133 | an NFT's value for a type is that of its first entry of the type, and `[none]` when it has none |
| NftHelpers.CountDictMeaning | js/cli/src/helpers/nft.ts:128-140 | a value has a tally iff some NFT carries it, and its tally is the number of NFTs carrying it (at least 1) |
| NftHelpers.CountsSumToSize | js/cli/src/helpers/nft.ts:128-140 | the tallies of one trait type add up to the number of NFTs |
| NftHelpers.ShareBounds | js/cli/src/helpers/nft.ts:143-151 | a share `count / n * 100` of a present value lies in (0, 100] |
| NftHelpers.ComputeAttributes | js/cli/src/helpers/nft.ts:121-156 | the loop over trait types builds the aggregate specification |
| NftHelpers.OneAttributePerTraitType | js/cli/src/helpers/nft.ts:110-159 | one collection attribute per distinct trait type, no repeats, exactly the types present, in first-occurrence order |
| NftHelpers.AttributeStatistics | js/cli/src/helpers/nft.ts:143-155 | each attribute lists exactly the values carried, with their counts in [1, n] and their shares in (0, 100] |
| NftHelpers.CountsSumToCollectionSize | js/cli/src/helpers/nft.ts:143-155 | the counts listed for one attribute add up to the collection size |
| NftHelpers.NoneMeansMissing | js/cli/src/helpers/nft.ts:125 | when no NFT uses the literal value `[none]`, it is listed iff some NFT lacks the trait type |
| NftHelpers.CalculateTrait | js/cli/src/helpers/nft.ts:110-159 | succeeds iff every NFT has attributes; sets `collectionAttributes` to the aggregate and changes nothing else; on failure leaves the collection as it was |
| NftHelpers.NftsFromInstructions | js/cli/src/helpers/nft.ts:91-100 | one NFT per instruction, with its token id, image URI, name, description and attributes, and no rarities or height |
| NftHelpers.ParseNftFromMasterConfig | js/cli/src/helpers/nft.ts:85-108 | a fresh collection for the contract with those NFTs, the given name and symbol, and no attributes yet |
| NftHelpers.MintMsgs | js/cli/src/helpers/nft.ts:57-71 | one mint message per instruction carrying its token id, owner, image, description, name and attributes, with an empty token URI |
| NftHelpers.BulkMint | js/cli/src/helpers/nft.ts:47-83 | fails iff the batched execution fails, with its error; otherwise one receipt per instruction, in order, sharing the transaction hash, height and timestamp, numbered by message index |
| Rarity.BuildAttributeDict | js/cli/src/helpers/rarity.ts:10-18 | the loop builds the trait-type to value-statistics dictionary |
| Rarity.LookupFound | js/cli/src/helpers/rarity.ts:10-18 | a type/value pair is in the dictionary iff some collection attribute of that type lists the value |
| Rarity.LookupLastWins | js/cli/src/helpers/rarity.ts:10-18 | when an attribute type repeats, the last listing of a value wins |
| Rarity.ResolveMeaning | js/cli/src/helpers/rarity.ts:47-60 | looking up an NFT's traits succeeds iff every trait other than `[none]` is in the dictionary, and then yields their statistics in order |
| Rarity.ScoreNft | js/cli/src/helpers/rarity.ts:39-192 | the per-NFT loop of each model computes that model's score specification |
| Rarity.MinShareIsMinimum | js/cli/src/helpers/rarity.ts:47-60 | the trait-rarity score is the least share of the NFT's traits, starting from 100 |
| Rarity.MeanShareBounds | js/cli/src/helpers/rarity.ts:86-100 | the mean share of an NFT with at least one counted trait lies in (0, 100] |
| Rarity.ShareProductPositive | js/cli/src/helpers/rarity.ts:126-137 | the statistical-rarity product of shares is positive |
| Rarity.InverseFrequencyAtLeastTraitCount | js/cli/src/helpers/rarity.ts:163-175 | the rarity score (sum of `1 / (count / supply)`) is at least the number of counted traits |
| Rarity.ScoreCollection | js/cli/src/helpers/rarity.ts:47-60 | the first loop of each rarity model (this one for TraitRarity; the same loop at rarity.ts lines 86-100, 126-137 and 163-175 for the other three): scores every NFT or stops at the first error; the score by token id and the list of distinct scores agree with the scores |
| Rarity.ByTokenMeaning | js/cli/src/helpers/rarity.ts:61-74 | the score table has exactly the token ids of the NFTs, and the last NFT with an id gives its score |
| Ranking.SortAscending | js/cli/src/helpers/rarity.ts:61 | the distinct scores in strictly increasing order, the same set |
| Ranking.NumberInOrder | js/cli/src/helpers/rarity.ts:61-67 | numbering the sorted scores gives position + 1 to each |
| Ranking.RankTable | js/cli/src/helpers/rarity.ts:61-67 | the rank of a score is its dense rank among the distinct scores, descending for the rarity score |
| Ranking.PositionIsRank | js/cli/src/helpers/rarity.ts:176-183 | in the sorted list the ascending rank is position + 1 and the reversed rank is length − position |
| Ranking.RankBounds | js/cli/src/helpers/rarity.ts:61-67 | every rank lies between 1 and the number of distinct scores |
| Ranking.RankOrder | js/cli/src/helpers/rarity.ts:61-67 | a smaller score gets a smaller rank, or a larger one in the descending order |
| Ranking.RanksDense | js/cli/src/helpers/rarity.ts:61-67 | every rank from 1 to the number of distinct scores is taken |
| Rarity.RankModel | js/cli/src/helpers/rarity.ts:39-76 | one model's score-and-rank pass computes the rarity table specification |
| Rarity.TableMeaning | js/cli/src/helpers/rarity.ts:39-192 | the table covers exactly the NFTs' token ids, tags entries with the model, takes scores from the NFTs, and ranks them densely and in order |
| Rarity.RunModels | js/cli/src/helpers/rarity.ts:28-35 | runs the four models in turn and stops at the first error |
| Rarity.SetRarities | js/cli/src/helpers/rarity.ts:28-35 | attaches each NFT's four table entries and changes nothing else |
| Rarity.CalculateRarity | js/cli/src/helpers/rarity.ts:6-37 | succeeds iff the rarity tables exist; then every NFT gets its rarities; on failure the NFTs are as they were; the collection's other fields never change |
| Rarity.RaritiesInModelOrder | js/cli/src/helpers/rarity.ts:28-35 | after a success every NFT carries exactly four rarities, in model order, taken from the tables, and nothing else about it changes |
| Rarity.ResolveOnAggregate | js/cli/src/helpers/rarity.ts:10-18 | looking up the traits of an NFT of the collection in the dictionary built from its own aggregate always succeeds, with counts in [1, n] and shares in (0, 100] |
| Rarity.UnaggregatedValueFails | js/cli/src/helpers/rarity.ts:49-57 | for every collection, a trait whose value is no NFT's first value of its type (such as the second value of a trait type an NFT lists twice) is missing from the lookup built from the aggregate, and the NFT carrying it cannot be scored |
| Rarity.DuplicateTraitTypeFails | js/cli/src/helpers/rarity.ts:49-57 | an example: in a one-NFT collection whose NFT lists `hat` as red, then blue, scoring fails on (hat, blue) |
| RarityExport.ExportFileNameChoice | js/cli/src/helpers/rarity.ts:241-246 | the file is `<filename>.csv` when a non-empty name is given, and `rank_<address>.csv` otherwise |
| RarityExport.DefaultNamesDistinct | js/cli/src/helpers/rarity.ts:241-246 | different contracts get different default file names |
| RarityExport.FieldsReadBack | js/cli/src/helpers/rarity.ts:200-225 | a row holds the token id, the name (empty when missing) and the four ranks, as decimals that read back |
| RarityExport.ExportReadsBack | js/cli/src/helpers/rarity.ts:226-237 | with no quoting, the CSV text parses back to the header followed by one row per rank, in order, when no field holds a comma or newline |
| RarityExport.ExportCsv | js/cli/src/helpers/rarity.ts:194-249 | sorts the ranks in place by token id as a permutation, renders that order as CSV and names the file |
| Sorting.SortByKey | js/cli/src/helpers/rarity.ts:230-236 | the array ends sorted by the key under JavaScript's string order (UTF-16 code units) and is a permutation of what it held |
| Base.StrLtTotal | js/cli/src/helpers/rarity.ts:231 | the string `<` (lexicographic over UTF-16 code units) orders any two distinct strings one way, and with StrLtTransitive, StrLtAsymmetric and Utf16Injective it is a strict total order |
| Base.Utf16Injective | js/cli/src/helpers/rarity.ts:231 | different strings have different UTF-16 encodings, so comparing code units loses no distinction |
| Base.OneCharOrder | js/cli/src/helpers/rarity.ts:231 | within the Basic Multilingual Plane single characters compare as their code points; a character above U+FFFF sorts as its high surrogate, before U+E000 to U+FFFF |
| Base.SupplementaryBeforeLastBmp | js/cli/src/helpers/rarity.ts:231 | U+10000 sorts before U+FFFF, as JavaScript's `<` has it |
| Csv.ParseText | js/cli/src/helpers/rarity.ts:226-229 | joining fields with commas and records with newlines, without quoting, reads back when no field holds either |
| Marketplace.AddressMapEntries | js/cli/src/helpers/marketplace.ts:16-24 | the three marketplace addresses are distinct; one maps to Knowhere and the two others to Talis |
| Marketplace.KnowhereResult | js/cli/src/helpers/marketplace.ts:26-56 | succeeds iff the auction query answers; the holder is the bidder of a settled auction, else the seller; memo `knowhere`; height kept |
| Marketplace.KnowhereDependsOnAuctionOnly | js/cli/src/helpers/marketplace.ts:44-47 | the Knowhere result depends on the auction reply only, not on the original owner |
| Marketplace.TalisResult | js/cli/src/helpers/marketplace.ts:58-105 | a token on the Talis marketplace belongs to its sell order's owner, one in a Talis auction to the auction's creator; each succeeds iff its query answers; memo `talis` |
| Marketplace.TalisKeepsOtherOwners | js/cli/src/helpers/marketplace.ts:97-104 | for any other original owner the Talis handler keeps that owner |
| Marketplace.Cw721Mapping | js/cli/src/helpers/marketplace.ts:112-129 | the CW721 fields map onto the NFT record: the extension's name when non-empty, else the top-level name; the image, description and attributes from the extension, with an empty image and an empty trait list when absent; the extension's image data when non-empty, else the top-level image; video URL = animation URL |
| Marketplace.AfterLastSlash | js/cli/src/helpers/marketplace.ts:149 | the result is the slash-free suffix after the last `/` |
| Marketplace.MapTalisStandard | js/cli/src/helpers/marketplace.ts:131-168 | the loop over the raw keys computes the Talis field specification |
| Marketplace.TalisTexts | js/cli/src/helpers/marketplace.ts:143-146 | the name is the `title` entry and the description the `description` entry, empty when missing |
| Marketplace.TalisImage | js/cli/src/helpers/marketplace.ts:147-152 | the image is `ipfs://<hash>/<file>` built from the `media` entry when it has a hash |
| Marketplace.TalisAttributes | js/cli/src/helpers/marketplace.ts:153-158 | the attributes are the other entries, in order |
| Marketplace.AttributeEntriesMembers | js/cli/src/helpers/marketplace.ts:153-158 | a trait is an attribute iff it comes from a raw entry whose key is not title, description or media |
| SnapshotHelpers.UntracedOwner | js/cli/src/helpers/snapshot.ts:72-80 | off mainnet, or when tracing is off, the holder is the original owner, with its memo from the address table or an empty one, and no query is made |
| SnapshotHelpers.PlainHolderOnMainnet | js/cli/src/helpers/snapshot.ts:86-92 | on mainnet, an owner that is not a marketplace is kept, with an empty memo |
| SnapshotHelpers.MarketplaceHolderTraced | js/cli/src/helpers/snapshot.ts:82-85 | with the corrected five-argument handler call, a token held by a marketplace is attributed to its seller, bidder or auction creator |
| SnapshotHelpers.AsWrittenAgreesOffMarketplace | js/cli/src/helpers/snapshot.ts:62-93 | `findMarketplaceSeller` as written agrees with the corrected one except for a mainnet holder that is a marketplace with tracing on; there it makes the four-argument handler call |
| SnapshotHelpers.DelegationAsWrittenNeverTraces | js/cli/src/helpers/snapshot.ts:84 | the handlers applied to the arguments as written (the client as owner, the height as client, no height): Knowhere throws a TypeError whatever the node holds, and Talis returns the client object as owner with memo `talis` and an undefined height, without a query |
| SnapshotHelpers.ShiftedArgumentsLoseSeller | js/cli/src/helpers/snapshot.ts:84 | for a token in a Talis sell order of `seller`, the corrected call reports `seller` at the height asked, the call as written the client object with no height |
| SnapshotHelpers.ShiftedArgumentsFailKnowhere | js/cli/src/helpers/snapshot.ts:84 | for a token in a Knowhere auction the node answers for, the corrected call reports the bidder or seller, the call as written throws |
| SnapshotHelpers.HolderKeepsToken | js/cli/src/helpers/snapshot.ts:62-93 | a found holder record names the token and the contract asked about |
| SnapshotHelpers.Snapshot | js/cli/src/helpers/snapshot.ts:30-60 | the loop over token ids computes the snapshot specification, with the corrected marketplace call, and stops at the first error |
| SnapshotHelpers.OneHolderPerToken | js/cli/src/helpers/snapshot.ts:30-60 | a successful snapshot has one holder per token id asked, a permutation of them, all for the contract |
| SnapshotHelpers.HolderFileNamesDiffer | js/cli/src/helpers/snapshot.ts:138-142 | snapshots at different heights get different file names |
| SnapshotHelpers.HolderExportReadsBack | js/cli/src/helpers/snapshot.ts:101-134 | the holder CSV parses back to the header and one row per holder, with the height as a decimal |
| SnapshotHelpers.ExportHolderCsv | js/cli/src/helpers/snapshot.ts:95-145 | sorts holders in place by token id as a permutation, renders them as CSV and names the file `holder_<address>_<height or time>.csv` |
| SnapshotHelpers.ExportHolderJson | js/cli/src/helpers/snapshot.ts:147-166 | sorts holders in place by token id as a permutation and names the `.json` file |
| Chain.Pinned | js/cli/src/command/nft.ts:19-29 | a query is pinned to a height iff one is given and it is not 0 |
| NftCommand.GetNftTokenIds | js/cli/src/command/nft.ts:11-70 | the counting query and the paging loop compute the token id specification |
| NftCommand.TokenIdsMeaning | js/cli/src/command/nft.ts:18-61 | `undefined` iff the count is at most 0; otherwise the pages concatenated |
| NftCommand.EnumerationPages | js/cli/src/command/nft.ts:40-68 | every page but the last holds at least 30 ids, the last fewer, and each page is what the contract serves after the last id of the page before |
| NftCommand.PagesServed | js/cli/src/command/nft.ts:40-68 | the same, for paging from any cursor |
| NftCommand.GetNftInfos | js/cli/src/command/nft.ts:72-123 | a fresh collection with the contract's name and symbol and the NFTs fetched, or the error of the contract info or id queries |
| NftCommand.NftInfosPartial | js/cli/src/command/nft.ts:100-109 | the NFTs are those of the leading batches of 30 ids fetched, all of them unless one failed |
| NftCommand.EmptyContractFails | js/cli/src/command/nft.ts:92-95 | a contract reporting no tokens makes `getNftInfos` fail on the undefined id list |
| SnapshotCommand.MemoTable | js/cli/src/command/snapshot.ts:22-26 | the loop inverts the address table |
| SnapshotCommand.InvertAbsent | js/cli/src/command/snapshot.ts:22-26 | an address has no memo iff no role maps to it |
| SnapshotCommand.InvertLastRoleWins | js/cli/src/command/snapshot.ts:22-26 | an address shared by several roles gets the last role's name as its memo |
| SnapshotCommand.SnapshotInBatches | js/cli/src/command/snapshot.ts:29-40 | the batch loop computes the owners specification (with the corrected marketplace call) and counts them |
| SnapshotCommand.OwnersMatchCompletedIds | js/cli/src/command/snapshot.ts:29-47 | the owners gathered are one per id of the batches that succeeded before the first failure, all for the contract |
| SnapshotCommand.NftHolderSnapshot | js/cli/src/command/snapshot.ts:10-48 | returns nothing without instructions, and otherwise the snapshot specification (with the corrected marketplace call) on the configured collection, or on the address `undefined` when none is configured |
| SnapshotCommand.HolderSnapshotMeaning | js/cli/src/command/snapshot.ts:10-48 | with instructions, the snapshot has one owner per id of a leading run of the instruction ids |
| SnapshotCommand.MissingCollectionEmpty | js/cli/src/command/snapshot.ts:17-47 | without a collection every query goes to the address `undefined`; a node that refuses them leaves the snapshot empty, the error being caught |
| SnapshotCommand.NoInstructionsNoSnapshot | js/cli/src/command/snapshot.ts:17-21 | no instructions means no snapshot, whatever the chain answers |
| SnapshotCommand.HolderSnapshot | js/cli/src/command/snapshot.ts:51-83 | enumerates the token ids, then takes the snapshot with no memos (with the corrected marketplace call) |
| SnapshotCommand.HolderSnapshotMemosEmpty | js/cli/src/command/snapshot.ts:62 | when no marketplace is traced, every holder of `holderSnapshot` has an empty memo |
| MintCommand.MintNfts | js/cli/src/command/mint.ts:8-38 | nothing without instructions; otherwise the receipts of the batches of 100 minted before the first failure, and their count |
| MintCommand.MintReceipts | js/cli/src/command/mint.ts:20-30 | the minted instructions are a leading run of the input, all of it iff no batch failed, with one receipt each, in order, numbered within the batch |
| MintCommand.NoInstructionsNoMint | js/cli/src/command/mint.ts:14-16 | no instructions means no batch is submitted |
| Chunking.ChunksPartition | js/cli/src/command/mint.ts:20-30 | batches of k taken with `splice` concatenate back to the input; every batch is full except the last, which is non-empty |
| Chunking.ChunkAt | js/cli/src/command/mint.ts:20-30 | batch i holds the elements from i·k up to (i+1)·k |
| Chunking.MintBatchesExample | js/cli/src/command/mint.ts:6 | 250 instructions give batches of 100, 100 and 50 |
| Chunking.RunFailsIff | js/cli/src/command/mint.ts:20-37 | a batch run ends without failure iff every batch succeeds, and then every batch was submitted |
| Chunking.RunStopsAtFailure | js/cli/src/command/mint.ts:20-37 | a failed run stops at the failing batch, after batches that all succeeded |
| Chunking.RunOutputs | js/cli/src/command/mint.ts:20-30 | the outputs are those of the submitted batches that succeeded, in order |
| Chunking.DonePrefix | js/cli/src/command/mint.ts:20-30 | the elements handled form a leading run of the input, all of it iff no batch failed |
| WhitelistCommand.SetWhitelists | js/cli/src/command/whitelist.ts:12-38 | succeeds on no whitelists; otherwise applies batches of 100 until one fails, and reports that error |
| WhitelistCommand.AppliedBatches | js/cli/src/command/whitelist.ts:24-37 | the batches applied are the leading batches, each accepted; all of them iff there was no error, and the next batch is the one that failed |
| Minter.ParseMasterConfig | js/cli/src/helpers/minter.ts:9-76 | the loop over the rows computes the parse specification and stops at the first invalid row |
| Minter.CheckRecordMeaning | js/cli/src/helpers/minter.ts:30-72 | a row is accepted iff it is valid and its id is not yet taken, and then it becomes its instruction |
| Minter.ParseAccepts | js/cli/src/helpers/minter.ts:9-76 | parsing succeeds iff every row is valid and the ids are distinct |
| Minter.ParseMeaning | js/cli/src/helpers/minter.ts:22-72 | a success has one instruction per row, with distinct token ids, the row's fields, no image URI and an empty metadata file name turned into null |
| Minter.ParseStopsAtFirstBadRow | js/cli/src/helpers/minter.ts:30-64 | a failure reports the error of the first row rejected after a valid prefix |
| Ipfs.Upload | js/cli/src/helpers/ipfs.ts:10-68 | pins the files one by one, stops at the first failure, then merges the URIs into the instructions |
| Ipfs.PinAllMeaning | js/cli/src/helpers/ipfs.ts:20-52 | pinning succeeds iff every file pins; then the table has exactly the files, each with `ipfs://<hash>` |
| Ipfs.MergeMeaning | js/cli/src/helpers/ipfs.ts:54-65 | the merge keeps, in order, exactly the instructions whose image was pinned, each with its URI set and nothing else changed |
| UploadCommand.UploadIpfs | js/cli/src/command/upload.ts:7-28 | the batch loop computes the upload specification |
| UploadCommand.UniqueImageFilenamesMeaning | js/cli/src/command/upload.ts:16 | the files to pin are distinct and are exactly the images of instructions without a URI |
| UploadCommand.UploadIpfsMeaning | js/cli/src/command/upload.ts:7-28 | the upload succeeds iff every image without a URI pins; then it returns the merged instructions |
| UploadCommand.UploadKeepsOnlyPinned | js/cli/src/command/upload.ts:19-24 | each instruction returned is an input instruction whose image was pinned, with that image's URI |
| Candy.PrepareCandyMachine | js/cli/src/helpers/candy.ts:12-49 | computes the code id and instantiate message specification, or the first failed check |
| Candy.PlanMeaning | js/cli/src/helpers/candy.ts:12-67 | the plan exists iff a code id is found, the collection address is valid, some instruction belongs to `candy` and the creator is valid; the message carries the collection, the creator as collector, the supply as both supply and token count, the amount and a zero fee |
| Candy.CandyCountMeaning | js/cli/src/helpers/candy.ts:37-41 | the supply is at most the number of instructions, and 0 iff none is owned by `candy` |
| Candy.CandyCountAppend | js/cli/src/helpers/candy.ts:37 | the supply of two lists is the sum of their supplies |
| Candy.CreatorResolution | js/cli/src/helpers/candy.ts:42-45 | the creator is its alias in the address table when one is set, and the argument as given when the name is unknown |
| Candy.InstantiateCandyMachine | js/cli/src/helpers/candy.ts:51-67 | instantiates the contract from the plan; gives the new address and code id, or the error |
| Candy.RecordCandy | js/cli/src/helpers/candy.ts:69-70 | recording the contract sets the `candy` role and leaves every other role as it was |
| Candy.CreateCandyMachine | js/cli/src/helpers/candy.ts:12-73 | on success records the candy contract's address and code id and the update time; on failure leaves the data untouched |
| Records.PutGetSame | js/cli/src/helpers/candy.ts:69-70 | assigning a key then reading it gives the value assigned |
| Records.PutGetOther | js/cli/src/helpers/candy.ts:69-70 | assigning a key leaves every other key as it was |
| Records.PutKeys | js/cli/src/helpers/candy.ts:69-70 | assigning a new key appends it to the key order, and an existing key keeps its place |
| Base.DecimalRoundTrip | js/cli/src/helpers/candy.ts:60-66 | a natural number written in decimal (`toString`) reads back as itself |
| Interfaces.Collection.constructor | js/cli/src/interfaces/nft.ts:43-49 | a collection record with the given fields and no attributes |
| Interfaces.SoilData.constructor | js/cli/src/interfaces/config.ts:1-7 | a project data record with the given fields |

## Left out

- Floating point: scores, shares and means are exact rationals. JavaScript's rounding is not modelled. `NaN` and `Infinity` become the error `NotFinite`: a mean over zero counted traits, or a division by a zero frequency.
- Object key order: collection attribute values are a `map`, so the order in which `Object.keys` would list them is not modelled. Objects that the source reads by key and updates in place (address and code-id tables, Talis raw metadata) are ordered key/value lists.
- Sorting.SortByKey: stability and the exact order of entries with equal token ids are not claimed. The source's comparator never returns 0, so that order depends on the engine's sort.
- File I/O: reading the master configuration and the project data, `fs.existsSync`, `mkdirSync`, `writeFileSync` and `path.join` are outside the model. The exports return the file name and the CSV text instead of writing them. The JSON export returns only the file name.
- Minter.ParseMasterConfig: file existence is the parameter `Environment`, and `AccAddress.validate` is a parameter too. The CSV row reader (`csv-parse`) is not part of this model: rows arrive already split into fields.
- Concurrency: each `Promise.all` over a batch runs its elements in order. Console output, progress bars and `process.exit` are replaced by returned errors.
- IPFS: the Pinata HTTP calls, their delays and the random spread are a `Pinner` function from a file name to a hash or an error. `extractQmHash` is a parameter of the Talis mapping.
- Chain access: `query`, `queryAtHeight`, `execute`, `init` and the wasm upload are parameters that return a `Result`. `chainIDMap` and the `terra.ts` wrappers are not part of this model: the network is passed by name.
- NftCommand.GetNftTokenIds: requires that paging ends (`PagingEnds`). The source loops for ever against a contract that keeps serving full pages.
- NftCommand.GetNftTokenIds: token pages arrive as token ids. The source turns `{ token_id }` records into ids only when the page is non-empty and its first record's `token_id` is truthy. A record page whose first `token_id` is empty would keep the records, and the cursor would become a record; the model reads every record page as its ids.
- SnapshotHelpers.Snapshot: uses the corrected five-argument marketplace call of snapshot.ts line 84. `FindMarketplaceSellerAsWritten` models the call as written, and `AsWrittenAgreesOffMarketplace` states exactly where the two differ.
- SnapshotCommand.SnapshotInBatches: built on `Snapshot`, so it uses the corrected marketplace call too. On a mainnet marketplace holder with tracing on, the source as written differs as `AsWrittenAgreesOffMarketplace` states.
- SnapshotCommand.NftHolderSnapshot: uses the corrected marketplace call, as `SnapshotInBatches` does. Without a collection, the `nftContract` of each record is the text `undefined`, not the undefined value.
- SnapshotCommand.HolderSnapshot: uses the corrected marketplace call, as `SnapshotInBatches` does.
- Rarity.DuplicateTraitTypeFails: one concrete collection. `UnaggregatedValueFails` is the statement for every collection.
- Candy.PrepareCandyMachine: an unknown network has no entry in `networks` or in `candy_codeids`. What the client library then does is outside the model; the model returns the error `NoCodeId`.
- Candy.CreateCandyMachine: the `amount` is a natural number. The prototype keys of a JavaScript object (`toString`, `constructor`) are not modelled as aliases in the address table.
- Prototype keys: plain objects used as dictionaries are modelled as maps or ordered key/value lists with no inherited entries. Keys equal to `Object.prototype` property names (`__proto__`, `constructor`, `toString`, ...) are not modelled as aliases. The members below hold only for trait values, trait types and file names other than those.
- NftHelpers.CountValues: a trait value such as `__proto__` or `constructor` reads an inherited property in `countDict`. It would be tallied wrongly or not at all; the model tallies it like any other value.
- NftHelpers.CountsSumToSize: the tallies add up to the number of NFTs only when no trait value is a prototype property name (see CountValues).
- NftHelpers.CountsSumToCollectionSize: as for CountsSumToSize.
- Rarity.BuildAttributeDict: a trait type or value named after a prototype property reads an inherited entry of `attributeDict`. The model's map has none.
- Ipfs.MergeMeaning: an unpinned image named after a prototype property finds an inherited function in `filenameToUri` and is kept. The model drops it.
- Ipfs.Upload: built on the same merge, so the same exception applies.
- UploadCommand.UploadIpfsMeaning: relates the result to one merge over all pinned files only up to a multiset. The command merges batch by batch, so the instructions come out grouped by batch. `UploadIpfs` itself is proved equal to the batch-wise specification.
- SnapshotCommand.OwnersMatchCompletedIds: states the gathered token ids as a multiset of the ids handled. `SnapshotInBatches` is proved equal to the ordered specification.
- Not core and not modelled: `getSpecificMetadata` and its `axios` fetch, `createCollection`, `sampleNftTokenId`, `findNftStandard`, `exportNftJson`, `loadNFtJson`, and in `minter.ts` the CSV export and the reading and saving of project data.

## Findings

| source | as written | input that shows it | evidently intended | confidence | as-written member | corrected member |
|---|---|---|---|---|---|---|
| js/cli/src/helpers/snapshot.ts:84 | the marketplace handler is called as `(nftAddress, tokenId, terra, height)`, so the client lands in `originalOwner`, the height in `terra` and `height` is undefined | a mainnet snapshot with tracing on, for a token held by the Talis marketplace address whose sell order names a seller: the Talis handler keeps the client object as the owner, and the Knowhere handler always throws | pass `(nftAddress, tokenId, originalOwner, terra, height)` so the seller, bidder or auction creator is reported | not executed | SnapshotHelpers.ShiftedArgumentsLoseSeller | SnapshotHelpers.MarketplaceHolderTraced |

/** The rank export of helpers/rarity.ts (`exportCsv`): the rows are sorted
    in place by token id, written as comma-separated text without quoting,
    under a file name chosen from the optional name or the NFT contract.
    Which directory the file goes to, and writing it, are left out. */
module RarityExport {
  import opened Base
  import opened Interfaces
  import Sorting
  import Csv

  // =======================================================================
  // The file name.

  /** `<filename>.csv` when a non-empty name is given, `rank_<address>.csv`
      otherwise; the directory it is joined to is left out. */
  function ExportFileName(nftAddress: string, filename: Option<string>): string {
    if filename.Some? && Truthy(filename.value) then filename.value + ".csv"
    else "rank_" + nftAddress + ".csv"
  }

  /** A given name is used as is; without one, the name is derived from the
      contract address, so exports of different contracts never collide. */
  lemma ExportFileNameChoice(nftAddress: string, filename: Option<string>)
    ensures var f := ExportFileName(nftAddress, filename);
      && |f| >= 4 && f[|f| - 4..] == ".csv"
      && (filename.Some? && filename.value != "" ==> f[..|f| - 4] == filename.value)
      && (filename.None? || filename.value == "" ==> f[..|f| - 4] == "rank_" + nftAddress)
  {
    var f := ExportFileName(nftAddress, filename);
    if filename.Some? && filename.value != "" {
      assert f == filename.value + ".csv";
    } else {
      assert f == ("rank_" + nftAddress) + ".csv";
    }
  }

  lemma DefaultNamesDistinct(a: string, b: string)
    requires a != b
    ensures ExportFileName(a, None) != ExportFileName(b, None)
  {
    ExportFileNameChoice(a, None);
    ExportFileNameChoice(b, None);
    assert ("rank_" + a)[5..] == a && ("rank_" + b)[5..] == b;
  }

  // =======================================================================
  // The row order: `ranks.sort` by token id.

  function TokenIdOf(r: NftRank): string { r.tokenId }

  // =======================================================================
  // The text: a header line and one line per rank, fields unquoted.

  const HeaderFields: seq<string> :=
    ["token_id", "name", "trait_rarity", "mean_trait_rarity", "statistical_rarity", "rarity_score"]

  /** The fields of one rank; an absent name is an empty field and the
      ranks are written as decimal numbers. */
  function Fields(r: NftRank): seq<string> {
    [r.tokenId, OrEmpty(r.name), DecimalString(r.traitRarity), DecimalString(r.meanTraitRarity),
     DecimalString(r.statisticalRarity), DecimalString(r.rarityScore)]
  }

  function Table(ranks: seq<NftRank>): (records: seq<seq<string>>)
    ensures Csv.Records(records)
  {
    [HeaderFields] + seq(|ranks|, i requires 0 <= i < |ranks| => Fields(ranks[i]))
  }

  function CsvText(ranks: seq<NftRank>): string {
    Csv.Text(Table(ranks))
  }

  /** Reading the export back gives the header and then each rank's fields,
      line by line, provided no token id or name holds a comma or a line
      break. */
  lemma ExportReadsBack(ranks: seq<NftRank>)
    requires forall i :: 0 <= i < |ranks| ==> Csv.Plain(ranks[i].tokenId) && Csv.Plain(OrEmpty(ranks[i].name))
    ensures Csv.Parse(CsvText(ranks)) == Table(ranks)
    ensures |Table(ranks)| == |ranks| + 1 && Table(ranks)[0] == HeaderFields
    ensures forall i :: 0 <= i < |ranks| ==> Table(ranks)[i + 1] == Fields(ranks[i])
  {
    var table := Table(ranks);
    TableShape(ranks);
    TablePlain(ranks);
    Csv.ParseText(table);
    assert CsvText(ranks) == Csv.Text(table);
  }

  /** The table is the header line followed by one line per rank. */
  lemma TableShape(ranks: seq<NftRank>)
    ensures |Table(ranks)| == |ranks| + 1 && Table(ranks)[0] == HeaderFields
    ensures forall i :: 0 <= i < |ranks| ==> Table(ranks)[i + 1] == Fields(ranks[i])
  {
  }

  lemma TablePlain(ranks: seq<NftRank>)
    requires forall i :: 0 <= i < |ranks| ==> Csv.Plain(ranks[i].tokenId) && Csv.Plain(OrEmpty(ranks[i].name))
    ensures forall i, j :: 0 <= i < |Table(ranks)| && 0 <= j < |Table(ranks)[i]| ==> Csv.Plain(Table(ranks)[i][j])
  {
    var table := Table(ranks);
    TableShape(ranks);
    HeaderPlain();
    forall i, j | 0 <= i < |table| && 0 <= j < |table[i]| ensures Csv.Plain(table[i][j]) {
      if i > 0 {
        FieldsPlain(ranks[i - 1]);
      }
    }
  }

  /** A rank's fields give back its token id, its name (empty when absent)
      and its four ranks. */
  lemma FieldsReadBack(r: NftRank)
    ensures var f := Fields(r);
      && f[0] == r.tokenId && f[1] == OrEmpty(r.name)
      && ParseDecimal(f[2]) == r.traitRarity && ParseDecimal(f[3]) == r.meanTraitRarity
      && ParseDecimal(f[4]) == r.statisticalRarity && ParseDecimal(f[5]) == r.rarityScore
  {
    DecimalRoundTrip(r.traitRarity);
    DecimalRoundTrip(r.meanTraitRarity);
    DecimalRoundTrip(r.statisticalRarity);
    DecimalRoundTrip(r.rarityScore);
  }

  lemma HeaderPlain()
    ensures forall j :: 0 <= j < |HeaderFields| ==> Csv.Plain(HeaderFields[j])
  {
    NamesPlain();
    RanksPlain();
  }

  lemma NamesPlain()
    ensures Csv.Plain("token_id") && Csv.Plain("name") && Csv.Plain("trait_rarity")
  {
  }

  lemma RanksPlain()
    ensures Csv.Plain("mean_trait_rarity") && Csv.Plain("statistical_rarity") && Csv.Plain("rarity_score")
  {
  }

  /** The numeric fields are digits only, so a rank's fields are plain when
      its token id and name are. */
  lemma FieldsPlain(r: NftRank)
    requires Csv.Plain(r.tokenId) && Csv.Plain(OrEmpty(r.name))
    ensures forall j :: 0 <= j < |Fields(r)| ==> Csv.Plain(Fields(r)[j])
  {
    forall n: nat ensures Csv.Plain(DecimalString(n)) {
      var d := DecimalString(n);
      assert forall k :: 0 <= k < |d| ==> IsDigit(d[k]);
    }
  }

  /** `exportCsv`: sorts the caller's ranks in place and returns the file
      name and the text written to it. */
  method ExportCsv(ranks: array<NftRank>, nftAddress: string, filename: Option<string>)
    returns (outputFilename: string, text: string)
    modifies ranks
    ensures Sorting.Sorted(ranks[..], TokenIdOf) && multiset(ranks[..]) == multiset(old(ranks[..]))
    ensures text == CsvText(ranks[..])
    ensures outputFilename == ExportFileName(nftAddress, filename)
  {
    Sorting.SortByKey(ranks, TokenIdOf);
    text := CsvText(ranks[..]);
    outputFilename := ExportFileName(nftAddress, filename);
  }
}

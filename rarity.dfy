/** helpers/rarity.ts: the four rarity models and `calculateRarity`, which
    writes every NFT's `rarities` in place, and the file name and row order of
    the rank export. */
module Rarity {
  import opened Base
  import opened Interfaces
  import opened Ranking
  import NftHelpers

  /** `attributeDict`: trait type -> trait value -> statistics. */
  type AttributeDict = map<string, map<string, ValueStat>>

  /** Why a rarity computation has no result. In the source the first three
      are exceptions; `NotFinite` stands for a score that is not a finite
      number (a mean over no traits, or an inverse frequency of a zero count),
      which the model does not rank. */
  datatype RarityError =
    | NoCollectionAttributes
    | NoTraitList(tokenId: string)
    | UnknownTraitValue(traitType: string, value: string)
    | NotFinite(tokenId: string)

  // =======================================================================
  // The attribute lookup.

  /** The lookup after the first |attrs| collection attributes have been
      merged in: entries of a repeated trait type are merged, later values
      replacing earlier ones. */
  function AttributeDictOf(attrs: seq<CollectionAttribute>): AttributeDict {
    if attrs == [] then map[]
    else
      var d := AttributeDictOf(attrs[..|attrs| - 1]);
      var a := attrs[|attrs| - 1];
      d[a.traitType := (if a.traitType in d then d[a.traitType] else map[]) + a.values]
  }

  /** The `forEach` that fills `attributeDict`. */
  method BuildAttributeDict(attrs: seq<CollectionAttribute>) returns (dict: AttributeDict)
    ensures dict == AttributeDictOf(attrs)
  {
    dict := map[];
    for i := 0 to |attrs|
      invariant dict == AttributeDictOf(attrs[..i])
    {
      assert attrs[..i + 1][..i] == attrs[..i];
      var a := attrs[i];
      if a.traitType !in dict {
        dict := dict[a.traitType := map[]];
      }
      dict := dict[a.traitType := dict[a.traitType] + a.values];
    }
    assert attrs[..|attrs|] == attrs;
  }

  /** Attribute `i` is the last one of type `t` that lists value `v`. */
  predicate LastHolder(attrs: seq<CollectionAttribute>, t: string, v: string, i: int) {
    && 0 <= i < |attrs| && attrs[i].traitType == t && v in attrs[i].values
    && forall j :: i < j < |attrs| && attrs[j].traitType == t ==> v !in attrs[j].values
  }

  /** A (type, value) pair is found exactly when some attribute of that type
      lists the value. */
  lemma {:induction false} LookupFound(attrs: seq<CollectionAttribute>, t: string, v: string)
    ensures var d := AttributeDictOf(attrs);
      (t in d && v in d[t]) <==> exists i :: 0 <= i < |attrs| && attrs[i].traitType == t && v in attrs[i].values
  {
    if attrs != [] {
      var init, a := attrs[..|attrs| - 1], attrs[|attrs| - 1];
      LookupFound(init, t, v);
      var d, d0 := AttributeDictOf(attrs), AttributeDictOf(init);
      if exists i :: 0 <= i < |init| && init[i].traitType == t && v in init[i].values {
        var i :| 0 <= i < |init| && init[i].traitType == t && v in init[i].values;
        assert attrs[i] == init[i];
        assert t in d0 && v in d0[t];
        assert t in d && v in d[t];
      }
      if exists i :: 0 <= i < |attrs| && attrs[i].traitType == t && v in attrs[i].values {
        var i :| 0 <= i < |attrs| && attrs[i].traitType == t && v in attrs[i].values;
        if i < |init| { assert init[i] == attrs[i]; }
      }
    }
  }

  /** A found pair holds the statistics of the last attribute of that type
      listing the value: a later duplicate overwrites an earlier one. */
  lemma {:induction false} LookupLastWins(attrs: seq<CollectionAttribute>, t: string, v: string, i: int)
    requires LastHolder(attrs, t, v, i)
    ensures var d := AttributeDictOf(attrs); t in d && v in d[t] && d[t][v] == attrs[i].values[v]
  {
    var init, a := attrs[..|attrs| - 1], attrs[|attrs| - 1];
    var d, d0 := AttributeDictOf(attrs), AttributeDictOf(init);
    if i < |init| {
      assert init[i] == attrs[i];
      assert LastHolder(init, t, v, i);
      LookupLastWins(init, t, v, i);
      if a.traitType == t {
        assert v !in a.values;
        assert d[t] == d0[t] + a.values;
      } else {
        assert d[t] == d0[t];
      }
    } else {
      assert d[t] == (if t in d0 then d0[t] else map[]) + a.values;
    }
  }

  // =======================================================================
  // Resolving an NFT's traits to their statistics.

  /** The statistics of an NFT's traits in list order, `'[none]'` entries
      skipped; the first trait whose (type, value) the lookup lacks is an
      error (reading `.share` of undefined). */
  function Resolve(dict: AttributeDict, attrs: seq<Trait>): Result<seq<ValueStat>, RarityError> {
    if attrs == [] then Ok([])
    else
      match Resolve(dict, attrs[..|attrs| - 1])
      case Err(e) => Err(e)
      case Ok(stats) =>
        var a := attrs[|attrs| - 1];
        if a.value == NoneValue then Ok(stats)
        else if a.traitType in dict && a.value in dict[a.traitType] then Ok(stats + [dict[a.traitType][a.value]])
        else Err(UnknownTraitValue(a.traitType, a.value))
  }

  /** The traits that take part in the scores: all but the `'[none]'` ones. */
  function Qualifying(attrs: seq<Trait>): seq<Trait> {
    if attrs == [] then []
    else Qualifying(attrs[..|attrs| - 1]) + (if attrs[|attrs| - 1].value == NoneValue then [] else [attrs[|attrs| - 1]])
  }

  predicate Known(dict: AttributeDict, a: Trait) {
    a.traitType in dict && a.value in dict[a.traitType]
  }

  predicate AllKnown(dict: AttributeDict, traits: seq<Trait>) {
    forall k :: 0 <= k < |traits| ==> Known(dict, traits[k])
  }

  /** Resolution succeeds exactly when every qualifying trait is known, and
      then yields the statistics of the qualifying traits, in order. */
  lemma {:induction false} ResolveMeaning(dict: AttributeDict, attrs: seq<Trait>)
    ensures Resolve(dict, attrs).Ok? <==> AllKnown(dict, Qualifying(attrs))
    ensures var q := Qualifying(attrs); var r := Resolve(dict, attrs);
      r.Ok? ==> |r.value| == |q| && forall k :: 0 <= k < |q| ==> r.value[k] == dict[q[k].traitType][q[k].value]
    ensures forall k :: 0 <= k < |Qualifying(attrs)| ==> Qualifying(attrs)[k].value != NoneValue
  {
    if attrs != [] {
      var init := attrs[..|attrs| - 1];
      ResolveMeaning(dict, init);
      var q0, q, a := Qualifying(init), Qualifying(attrs), attrs[|attrs| - 1];
      assert q == q0 + (if a.value == NoneValue then [] else [a]);
      if !AllKnown(dict, q0) {
        var k :| 0 <= k < |q0| && !Known(dict, q0[k]);
        assert q[k] == q0[k] && k < |q| && !Known(dict, q[k]);
        assert Resolve(dict, attrs).Err?;
      } else if a.value != NoneValue && !Known(dict, a) {
        assert q[|q0|] == a;
      }
    }
  }

  /** An error in a prefix is the error of the whole list. */
  lemma {:induction false} ResolvePrefixError(dict: AttributeDict, attrs: seq<Trait>, k: nat)
    requires k <= |attrs| && Resolve(dict, attrs[..k]).Err?
    ensures Resolve(dict, attrs) == Resolve(dict, attrs[..k])
    decreases |attrs| - k
  {
    if k < |attrs| {
      assert attrs[..k + 1][..k] == attrs[..k];
      ResolvePrefixError(dict, attrs, k + 1);
    } else {
      assert attrs[..k] == attrs;
    }
  }

  // =======================================================================
  // The four scores, as functions of the resolved statistics.

  /** TraitRarity: the least share, starting from 100. */
  function MinShare(stats: seq<ValueStat>): real {
    if stats == [] then 100.0
    else
      var m := MinShare(stats[..|stats| - 1]);
      if stats[|stats| - 1].share < m then stats[|stats| - 1].share else m
  }

  /** The sum of the shares (MeanTraitRarity divides it by their number). */
  function ShareSum(stats: seq<ValueStat>): real {
    if stats == [] then 0.0 else ShareSum(stats[..|stats| - 1]) + stats[|stats| - 1].share
  }

  /** StatisticalRarity: the product of the shares, starting from 1. */
  function ShareProduct(stats: seq<ValueStat>): real {
    if stats == [] then 1.0 else ShareProduct(stats[..|stats| - 1]) * stats[|stats| - 1].share
  }

  predicate AllCounted(stats: seq<ValueStat>) {
    forall k :: 0 <= k < |stats| ==> stats[k].count > 0
  }

  /** RarityScore: the sum of `1 / (count / totalSupply)`. */
  function InverseFrequencySum(stats: seq<ValueStat>, totalSupply: nat): real
    requires totalSupply > 0 && AllCounted(stats)
  {
    if stats == [] then 0.0
    else
      InverseFrequencySum(stats[..|stats| - 1], totalSupply) +
      1.0 / ((stats[|stats| - 1].count as real) / (totalSupply as real))
  }

  /** The score of one NFT under one model, in a collection of `totalSupply`
      NFTs. */
  function Score(model: RarityModel, dict: AttributeDict, nft: Nft, totalSupply: nat): Result<real, RarityError>
    requires totalSupply > 0
  {
    if nft.attributes.None? then Err(NoTraitList(nft.tokenId))
    else
      match Resolve(dict, nft.attributes.value)
      case Err(e) => Err(e)
      case Ok(stats) =>
        match model
        case TraitRarity => Ok(MinShare(stats))
        case MeanTraitRarity =>
          if |stats| == 0 then Err(NotFinite(nft.tokenId)) else Ok(ShareSum(stats) / (|stats| as real))
        case StatisticalRarity => Ok(ShareProduct(stats))
        case RarityScore =>
          if AllCounted(stats) then Ok(InverseFrequencySum(stats, totalSupply)) else Err(NotFinite(nft.tokenId))
  }

  /** The accumulator of the loop below after the statistics `stats`. */
  ghost predicate Accumulated(model: RarityModel, stats: seq<ValueStat>, acc: real, infinite: bool, totalSupply: nat)
    requires totalSupply > 0
  {
    && (model == TraitRarity ==> acc == MinShare(stats))
    && (model == MeanTraitRarity ==> acc == ShareSum(stats))
    && (model == StatisticalRarity ==> acc == ShareProduct(stats))
    && (model == RarityScore ==> (infinite <==> !AllCounted(stats)))
    && (model == RarityScore && !infinite ==> acc == InverseFrequencySum(stats, totalSupply))
  }

  /** One step of the accumulator: the running minimum, sum, product or sum
      of inverse frequencies, a zero count making the last infinite. */
  method Accumulate(model: RarityModel, acc: real, infinite: bool, stat: ValueStat, totalSupply: nat,
                    ghost stats: seq<ValueStat>)
    returns (acc': real, infinite': bool)
    requires totalSupply > 0 && Accumulated(model, stats, acc, infinite, totalSupply)
    ensures Accumulated(model, stats + [stat], acc', infinite', totalSupply)
  {
    var next := stats + [stat];
    assert next[..|next| - 1] == stats;
    acc', infinite' := acc, infinite;
    match model {
      case TraitRarity =>
        if stat.share < acc {
          acc' := stat.share;
        }
      case MeanTraitRarity =>
        acc' := acc + stat.share;
      case StatisticalRarity =>
        acc' := acc * stat.share;
      case RarityScore =>
        assert AllCounted(next) <==> AllCounted(stats) && stat.count > 0 by {
          assert forall k :: 0 <= k < |stats| ==> next[k] == stats[k];
        }
        if stat.count == 0 {
          infinite' := true;
        } else if !infinite {
          acc' := acc + 1.0 / ((stat.count as real) / (totalSupply as real));
        }
    }
  }

  /** The accumulator loop over one NFT's traits. */
  method ScoreNft(model: RarityModel, dict: AttributeDict, nft: Nft, totalSupply: nat)
    returns (r: Result<real, RarityError>)
    requires totalSupply > 0
    ensures r == Score(model, dict, nft, totalSupply)
  {
    if nft.attributes.None? {
      return Err(NoTraitList(nft.tokenId));
    }
    var attrs := nft.attributes.value;
    var acc: real := match model
      case TraitRarity => 100.0
      case StatisticalRarity => 1.0
      case _ => 0.0;
    var count := 0;
    var infinite := false;
    ghost var stats: seq<ValueStat> := [];
    for k := 0 to |attrs|
      invariant Resolve(dict, attrs[..k]) == Ok(stats)
      invariant count == |stats|
      invariant Accumulated(model, stats, acc, infinite, totalSupply)
    {
      assert attrs[..k + 1][..k] == attrs[..k];
      var a := attrs[k];
      if a.value == NoneValue {
        continue;
      }
      if !(a.traitType in dict && a.value in dict[a.traitType]) {
        ResolvePrefixError(dict, attrs, k + 1);
        return Err(UnknownTraitValue(a.traitType, a.value));
      }
      var stat := dict[a.traitType][a.value];
      acc, infinite := Accumulate(model, acc, infinite, stat, totalSupply, stats);
      stats := stats + [stat];
      count := count + 1;
    }
    assert attrs[..|attrs|] == attrs;
    if model == MeanTraitRarity {
      if count == 0 {
        return Err(NotFinite(nft.tokenId));
      }
      acc := acc / (count as real);
    }
    if model == RarityScore && infinite {
      return Err(NotFinite(nft.tokenId));
    }
    r := Ok(acc);
  }

  // =======================================================================
  // One model over the whole collection.

  /** The scores of the first `k` NFTs, in order; the first failing NFT's
      error otherwise. */
  function ScoresUpTo(model: RarityModel, dict: AttributeDict, nfts: seq<Nft>, k: nat): Result<seq<real>, RarityError>
    requires k <= |nfts|
  {
    if k == 0 then Ok([])
    else
      match ScoresUpTo(model, dict, nfts, k - 1)
      case Err(e) => Err(e)
      case Ok(scores) =>
        match Score(model, dict, nfts[k - 1], |nfts|)
        case Err(e) => Err(e)
        case Ok(x) => Ok(scores + [x])
  }

  lemma {:induction false} ScoresUpToLength(model: RarityModel, dict: AttributeDict, nfts: seq<Nft>, k: nat)
    requires k <= |nfts| && ScoresUpTo(model, dict, nfts, k).Ok?
    ensures |ScoresUpTo(model, dict, nfts, k).value| == k
  {
    if k > 0 { ScoresUpToLength(model, dict, nfts, k - 1); }
  }

  /** Once an NFT fails, the whole model fails with its error. */
  lemma {:induction false} ScoresErrorStays(model: RarityModel, dict: AttributeDict, nfts: seq<Nft>, k: nat)
    requires k <= |nfts| && ScoresUpTo(model, dict, nfts, k).Err?
    ensures ScoresUpTo(model, dict, nfts, |nfts|) == ScoresUpTo(model, dict, nfts, k)
    decreases |nfts| - k
  {
    if k < |nfts| { ScoresErrorStays(model, dict, nfts, k + 1); }
  }

  /** `scores[tokenId] = score` for the first `k` NFTs: a later NFT with the
      same token id overwrites an earlier one. */
  function ByToken(nfts: seq<Nft>, scores: seq<real>, k: nat): map<string, real>
    requires k <= |nfts| && k <= |scores|
  {
    if k == 0 then map[] else ByToken(nfts, scores, k - 1)[nfts[k - 1].tokenId := scores[k - 1]]
  }

  /** Token `t` is scored by NFT `i`, the last one carrying that id. */
  predicate LastWithId(nfts: seq<Nft>, k: nat, t: string, i: int) {
    0 <= i < k <= |nfts| && nfts[i].tokenId == t && forall j :: i < j < k ==> nfts[j].tokenId != t
  }

  /** The per-token table has one entry per token id, holding the score of
      the last NFT with that id. */
  lemma {:induction false} ByTokenMeaning(nfts: seq<Nft>, scores: seq<real>, k: nat)
    requires k <= |nfts| && k <= |scores|
    ensures forall t :: t in ByToken(nfts, scores, k) <==> exists i :: 0 <= i < k && nfts[i].tokenId == t
    ensures forall t, i :: LastWithId(nfts, k, t, i) ==> t in ByToken(nfts, scores, k) && ByToken(nfts, scores, k)[t] == scores[i]
    ensures forall t :: t in ByToken(nfts, scores, k) ==> ByToken(nfts, scores, k)[t] in scores[..k]
  {
    if k > 0 {
      ByTokenMeaning(nfts, scores, k - 1);
      forall t, i | LastWithId(nfts, k, t, i) ensures t in ByToken(nfts, scores, k) && ByToken(nfts, scores, k)[t] == scores[i] {
        if i < k - 1 { assert LastWithId(nfts, k - 1, t, i); }
      }
      assert scores[..k] == scores[..k - 1] + [scores[k - 1]];
    }
  }

  /** The rarity table of one model: per token id, the score and its dense
      rank among the distinct scores of the collection, ascending except for
      RarityScore, where the highest score ranks first. */
  function TableOf(model: RarityModel, nfts: seq<Nft>, scores: seq<real>): map<string, NftRarity>
    requires |scores| == |nfts|
  {
    var byToken := ByToken(nfts, scores, |nfts|);
    map t | t in byToken :: NftRarity(model, byToken[t], DenseRank(model == RarityScore, Elems(scores), byToken[t]))
  }

  function RarityTable(model: RarityModel, dict: AttributeDict, nfts: seq<Nft>): Result<map<string, NftRarity>, RarityError> {
    match ScoresUpTo(model, dict, nfts, |nfts|)
    case Err(e) => Err(e)
    case Ok(scores) =>
      ScoresUpToLength(model, dict, nfts, |nfts|);
      Ok(TableOf(model, nfts, scores))
  }

  /** The first loop of each model: score every NFT in order, record the
      score under its token id and add it to the set of distinct scores. */
  method ScoreCollection(model: RarityModel, dict: AttributeDict, nfts: seq<Nft>)
    returns (r: Result<seq<real>, RarityError>, byToken: map<string, real>, shares: seq<real>)
    ensures r == ScoresUpTo(model, dict, nfts, |nfts|)
    ensures r.Ok? ==> |r.value| == |nfts| && byToken == ByToken(nfts, r.value, |nfts|)
    ensures r.Ok? ==> Elems(shares) == Elems(r.value)
  {
    byToken := map[];
    shares := [];
    var scores: seq<real> := [];
    for i := 0 to |nfts|
      invariant ScoresUpTo(model, dict, nfts, i) == Ok(scores) && |scores| == i
      invariant byToken == ByToken(nfts, scores, i)
      invariant Elems(shares) == Elems(scores)
    {
      var s := ScoreNft(model, dict, nfts[i], |nfts|);
      if s.Err? {
        ScoresErrorStays(model, dict, nfts, i + 1);
        return Err(s.error), byToken, shares;
      }
      ghost var prevScores, prevShares := scores, shares;
      ScoreStep(model, dict, nfts, i, scores, s.value);
      scores := scores + [s.value];
      byToken := byToken[nfts[i].tokenId := s.value];
      if s.value !in shares {
        shares := shares + [s.value];
      }
      DistinctStep(prevShares, prevScores, shares, scores, s.value);
    }
    r := Ok(scores);
  }

  /** Scoring NFT `i` extends the scores and the per-token table. */
  lemma ScoreStep(model: RarityModel, dict: AttributeDict, nfts: seq<Nft>, i: nat, scores: seq<real>, x: real)
    requires i < |nfts| && |scores| == i && ScoresUpTo(model, dict, nfts, i) == Ok(scores)
    requires Score(model, dict, nfts[i], |nfts|) == Ok(x)
    ensures ScoresUpTo(model, dict, nfts, i + 1) == Ok(scores + [x])
    ensures ByToken(nfts, scores + [x], i + 1) == ByToken(nfts, scores, i)[nfts[i].tokenId := x]
  {
    ByTokenPrefix(nfts, scores + [x], scores, i);
  }

  /** Adding a score to the list of scores, and to the distinct scores
      unless already there, keeps them holding the same values. */
  lemma DistinctStep(prevShares: seq<real>, prevScores: seq<real>, shares: seq<real>, scores: seq<real>, x: real)
    requires Elems(prevShares) == Elems(prevScores)
    requires scores == prevScores + [x]
    requires shares == if x in prevShares then prevShares else prevShares + [x]
    ensures Elems(shares) == Elems(scores)
  {
    forall y ensures y in Elems(shares) <==> y in Elems(scores) {
      assert y in Elems(prevShares) <==> y in Elems(prevScores);
      assert y in scores <==> y in prevScores || y == x;
      assert y in shares <==> y in prevShares || y == x;
    }
  }

  /** The last loop of each model: one table entry per token id, with the
      recorded score and the rank of that score. */
  method Tabulate(model: RarityModel, nfts: seq<Nft>, byToken: map<string, real>, ranks: map<real, nat>)
    returns (table: map<string, NftRarity>)
    requires forall t :: t in byToken <==> exists k :: 0 <= k < |nfts| && nfts[k].tokenId == t
    requires forall t :: t in byToken ==> byToken[t] in ranks
    ensures table == map t | t in byToken :: NftRarity(model, byToken[t], ranks[byToken[t]])
  {
    table := map[];
    for i := 0 to |nfts|
      invariant forall t :: t in table <==> exists k :: 0 <= k < i && nfts[k].tokenId == t
      invariant forall t :: t in table ==> t in byToken && table[t] == NftRarity(model, byToken[t], ranks[byToken[t]])
    {
      var score := byToken[nfts[i].tokenId];
      table := table[nfts[i].tokenId := NftRarity(model, score, ranks[score])];
    }
  }

  /** `calculateTraitRarity`, `calculateMeanTraitRarity`,
      `calculatStatisticalRarity` and `calculatRarityScore`: score every NFT,
      collect the distinct scores, rank them (RarityScore in reverse) and
      tabulate per token id. */
  method RankModel(model: RarityModel, dict: AttributeDict, nfts: seq<Nft>)
    returns (r: Result<map<string, NftRarity>, RarityError>)
    ensures r == RarityTable(model, dict, nfts)
  {
    var scored, byToken, shares := ScoreCollection(model, dict, nfts);
    if scored.Err? {
      return Err(scored.error);
    }
    var ranks := RankTable(model == RarityScore, shares);
    ByTokenMeaning(nfts, scored.value, |nfts|);
    assert scored.value[..|nfts|] == scored.value;
    var table := Tabulate(model, nfts, byToken, ranks);
    TabulatedIsTable(model, nfts, scored.value, ranks);
    assert RarityTable(model, dict, nfts) == Ok(TableOf(model, nfts, scored.value));
    r := Ok(table);
  }

  lemma TabulatedIsTable(model: RarityModel, nfts: seq<Nft>, scores: seq<real>, ranks: map<real, nat>)
    requires |scores| == |nfts|
    requires forall x :: x in ranks ==> ranks[x] == DenseRank(model == RarityScore, Elems(scores), x)
    requires forall t :: t in ByToken(nfts, scores, |nfts|) ==> ByToken(nfts, scores, |nfts|)[t] in ranks
    ensures var byToken := ByToken(nfts, scores, |nfts|);
      (map t | t in byToken :: NftRarity(model, byToken[t], ranks[byToken[t]])) == TableOf(model, nfts, scores)
  {
  }

  /** `ByToken` only reads the first `k` scores. */
  lemma {:induction false} ByTokenPrefix(nfts: seq<Nft>, s1: seq<real>, s2: seq<real>, k: nat)
    requires k <= |nfts| && k <= |s1| && k <= |s2| && s1[..k] == s2[..k]
    ensures ByToken(nfts, s1, k) == ByToken(nfts, s2, k)
  {
    if k > 0 {
      assert s1[..k - 1] == s2[..k - 1] && s1[k - 1] == s2[k - 1] by {
        assert s1[..k][k - 1] == s2[..k][k - 1];
        assert s1[..k][..k - 1] == s1[..k - 1];
        assert s2[..k][..k - 1] == s2[..k - 1];
      }
      ByTokenPrefix(nfts, s1, s2, k - 1);
    }
  }

  // =======================================================================
  // What a model's table states.

  /** The table has one entry per token id of the collection; with distinct
      token ids, NFT `i`'s entry holds its own score. Every entry is of the
      model, and its rank is the dense rank of its score: within
      1..#distinct scores, the same for equal scores, and ordered by score
      (the highest score first for RarityScore, the lowest first otherwise).
      Every rank in 1..#distinct scores is taken. */
  lemma TableMeaning(model: RarityModel, dict: AttributeDict, nfts: seq<Nft>)
    requires RarityTable(model, dict, nfts).Ok?
    ensures var table := RarityTable(model, dict, nfts).value;
      var scores := ScoresUpTo(model, dict, nfts, |nfts|).value;
      var desc := model == RarityScore;
      && |scores| == |nfts|
      && (forall t :: t in table <==> exists i :: 0 <= i < |nfts| && nfts[i].tokenId == t)
      && (forall t, i :: LastWithId(nfts, |nfts|, t, i) ==> table[t].score == scores[i])
      && (forall t :: t in table ==>
            && table[t].rankModel == model
            && table[t].score in scores
            && table[t].rank == DenseRank(desc, Elems(scores), table[t].score)
            && 1 <= table[t].rank <= |Elems(scores)|)
      && (forall t, u :: t in table && u in table && table[t].score < table[u].score ==>
            if desc then table[t].rank > table[u].rank else table[t].rank < table[u].rank)
      && (forall r :: 1 <= r <= |Elems(scores)| ==> RankTaken(desc, Elems(scores), r))
  {
    var scores := ScoresUpTo(model, dict, nfts, |nfts|).value;
    ScoresUpToLength(model, dict, nfts, |nfts|);
    var table := RarityTable(model, dict, nfts).value;
    var desc := model == RarityScore;
    ByTokenMeaning(nfts, scores, |nfts|);
    assert scores[..|nfts|] == scores;
    forall t | t in table ensures 1 <= table[t].rank <= |Elems(scores)| {
      RankBounds(desc, scores, table[t].score);
    }
    forall t, u | t in table && u in table && table[t].score < table[u].score
      ensures if desc then table[t].rank > table[u].rank else table[t].rank < table[u].rank
    {
      RankOrder(desc, scores, table[t].score, table[u].score);
    }
    RanksDense(desc, scores);
  }

  // =======================================================================
  // What the scores state.

  /** TraitRarity is the least qualifying share, or 100 when that is lower
      or there is none. */
  lemma {:induction false} MinShareIsMinimum(stats: seq<ValueStat>)
    ensures MinShare(stats) <= 100.0
    ensures forall k :: 0 <= k < |stats| ==> MinShare(stats) <= stats[k].share
    ensures MinShare(stats) == 100.0 || exists k :: 0 <= k < |stats| && MinShare(stats) == stats[k].share
  {
    if stats != [] {
      var init := stats[..|stats| - 1];
      MinShareIsMinimum(init);
      if MinShare(stats) != 100.0 && MinShare(stats) != stats[|stats| - 1].share {
        var k :| 0 <= k < |init| && MinShare(init) == init[k].share;
        assert stats[k] == init[k];
      }
    }
  }

  predicate SharesInRange(stats: seq<ValueStat>) {
    forall k :: 0 <= k < |stats| ==> 0.0 < stats[k].share <= 100.0
  }

  lemma {:induction false} ShareSumBounds(stats: seq<ValueStat>)
    requires SharesInRange(stats)
    ensures 0.0 <= ShareSum(stats) <= 100.0 * (|stats| as real)
    ensures |stats| > 0 ==> 0.0 < ShareSum(stats)
  {
    if stats != [] {
      ShareSumBounds(stats[..|stats| - 1]);
    }
  }

  /** With shares in (0, 100], as the aggregator produces them, the mean
      share lies in (0, 100]. */
  lemma MeanShareBounds(stats: seq<ValueStat>)
    requires SharesInRange(stats) && |stats| > 0
    ensures 0.0 < ShareSum(stats) / (|stats| as real) <= 100.0
  {
    ShareSumBounds(stats);
    var n := |stats| as real;
    assert ShareSum(stats) / n * n == ShareSum(stats);
  }

  /** With positive shares the StatisticalRarity product is positive. */
  lemma {:induction false} ShareProductPositive(stats: seq<ValueStat>)
    requires SharesInRange(stats)
    ensures 0.0 < ShareProduct(stats)
  {
    if stats != [] {
      ShareProductPositive(stats[..|stats| - 1]);
    }
  }

  /** Each RarityScore term is the inverse frequency `totalSupply / count`,
      at least 1 when the count is at most the supply; so the score is at
      least the number of qualifying traits. */
  lemma {:induction false} InverseFrequencyAtLeastTraitCount(stats: seq<ValueStat>, totalSupply: nat)
    requires totalSupply > 0 && AllCounted(stats)
    requires forall k :: 0 <= k < |stats| ==> stats[k].count <= totalSupply
    ensures InverseFrequencySum(stats, totalSupply) >= |stats| as real
  {
    if stats != [] {
      var init := stats[..|stats| - 1];
      InverseFrequencyAtLeastTraitCount(init, totalSupply);
      InverseFrequencyTerm(stats[|stats| - 1].count, totalSupply);
    }
  }

  lemma InverseFrequencyTerm(count: nat, totalSupply: nat)
    requires 0 < count <= totalSupply
    ensures 1.0 / ((count as real) / (totalSupply as real)) == (totalSupply as real) / (count as real)
    ensures 1.0 / ((count as real) / (totalSupply as real)) >= 1.0
  {
    var c, n := count as real, totalSupply as real;
    assert (c / n) * (n / c) == 1.0;
    assert (n / c) * c == n;
    RatioAtLeastOne(n, c);
  }

  lemma RatioAtLeastOne(a: real, b: real)
    requires 0.0 < b <= a
    ensures a / b >= 1.0
  {
    assert (a / b) * b == a;
  }

  // =======================================================================
  // calculateRarity

  datatype Tables = Tables(
    traitRarity: map<string, NftRarity>,
    meanTraitRarity: map<string, NftRarity>,
    statisticalRarity: map<string, NftRarity>,
    rarityScore: map<string, NftRarity>)

  /** The four tables over one lookup, computed one model after another;
      the first failure is the result. */
  function TablesFrom(dict: AttributeDict, nfts: seq<Nft>): Result<Tables, RarityError> {
    match RarityTable(TraitRarity, dict, nfts)
    case Err(e) => Err(e)
    case Ok(t1) =>
      match RarityTable(MeanTraitRarity, dict, nfts)
      case Err(e) => Err(e)
      case Ok(t2) =>
        match RarityTable(StatisticalRarity, dict, nfts)
        case Err(e) => Err(e)
        case Ok(t3) =>
          match RarityTable(RarityScore, dict, nfts)
          case Err(e) => Err(e)
          case Ok(t4) => Ok(Tables(t1, t2, t3, t4))
  }

  /** Without aggregated statistics there is nothing to rank by. */
  function RarityTables(collectionAttributes: Option<seq<CollectionAttribute>>, nfts: seq<Nft>): Result<Tables, RarityError> {
    match collectionAttributes
    case None => Err(NoCollectionAttributes)
    case Some(attrs) => TablesFrom(AttributeDictOf(attrs), nfts)
  }

  /** Every token id of the collection has an entry in all four tables. */
  predicate Covers(tables: Tables, nfts: seq<Nft>) {
    forall i :: 0 <= i < |nfts| ==>
      && nfts[i].tokenId in tables.traitRarity && nfts[i].tokenId in tables.meanTraitRarity
      && nfts[i].tokenId in tables.statisticalRarity && nfts[i].tokenId in tables.rarityScore
  }

  /** The four entries of one token, in model order. */
  function RaritiesOf(tables: Tables, tokenId: string): seq<NftRarity>
    requires tokenId in tables.traitRarity && tokenId in tables.meanTraitRarity
    requires tokenId in tables.statisticalRarity && tokenId in tables.rarityScore
  {
    [tables.traitRarity[tokenId], tables.meanTraitRarity[tokenId],
     tables.statisticalRarity[tokenId], tables.rarityScore[tokenId]]
  }

  function WithRarities(nfts: seq<Nft>, tables: Tables): seq<Nft>
    requires Covers(tables, nfts)
  {
    seq(|nfts|, i requires 0 <= i < |nfts| => nfts[i].(rarities := Some(RaritiesOf(tables, nfts[i].tokenId))))
  }

  /** A model's table has an entry for every NFT, tagged with the model. */
  lemma TableKeys(model: RarityModel, dict: AttributeDict, nfts: seq<Nft>)
    requires RarityTable(model, dict, nfts).Ok?
    ensures var table := RarityTable(model, dict, nfts).value;
      && (forall i :: 0 <= i < |nfts| ==> nfts[i].tokenId in table)
      && (forall t :: t in table ==> table[t].rankModel == model)
  {
    var table := RarityTable(model, dict, nfts).value;
    TableMeaning(model, dict, nfts);
    forall i | 0 <= i < |nfts| ensures nfts[i].tokenId in table {
      assert exists j :: 0 <= j < |nfts| && nfts[j].tokenId == nfts[i].tokenId;
    }
  }

  /** A successful run produces tables that cover the collection, each
      entry tagged with its own model. */
  lemma TablesCover(dict: AttributeDict, nfts: seq<Nft>)
    requires TablesFrom(dict, nfts).Ok?
    ensures var tables := TablesFrom(dict, nfts).value;
      && Covers(tables, nfts)
      && (forall t :: t in tables.traitRarity ==> tables.traitRarity[t].rankModel == TraitRarity)
      && (forall t :: t in tables.meanTraitRarity ==> tables.meanTraitRarity[t].rankModel == MeanTraitRarity)
      && (forall t :: t in tables.statisticalRarity ==> tables.statisticalRarity[t].rankModel == StatisticalRarity)
      && (forall t :: t in tables.rarityScore ==> tables.rarityScore[t].rankModel == RarityScore)
  {
    TableKeys(TraitRarity, dict, nfts);
    TableKeys(MeanTraitRarity, dict, nfts);
    TableKeys(StatisticalRarity, dict, nfts);
    TableKeys(RarityScore, dict, nfts);
  }

  /** The four models run in turn; the first failure ends the run. */
  method RunModels(dict: AttributeDict, nfts: seq<Nft>) returns (r: Result<Tables, RarityError>)
    ensures r == TablesFrom(dict, nfts)
  {
    var t1 := RankModel(TraitRarity, dict, nfts);
    if t1.Err? { return Err(t1.error); }
    var t2 := RankModel(MeanTraitRarity, dict, nfts);
    if t2.Err? { return Err(t2.error); }
    var t3 := RankModel(StatisticalRarity, dict, nfts);
    if t3.Err? { return Err(t3.error); }
    var t4 := RankModel(RarityScore, dict, nfts);
    if t4.Err? { return Err(t4.error); }
    r := Ok(Tables(t1.value, t2.value, t3.value, t4.value));
  }

  /** The final loop: each NFT, replaced in place, gets its four entries. */
  method SetRarities(c: Collection, tables: Tables)
    requires Covers(tables, c.nfts)
    modifies c
    ensures c.nfts == WithRarities(old(c.nfts), tables)
    ensures c.nftContract == old(c.nftContract) && c.name == old(c.name) && c.symbol == old(c.symbol)
    ensures c.collectionAttributes == old(c.collectionAttributes)
  {
    ghost var original := c.nfts;
    var i := 0;
    while i < |c.nfts|
      invariant 0 <= i <= |c.nfts| == |original|
      invariant c.nftContract == old(c.nftContract) && c.name == old(c.name) && c.symbol == old(c.symbol)
      invariant c.collectionAttributes == old(c.collectionAttributes)
      invariant forall k :: 0 <= k < i ==> c.nfts[k] == WithRarities(original, tables)[k]
      invariant forall k :: i <= k < |c.nfts| ==> c.nfts[k] == original[k]
    {
      var nft := c.nfts[i];
      c.nfts := c.nfts[i := nft.(rarities := Some(RaritiesOf(tables, nft.tokenId)))];
      i := i + 1;
    }
  }

  /** `calculateRarity`: builds the lookup, runs the four models and sets
      every NFT's `rarities`; nothing else in the collection changes. When a
      model fails the collection is left as it was. */
  method CalculateRarity(c: Collection) returns (r: Result<(), RarityError>)
    modifies c
    ensures c.nftContract == old(c.nftContract) && c.name == old(c.name) && c.symbol == old(c.symbol)
    ensures c.collectionAttributes == old(c.collectionAttributes)
    ensures var expected := RarityTables(old(c.collectionAttributes), old(c.nfts));
      && (r.Ok? <==> expected.Ok?)
      && (r.Err? ==> r.error == expected.error && c.nfts == old(c.nfts))
      && (r.Ok? ==> Covers(expected.value, old(c.nfts)) && c.nfts == WithRarities(old(c.nfts), expected.value))
  {
    if c.collectionAttributes.None? {
      return Err(NoCollectionAttributes);
    }
    var dict := BuildAttributeDict(c.collectionAttributes.value);
    var tables := RunModels(dict, c.nfts);
    if tables.Err? {
      return Err(tables.error);
    }
    TablesCover(dict, c.nfts);
    SetRarities(c, tables.value);
    r := Ok(());
  }

  /** Four entries, one per model, in the order TraitRarity,
      MeanTraitRarity, StatisticalRarity, RarityScore. */
  predicate InModelOrder(rs: seq<NftRarity>) {
    && |rs| == 4
    && rs[0].rankModel == TraitRarity && rs[1].rankModel == MeanTraitRarity
    && rs[2].rankModel == StatisticalRarity && rs[3].rankModel == RarityScore
  }

  /** Each table holds entries of its own model only. */
  predicate Tagged(tables: Tables) {
    && (forall t :: t in tables.traitRarity ==> tables.traitRarity[t].rankModel == TraitRarity)
    && (forall t :: t in tables.meanTraitRarity ==> tables.meanTraitRarity[t].rankModel == MeanTraitRarity)
    && (forall t :: t in tables.statisticalRarity ==> tables.statisticalRarity[t].rankModel == StatisticalRarity)
    && (forall t :: t in tables.rarityScore ==> tables.rarityScore[t].rankModel == RarityScore)
  }

  lemma RaritiesOfTagged(tables: Tables, t: string)
    requires Tagged(tables)
    requires t in tables.traitRarity && t in tables.meanTraitRarity
    requires t in tables.statisticalRarity && t in tables.rarityScore
    ensures InModelOrder(RaritiesOf(tables, t))
  {
  }

  /** After `calculateRarity` every NFT carries exactly four entries, in the
      order TraitRarity, MeanTraitRarity, StatisticalRarity, RarityScore,
      each the entry of its model's table for the NFT's token id, and all
      its other fields are as before. */
  lemma RaritiesInModelOrder(collectionAttributes: Option<seq<CollectionAttribute>>, nfts: seq<Nft>)
    requires RarityTables(collectionAttributes, nfts).Ok?
    ensures var tables := RarityTables(collectionAttributes, nfts).value;
      && Covers(tables, nfts)
      && var out := WithRarities(nfts, tables);
      && |out| == |nfts|
      && forall i :: 0 <= i < |nfts| ==>
           && out[i].rarities.Some? && InModelOrder(out[i].rarities.value)
           && out[i].rarities.value == RaritiesOf(tables, nfts[i].tokenId)
           && out[i].(rarities := nfts[i].rarities) == nfts[i]
  {
    TablesCover(AttributeDictOf(collectionAttributes.value), nfts);
    var tables := RarityTables(collectionAttributes, nfts).value;
    assert Tagged(tables);
    var out := WithRarities(nfts, tables);
    forall i | 0 <= i < |nfts|
      ensures out[i].rarities.Some? && InModelOrder(out[i].rarities.value)
      ensures out[i].rarities.value == RaritiesOf(tables, nfts[i].tokenId)
      ensures out[i].(rarities := nfts[i].rarities) == nfts[i]
    {
      RaritiesOfTagged(tables, nfts[i].tokenId);
    }
  }

  // =======================================================================
  // Rarity over the statistics the trait aggregator produced.

  /** No two entries of a trait list share a trait type. */
  predicate DistinctTypes(attrs: seq<Trait>) {
    forall j, k :: 0 <= j < k < |attrs| ==> attrs[j].traitType != attrs[k].traitType
  }

  /** Every qualifying trait is an entry of the list. */
  lemma {:induction false} QualifyingFrom(attrs: seq<Trait>)
    ensures forall k :: 0 <= k < |Qualifying(attrs)| ==> Qualifying(attrs)[k] in attrs
  {
    if attrs != [] {
      var init := attrs[..|attrs| - 1];
      QualifyingFrom(init);
      forall k | 0 <= k < |Qualifying(attrs)| ensures Qualifying(attrs)[k] in attrs {
        if k < |Qualifying(init)| {
          assert Qualifying(attrs)[k] == Qualifying(init)[k];
          assert Qualifying(init)[k] in init;
        }
      }
    }
  }

  /** An NFT's first entry of a type is found in the lookup built from the
      aggregated statistics, with the count and share the aggregator gave
      that value. */
  lemma AggregateLookup(lists: seq<seq<Trait>>, i: nat, j: nat)
    requires 0 <= i < |lists| && j < |lists[i]|
    requires forall j' :: 0 <= j' < j ==> lists[i][j'].traitType != lists[i][j].traitType
    ensures var a := lists[i][j]; var d := AttributeDictOf(NftHelpers.Aggregate(lists));
      && Known(d, a)
      && a.value in NftHelpers.ValueStats(lists, a.traitType)
      && d[a.traitType][a.value] == NftHelpers.ValueStats(lists, a.traitType)[a.value]
  {
    var t, v := lists[i][j].traitType, lists[i][j].value;
    var agg := NftHelpers.Aggregate(lists);
    NftHelpers.ValueOfIsFirstEntry(lists[i], t);
    assert NftHelpers.ValueOf(lists[i], t) == v;
    NftHelpers.AttributeStatistics(lists, t);
    var vs := NftHelpers.ValueStats(lists, t);
    assert v in vs;
    NftHelpers.FlatTypesMembers(lists, t);
    NftHelpers.OneAttributePerTraitType(lists);
    var k :| 0 <= k < |agg| && agg[k].traitType == t;
    assert agg[k].values == vs;
    assert LastHolder(agg, t, v, k);
    LookupLastWins(agg, t, v, k);
  }

  /** For an NFT of the collection whose trait types are distinct, every
      qualifying trait resolves against the aggregated statistics: the
      statistics are the aggregator's, every count is between 1 and the
      collection size and every share in (0, 100]. */
  lemma ResolveOnAggregate(lists: seq<seq<Trait>>, i: nat)
    requires 0 <= i < |lists| && DistinctTypes(lists[i])
    ensures var d := AttributeDictOf(NftHelpers.Aggregate(lists));
      var r := Resolve(d, lists[i]); var q := Qualifying(lists[i]);
      && r.Ok?
      && |r.value| == |q|
      && (forall k :: 0 <= k < |q| ==>
            && q[k].value in NftHelpers.ValueStats(lists, q[k].traitType)
            && r.value[k] == NftHelpers.ValueStats(lists, q[k].traitType)[q[k].value])
      && (forall k :: 0 <= k < |r.value| ==>
            && 1 <= r.value[k].count <= |lists|
            && 0.0 < r.value[k].share <= 100.0)
  {
    var d := AttributeDictOf(NftHelpers.Aggregate(lists));
    var q := Qualifying(lists[i]);
    QualifyingFrom(lists[i]);
    forall k | 0 <= k < |q|
      ensures Known(d, q[k])
      ensures q[k].value in NftHelpers.ValueStats(lists, q[k].traitType)
      ensures d[q[k].traitType][q[k].value] == NftHelpers.ValueStats(lists, q[k].traitType)[q[k].value]
    {
      var j :| 0 <= j < |lists[i]| && lists[i][j] == q[k];
      AggregateLookup(lists, i, j);
    }
    assert AllKnown(d, q);
    ResolveMeaning(d, lists[i]);
    var r := Resolve(d, lists[i]);
    forall k | 0 <= k < |r.value|
      ensures 1 <= r.value[k].count <= |lists| && 0.0 < r.value[k].share <= 100.0
    {
      NftHelpers.AttributeStatistics(lists, q[k].traitType);
    }
  }

  /** Every trait that is not `'[none]'` takes part in the scores. */
  lemma {:induction false} QualifyingKeeps(attrs: seq<Trait>, j: nat)
    requires j < |attrs| && attrs[j].value != NoneValue
    ensures attrs[j] in Qualifying(attrs)
  {
    if j < |attrs| - 1 {
      var init := attrs[..|attrs| - 1];
      QualifyingKeeps(init, j);
    }
  }

  /** A trait whose value is no NFT's first value of its type (the second
      value of a trait type listed twice, unless some NFT lists it first) is
      missing from the lookup built from the aggregate, so the NFT carrying
      it cannot be scored. */
  lemma UnaggregatedValueFails(lists: seq<seq<Trait>>, i: nat, j: nat)
    requires 0 <= i < |lists| && j < |lists[i]| && lists[i][j].value != NoneValue
    requires forall n :: 0 <= n < |lists| ==> NftHelpers.ValueOf(lists[n], lists[i][j].traitType) != lists[i][j].value
    ensures var d := AttributeDictOf(NftHelpers.Aggregate(lists));
      !Known(d, lists[i][j]) && Resolve(d, lists[i]).Err?
  {
    var t, v := lists[i][j].traitType, lists[i][j].value;
    var agg := NftHelpers.Aggregate(lists);
    var d := AttributeDictOf(agg);
    NftHelpers.AttributeStatistics(lists, t);
    assert v !in NftHelpers.ValueStats(lists, t);
    LookupFound(agg, t, v);
    assert !Known(d, lists[i][j]);
    QualifyingKeeps(lists[i], j);
    ResolveMeaning(d, lists[i]);
  }

  /** An NFT listing a trait type twice with different values: the
      aggregator counts only the first value, so the second is missing from
      the lookup and every rarity model fails on it. */
  lemma DuplicateTraitTypeFails()
    ensures var lists := [[Trait("hat", "red"), Trait("hat", "blue")]];
      Resolve(AttributeDictOf(NftHelpers.Aggregate(lists)), lists[0]) == Err(UnknownTraitValue("hat", "blue"))
  {
    var lists := [[Trait("hat", "red"), Trait("hat", "blue")]];
    var agg := NftHelpers.Aggregate(lists);
    assert NftHelpers.FlatTypes(lists) == ["hat", "hat"] by {
      assert lists[..0] == [];
    }
    assert NftHelpers.TraitTypes(lists) == ["hat"] by {
      var hh := ["hat", "hat"];
      assert hh[..1] == ["hat"] && ["hat"][..0] == [];
      assert NftHelpers.Dedup(["hat"]) == ["hat"];
    }
    assert NftHelpers.ValueOf(lists[0], "hat") == "red";
    assert NftHelpers.CountDict(lists, "hat") == map["red" := 1] by {
      assert lists[..0] == [];
    }
    var stat := ValueStat(1, 100.0);
    assert NftHelpers.Share(1, 1) == 100.0;
    assert NftHelpers.ValueStats(lists, "hat") == map["red" := stat];
    assert agg == [CollectionAttribute("hat", map["red" := stat])];
    var d := AttributeDictOf(agg);
    assert d == map["hat" := map["red" := stat]] by {
      assert agg[..0] == [];
      assert AttributeDictOf([]) == map[];
      var empty: map<string, ValueStat> := map[];
      assert empty + map["red" := stat] == map["red" := stat];
    }
    var attrs := lists[0];
    assert attrs[..1][..0] == [];
    var first := attrs[..1];
    assert first == [Trait("hat", "red")] && first[..0] == [];
    assert d["hat"]["red"] == stat;
    assert Resolve(d, first[..0]) == Ok([]);
    assert first[|first| - 1] == Trait("hat", "red") && first[..|first| - 1] == first[..0];
    assert "hat" in d && "red" in d["hat"];
    assert "red" != NoneValue;
    var none: seq<ValueStat> := [];
    assert Resolve(d, first) == Ok(none + [d["hat"]["red"]]);
    assert none + [stat] == [stat];
    assert Resolve(d, first) == Ok([stat]);
    assert attrs[..1] == attrs[..|attrs| - 1];
  }
}

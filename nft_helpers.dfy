/** helpers/nft.ts: the trait aggregator (`calculateTrait`), the conversion of
    mint instructions into a collection (`parseNftFromMasterConfig`) and the
    receipts of one batched mint (`bulkMint`). */
module NftHelpers {
  import opened Base
  import opened Interfaces
  import opened Chain

  // =======================================================================
  // Trait aggregation: specification.

  /** Every NFT carries a trait list; `calculateTrait` reads
      `nft.attributes.forEach` and throws on an NFT without one. */
  predicate AllHaveAttributes(nfts: seq<Nft>) {
    forall i :: 0 <= i < |nfts| ==> nfts[i].attributes.Some?
  }

  function TraitLists(nfts: seq<Nft>): (lists: seq<seq<Trait>>)
    requires AllHaveAttributes(nfts)
    ensures |lists| == |nfts| && forall i :: 0 <= i < |nfts| ==> lists[i] == nfts[i].attributes.value
  {
    seq(|nfts|, i requires 0 <= i < |nfts| => nfts[i].attributes.value)
  }

  function TypesOf(attrs: seq<Trait>): (ts: seq<string>)
    ensures |ts| == |attrs| && forall j :: 0 <= j < |attrs| ==> ts[j] == attrs[j].traitType
  {
    seq(|attrs|, j requires 0 <= j < |attrs| => attrs[j].traitType)
  }

  /** Every trait type, in the order the aggregator visits the NFTs and their
      trait lists, repeats included. */
  function FlatTypes(lists: seq<seq<Trait>>): seq<string> {
    if lists == [] then [] else FlatTypes(lists[..|lists| - 1]) + TypesOf(lists[|lists| - 1])
  }

  /** The elements of `s` in order of first occurrence, each once: what
      iterating a JavaScript `Set` filled from `s` yields. */
  function Dedup(s: seq<string>): seq<string> {
    if s == [] then []
    else
      var d := Dedup(s[..|s| - 1]);
      if s[|s| - 1] in d then d else d + [s[|s| - 1]]
  }

  /** The distinct trait types of a collection, in first-occurrence order. */
  function TraitTypes(lists: seq<seq<Trait>>): seq<string> {
    Dedup(FlatTypes(lists))
  }

  /** The value an NFT contributes to `key`: its first entry of that type, or
      the `'[none]'` sentinel when it has none. */
  function ValueOf(attrs: seq<Trait>, key: string): string {
    if attrs == [] then NoneValue
    else if attrs[0].traitType == key then attrs[0].value
    else ValueOf(attrs[1..], key)
  }

  /** `countDict` after the first |lists| NFTs have been tallied for `key`. */
  function CountDict(lists: seq<seq<Trait>>, key: string): map<string, nat> {
    if lists == [] then map[]
    else
      var m := CountDict(lists[..|lists| - 1], key);
      var v := ValueOf(lists[|lists| - 1], key);
      m[v := (if v in m then m[v] else 0) + 1]
  }

  /** The number of NFTs whose value for `key` is `v`. */
  function CountOf(lists: seq<seq<Trait>>, key: string, v: string): nat {
    if lists == [] then 0
    else CountOf(lists[..|lists| - 1], key, v) + (if ValueOf(lists[|lists| - 1], key) == v then 1 else 0)
  }

  /** `count * 100 / n`. */
  function Share(count: nat, n: nat): real
    requires n > 0
  {
    (count as real) * 100.0 / (n as real)
  }

  /** The emitted values of one trait type with their counts and shares. */
  function ValueStats(lists: seq<seq<Trait>>, key: string): map<string, ValueStat>
    requires |lists| > 0
  {
    var cd := CountDict(lists, key);
    map v | v in cd :: ValueStat(cd[v], Share(cd[v], |lists|))
  }

  /** `collectionAttributes` as `calculateTrait` computes it: one entry per
      distinct trait type. An empty collection has no trait types, so no
      share is ever divided by zero. */
  function Aggregate(lists: seq<seq<Trait>>): seq<CollectionAttribute> {
    var types := TraitTypes(lists);
    if |lists| == 0 then []
    else seq(|types|, i requires 0 <= i < |types| => CollectionAttribute(types[i], ValueStats(lists, types[i])))
  }

  // =======================================================================
  // Trait aggregation: the in-place operation.

  datatype AggregateError = MissingAttributes

  /** The first loop of `calculateTrait`: the distinct trait types, in
      first-occurrence order. */
  method UniqueTraitTypes(lists: seq<seq<Trait>>) returns (uniqueTypes: seq<string>)
    ensures uniqueTypes == TraitTypes(lists)
  {
    uniqueTypes := [];
    var i := 0;
    while i < |lists|
      invariant 0 <= i <= |lists|
      invariant uniqueTypes == Dedup(FlatTypes(lists[..i]))
    {
      var j := 0;
      assert TypesOf(lists[i][..0]) == [];
      assert FlatTypes(lists[..i]) + [] == FlatTypes(lists[..i]);
      while j < |lists[i]|
        invariant 0 <= j <= |lists[i]|
        invariant uniqueTypes == Dedup(FlatTypes(lists[..i]) + TypesOf(lists[i][..j]))
      {
        ghost var before := FlatTypes(lists[..i]) + TypesOf(lists[i][..j]);
        assert FlatTypes(lists[..i]) + TypesOf(lists[i][..j + 1]) == before + [lists[i][j].traitType];
        if lists[i][j].traitType !in uniqueTypes {
          uniqueTypes := uniqueTypes + [lists[i][j].traitType];
        }
        j := j + 1;
      }
      assert lists[i][..j] == lists[i];
      assert lists[..i + 1][..i] == lists[..i];
      assert FlatTypes(lists[..i + 1]) == FlatTypes(lists[..i]) + TypesOf(lists[i]);
      i := i + 1;
    }
    assert lists[..i] == lists;
  }

  /** The tally loop for one trait type. */
  method CountValues(lists: seq<seq<Trait>>, key: string) returns (countDict: map<string, nat>)
    ensures countDict == CountDict(lists, key)
  {
    countDict := map[];
    var k := 0;
    while k < |lists|
      invariant 0 <= k <= |lists|
      invariant countDict == CountDict(lists[..k], key)
    {
      var v := ValueOf(lists[k], key);
      countDict := countDict[v := (if v in countDict then countDict[v] else 0) + 1];
      assert lists[..k + 1][..k] == lists[..k];
      k := k + 1;
    }
    assert lists[..k] == lists;
  }

  /** The loops of `calculateTrait` that build `collectionAttributes`. */
  method ComputeAttributes(lists: seq<seq<Trait>>) returns (attributes: seq<CollectionAttribute>)
    ensures attributes == Aggregate(lists)
  {
    var uniqueTypes := UniqueTraitTypes(lists);
    attributes := [];
    if |lists| == 0 {
      return;
    }
    var t := 0;
    while t < |uniqueTypes|
      invariant 0 <= t <= |uniqueTypes|
      invariant attributes == Aggregate(lists)[..t]
    {
      var key := uniqueTypes[t];
      var countDict := CountValues(lists, key);
      var values := map v | v in countDict :: ValueStat(countDict[v], Share(countDict[v], |lists|));
      assert Aggregate(lists)[t] == CollectionAttribute(key, values);
      assert Aggregate(lists)[..t + 1] == Aggregate(lists)[..t] + [Aggregate(lists)[t]];
      attributes := attributes + [CollectionAttribute(key, values)];
      t := t + 1;
    }
  }

  /** `calculateTrait`: sets the collection's `collectionAttributes` and
      changes nothing else; a collection holding an NFT without a trait list
      is left untouched and the call fails. */
  method CalculateTrait(c: Collection) returns (r: Result<(), AggregateError>)
    modifies c
    ensures c.nfts == old(c.nfts) && c.nftContract == old(c.nftContract)
    ensures c.name == old(c.name) && c.symbol == old(c.symbol)
    ensures r.Ok? <==> AllHaveAttributes(c.nfts)
    ensures r.Ok? ==> c.collectionAttributes == Some(Aggregate(TraitLists(c.nfts)))
    ensures r.Err? ==> c.collectionAttributes == old(c.collectionAttributes)
  {
    if !AllHaveAttributes(c.nfts) {
      return Err(MissingAttributes);
    }
    var attributes := ComputeAttributes(TraitLists(c.nfts));
    c.collectionAttributes := Some(attributes);
    r := Ok(());
  }

  // =======================================================================
  // Trait aggregation: what the statistics mean.

  lemma {:induction false} DedupMembers(s: seq<string>)
    ensures forall x :: x in Dedup(s) <==> x in s
    ensures NoDup(Dedup(s))
  {
    if s != [] {
      DedupMembers(s[..|s| - 1]);
      assert s == s[..|s| - 1] + [s[|s| - 1]];
    }
  }

  /** The position of the first occurrence of `x` in `s`. */
  function FirstIndex(s: seq<string>, x: string): (i: nat)
    requires x in s
    ensures i < |s| && s[i] == x && forall j :: 0 <= j < i ==> s[j] != x
  {
    if s[0] == x then 0 else 1 + FirstIndex(s[1..], x)
  }

  lemma FirstIndexPrefix(s: seq<string>, t: seq<string>, x: string)
    requires x in s
    ensures x in s + t && FirstIndex(s + t, x) == FirstIndex(s, x)
  {
    var i := FirstIndex(s, x);
    var k := FirstIndex(s + t, x);
    assert (s + t)[i] == x;
  }

  /** `Dedup` lists the distinct elements in the order of their first
      occurrences. */
  lemma {:induction false} DedupOrder(s: seq<string>)
    ensures forall a, b :: 0 <= a < b < |Dedup(s)| ==>
      Dedup(s)[a] in s && Dedup(s)[b] in s && FirstIndex(s, Dedup(s)[a]) < FirstIndex(s, Dedup(s)[b])
  {
    if s != [] {
      var init, last := s[..|s| - 1], s[|s| - 1];
      DedupOrder(init);
      DedupMembers(init);
      var di, d := Dedup(init), Dedup(s);
      assert s == init + [last];
      forall a, b | 0 <= a < b < |d|
        ensures d[a] in s && d[b] in s && FirstIndex(s, d[a]) < FirstIndex(s, d[b])
      {
        assert d[a] == di[a] && d[a] in init;
        FirstIndexPrefix(init, [last], d[a]);
        if b < |di| {
          assert d[b] == di[b];
          FirstIndexPrefix(init, [last], d[b]);
        } else {
          assert d[b] == last && last !in init;
          assert FirstIndex(s, last) == |init| by {
            assert s[|init|] == last;
          }
        }
      }
      assert forall a, b :: 0 <= a < b < |d| ==> d[a] in s && d[b] in s && FirstIndex(s, d[a]) < FirstIndex(s, d[b]);
    } else {
      assert Dedup(s) == [];
    }
  }

  /** `calculateTrait` emits exactly one attribute per distinct trait type,
      in the order in which the types first occur across the NFTs. */
  lemma OneAttributePerTraitType(lists: seq<seq<Trait>>)
    requires |lists| > 0
    ensures var a := Aggregate(lists); var flat := FlatTypes(lists);
      && |a| == |TraitTypes(lists)|
      && (forall i, j :: 0 <= i < j < |a| ==> a[i].traitType != a[j].traitType)
      && (forall t :: (exists i :: 0 <= i < |a| && a[i].traitType == t) <==> t in flat)
      && (forall i, j :: 0 <= i < j < |a| ==>
            a[i].traitType in flat && a[j].traitType in flat &&
            FirstIndex(flat, a[i].traitType) < FirstIndex(flat, a[j].traitType))
  {
    var a := Aggregate(lists);
    DedupMembers(FlatTypes(lists));
    DedupOrder(FlatTypes(lists));
    forall t | t in FlatTypes(lists) ensures exists i :: 0 <= i < |a| && a[i].traitType == t {
      var i :| 0 <= i < |TraitTypes(lists)| && TraitTypes(lists)[i] == t;
      assert a[i].traitType == t;
    }
  }

  /** A trait type occurs in the flattened list exactly when some NFT's list
      holds an entry of that type. */
  lemma {:induction false} FlatTypesMembers(lists: seq<seq<Trait>>, t: string)
    ensures t in FlatTypes(lists) <==> exists i, j :: 0 <= i < |lists| && 0 <= j < |lists[i]| && lists[i][j].traitType == t
  {
    if lists != [] {
      var init := lists[..|lists| - 1];
      FlatTypesMembers(init, t);
      if exists i, j :: 0 <= i < |lists| && 0 <= j < |lists[i]| && lists[i][j].traitType == t {
        var i, j :| 0 <= i < |lists| && 0 <= j < |lists[i]| && lists[i][j].traitType == t;
        if i < |init| { assert init[i] == lists[i]; } else { assert TypesOf(lists[i])[j] == t; }
      }
      if t in TypesOf(lists[|lists| - 1]) {
        var j :| 0 <= j < |lists[|lists| - 1]| && TypesOf(lists[|lists| - 1])[j] == t;
        assert lists[|lists| - 1][j].traitType == t;
      }
    }
  }

  /** The trait list has no entry of type `key`. */
  predicate Lacks(attrs: seq<Trait>, key: string) {
    forall j :: 0 <= j < |attrs| ==> attrs[j].traitType != key
  }

  /** An NFT contributes the value of its FIRST entry of the trait type;
      later entries of the same type are ignored. */
  lemma {:induction false} ValueOfIsFirstEntry(attrs: seq<Trait>, key: string)
    ensures Lacks(attrs, key) ==> ValueOf(attrs, key) == NoneValue
    ensures forall j :: 0 <= j < |attrs| && attrs[j].traitType == key &&
                        (forall j' :: 0 <= j' < j ==> attrs[j'].traitType != key) ==>
                        ValueOf(attrs, key) == attrs[j].value
  {
    if attrs != [] {
      ValueOfIsFirstEntry(attrs[1..], key);
      forall j | 0 < j < |attrs| && attrs[j].traitType == key &&
                 (forall j' :: 0 <= j' < j ==> attrs[j'].traitType != key)
        ensures ValueOf(attrs, key) == attrs[j].value
      {
        assert attrs[1..][j - 1] == attrs[j];
        assert forall j' :: 0 <= j' < j - 1 ==> attrs[1..][j'] == attrs[j' + 1];
      }
    }
  }

  /** Every tallied count is the number of NFTs carrying that value, a value
      is tallied exactly when some NFT carries it, and no count is zero. */
  lemma {:induction false} CountDictMeaning(lists: seq<seq<Trait>>, key: string)
    ensures forall v :: v in CountDict(lists, key) ==> CountDict(lists, key)[v] == CountOf(lists, key, v) >= 1
    ensures forall v :: v in CountDict(lists, key) <==> exists i :: 0 <= i < |lists| && ValueOf(lists[i], key) == v
  {
    if lists != [] {
      var init := lists[..|lists| - 1];
      CountDictMeaning(init, key);
      CountOfZero(init, key);
      forall v ensures v in CountDict(lists, key) <==> exists i :: 0 <= i < |lists| && ValueOf(lists[i], key) == v {
        if exists i :: 0 <= i < |init| && ValueOf(init[i], key) == v {
          var i :| 0 <= i < |init| && ValueOf(init[i], key) == v;
          assert ValueOf(lists[i], key) == v;
        }
        if exists i :: 0 <= i < |lists| && ValueOf(lists[i], key) == v {
          var i :| 0 <= i < |lists| && ValueOf(lists[i], key) == v;
          if i < |init| { assert init[i] == lists[i]; }
        }
      }
    }
  }

  /** A value no NFT carries has count zero. */
  lemma {:induction false} CountOfZero(lists: seq<seq<Trait>>, key: string)
    ensures forall v :: v !in CountDict(lists, key) ==> CountOf(lists, key, v) == 0
  {
    if lists != [] {
      CountOfZero(lists[..|lists| - 1], key);
    }
  }

  // Summing the counts of a tally.

  /** The sum of `m` over the keys in `keys`. */
  ghost function Total(m: map<string, nat>, keys: set<string>): nat
    requires keys <= m.Keys
  {
    if keys == {} then 0
    else
      var k :| k in keys;
      m[k] + Total(m, keys - {k})
  }

  ghost function MapTotal(m: map<string, nat>): nat {
    Total(m, m.Keys)
  }

  /** The sum does not depend on which key is taken out first. */
  lemma {:induction false} TotalRemove(m: map<string, nat>, keys: set<string>, k: string)
    requires keys <= m.Keys && k in keys
    ensures Total(m, keys) == m[k] + Total(m, keys - {k})
    decreases keys
  {
    var k' :| k' in keys && Total(m, keys) == m[k'] + Total(m, keys - {k'});
    if k' != k {
      TotalRemove(m, keys - {k'}, k);
      TotalRemove(m, keys - {k}, k');
      assert keys - {k'} - {k} == keys - {k} - {k'};
    }
  }

  /** The sum only reads the values under `keys`. */
  lemma {:induction false} TotalAgree(m1: map<string, nat>, m2: map<string, nat>, keys: set<string>)
    requires keys <= m1.Keys && keys <= m2.Keys
    requires forall k :: k in keys ==> m1[k] == m2[k]
    ensures Total(m1, keys) == Total(m2, keys)
    decreases keys
  {
    if keys != {} {
      var k :| k in keys;
      TotalRemove(m1, keys, k);
      TotalRemove(m2, keys, k);
      TotalAgree(m1, m2, keys - {k});
    }
  }

  lemma MapTotalBump(m: map<string, nat>, v: string)
    ensures MapTotal(m[v := (if v in m then m[v] else 0) + 1]) == MapTotal(m) + 1
  {
    var m' := m[v := (if v in m then m[v] else 0) + 1];
    if v in m {
      assert m'.Keys == m.Keys;
      TotalRemove(m', m.Keys, v);
      TotalRemove(m, m.Keys, v);
      TotalAgree(m, m', m.Keys - {v});
    } else {
      assert m'.Keys == m.Keys + {v};
      TotalRemove(m', m'.Keys, v);
      assert m'.Keys - {v} == m.Keys;
      TotalAgree(m, m', m.Keys);
    }
  }

  /** For one trait type, the counts of all emitted values (the sentinel
      included) add up to the number of NFTs: each NFT adds exactly one to
      exactly one value. */
  lemma {:induction false} CountsSumToSize(lists: seq<seq<Trait>>, key: string)
    ensures MapTotal(CountDict(lists, key)) == |lists|
  {
    if lists != [] {
      CountsSumToSize(lists[..|lists| - 1], key);
      MapTotalBump(CountDict(lists[..|lists| - 1], key), ValueOf(lists[|lists| - 1], key));
    }
  }

  lemma {:induction false} CountOfBound(lists: seq<seq<Trait>>, key: string, v: string)
    ensures CountOf(lists, key, v) <= |lists|
  {
    if lists != [] { CountOfBound(lists[..|lists| - 1], key, v); }
  }

  /** A share of at least one NFT out of `n` lies in (0, 100]. */
  lemma ShareBounds(count: nat, n: nat)
    requires 1 <= count <= n
    ensures 0.0 < Share(count, n) <= 100.0
  {
    var c, m := count as real, n as real;
    assert Share(count, n) * m == c * 100.0;
    assert c * 100.0 <= m * 100.0;
  }

  /** What an emitted attribute states: its values are exactly the values the
      NFTs carry for the type (the sentinel among them when an NFT has no
      entry of that type), each with the number of NFTs carrying it, at least
      one, and with share `count * 100 / n`, which lies in (0, 100]. */
  lemma AttributeStatistics(lists: seq<seq<Trait>>, key: string)
    requires |lists| > 0
    ensures var vs := ValueStats(lists, key);
      && (forall v :: v in vs <==> exists i :: 0 <= i < |lists| && ValueOf(lists[i], key) == v)
      && (forall v :: v in vs ==>
            && vs[v].count == CountOf(lists, key, v)
            && 1 <= vs[v].count <= |lists|
            && vs[v].share == Share(vs[v].count, |lists|)
            && 0.0 < vs[v].share <= 100.0)
  {
    var vs := ValueStats(lists, key);
    CountDictMeaning(lists, key);
    forall v | v in vs ensures 1 <= vs[v].count <= |lists| && 0.0 < vs[v].share <= 100.0 {
      CountOfBound(lists, key, v);
      ShareBounds(vs[v].count, |lists|);
    }
  }

  /** The counts of all emitted values of a type (the sentinel included) add
      up to the number of NFTs: each NFT adds one to exactly one value. */
  lemma CountsSumToCollectionSize(lists: seq<seq<Trait>>, key: string)
    requires |lists| > 0
    ensures var vs := ValueStats(lists, key);
      MapTotal(map v | v in vs :: vs[v].count) == |lists|
  {
    var vs := ValueStats(lists, key);
    CountsSumToSize(lists, key);
    assert (map v | v in vs :: vs[v].count) == CountDict(lists, key);
  }

  /** When no NFT carries the sentinel as a real value, `'[none]'` is emitted
      for a type exactly when some NFT has no entry of that type. */
  lemma NoneMeansMissing(lists: seq<seq<Trait>>, key: string)
    requires |lists| > 0
    requires forall i, j :: 0 <= i < |lists| && 0 <= j < |lists[i]| ==> lists[i][j].value != NoneValue
    ensures NoneValue in ValueStats(lists, key) <==> exists i :: 0 <= i < |lists| && Lacks(lists[i], key)
  {
    CountDictMeaning(lists, key);
    if NoneValue in ValueStats(lists, key) {
      var i :| 0 <= i < |lists| && ValueOf(lists[i], key) == NoneValue;
      ValueOfFromEntries(lists[i], key);
      assert Lacks(lists[i], key);
    }
    if exists i :: 0 <= i < |lists| && Lacks(lists[i], key) {
      var i :| 0 <= i < |lists| && Lacks(lists[i], key);
      ValueOfIsFirstEntry(lists[i], key);
      assert ValueOf(lists[i], key) == NoneValue;
    }
  }

  /** The contributed value is the sentinel or the value of some entry of
      that type. */
  lemma {:induction false} ValueOfFromEntries(attrs: seq<Trait>, key: string)
    ensures ValueOf(attrs, key) == NoneValue ||
      exists j :: 0 <= j < |attrs| && attrs[j].traitType == key && attrs[j].value == ValueOf(attrs, key)
    ensures (exists j :: 0 <= j < |attrs| && attrs[j].traitType == key) ==>
      exists j :: 0 <= j < |attrs| && attrs[j].traitType == key && attrs[j].value == ValueOf(attrs, key)
  {
    if attrs != [] && attrs[0].traitType != key {
      ValueOfFromEntries(attrs[1..], key);
      if exists j :: 0 <= j < |attrs| && attrs[j].traitType == key {
        var j :| 0 <= j < |attrs| && attrs[j].traitType == key;
        assert attrs[1..][j - 1] == attrs[j];
      }
      if exists j :: 0 <= j < |attrs[1..]| && attrs[1..][j].traitType == key && attrs[1..][j].value == ValueOf(attrs, key) {
        var j :| 0 <= j < |attrs[1..]| && attrs[1..][j].traitType == key && attrs[1..][j].value == ValueOf(attrs, key);
        assert attrs[j + 1] == attrs[1..][j];
      }
    }
  }

  // =======================================================================
  // parseNftFromMasterConfig

  /** The NFT record one mint instruction describes. */
  function NftOf(nftAddress: string, inst: Instruction): Nft {
    Nft(nftAddress, inst.tokenId, Some(inst.name), inst.description, inst.imageUri,
        None, None, None, inst.attributes, None, None)
  }

  /** One NFT per instruction, in order, with the token id, trait list, image
      URI, name and description copied and the contract set to `nftAddress`;
      nothing else is filled in. */
  function NftsFromInstructions(nftAddress: string, instructions: seq<Instruction>): (nfts: seq<Nft>)
    ensures |nfts| == |instructions|
    ensures forall i :: 0 <= i < |nfts| ==>
      && nfts[i].nftContract == nftAddress
      && nfts[i].tokenId == instructions[i].tokenId
      && nfts[i].attributes == instructions[i].attributes
      && nfts[i].image == instructions[i].imageUri
      && nfts[i].name == Some(instructions[i].name)
      && nfts[i].description == instructions[i].description
      && nfts[i].rarities.None? && nfts[i].height.None?
  {
    seq(|instructions|, i requires 0 <= i < |instructions| => NftOf(nftAddress, instructions[i]))
  }

  /** `parseNftFromMasterConfig`: a new collection whose name is the `name`
      argument and whose symbol is the `description` argument. */
  method ParseNftFromMasterConfig(nftAddress: string, instructions: seq<Instruction>,
                                  name: Option<string>, description: Option<string>)
    returns (c: Collection)
    ensures fresh(c)
    ensures c.nftContract == nftAddress && c.name == name && c.symbol == description
    ensures c.nfts == NftsFromInstructions(nftAddress, instructions)
    ensures c.collectionAttributes.None?
  {
    c := new Collection(nftAddress, name, description, NftsFromInstructions(nftAddress, instructions));
  }

  // =======================================================================
  // bulkMint

  /** The `mint` execute message for one token. */
  datatype MintMsg = MintMsg(
    tokenId: string,
    owner: string,
    tokenUri: string,
    image: Option<string>,
    description: Option<string>,
    name: string,
    attributes: Option<seq<Trait>>)

  function MintMsgOf(inst: Instruction): MintMsg {
    MintMsg(inst.tokenId, inst.owner, "", inst.imageUri, inst.description, inst.name, inst.attributes)
  }

  /** One mint message per instruction, in instruction order. */
  function MintMsgs(instructions: seq<Instruction>): (msgs: seq<MintMsg>)
    ensures |msgs| == |instructions|
    ensures forall i :: 0 <= i < |msgs| ==>
      && msgs[i].tokenId == instructions[i].tokenId && msgs[i].owner == instructions[i].owner
      && msgs[i].tokenUri == "" && msgs[i].image == instructions[i].imageUri
      && msgs[i].name == instructions[i].name && msgs[i].attributes == instructions[i].attributes
      && msgs[i].description == instructions[i].description
  {
    seq(|instructions|, i requires 0 <= i < |instructions| => MintMsgOf(instructions[i]))
  }

  /** Submits every message of a batch in one transaction to the given
      contract (undefined when the configuration has no collection). */
  type BatchExecutor = (Option<string>, seq<MintMsg>) -> Result<TxResponse, string>

  /** What `bulkMint` returns: the failure of the transaction, or one
      receipt per instruction. */
  function BulkMintOf(addresses: Records.Obj<string>, instructions: seq<Instruction>, execute: BatchExecutor)
    : Result<seq<NftTx>, string>
  {
    match execute(Records.Get(addresses, "collection"), MintMsgs(instructions))
    case Err(e) => Err(e)
    case Ok(resp) =>
      Ok(seq(|instructions|, i requires 0 <= i < |instructions| =>
               NftTx(instructions[i].tokenId, resp.txhash, resp.height, i, resp.timestamp)))
  }

  /** `bulkMint`: one transaction holding one mint message per instruction;
      on success one receipt per instruction, in order, with the message's
      index in the transaction and the transaction's hash, height and time. */
  method BulkMint(addresses: Records.Obj<string>, instructions: seq<Instruction>, execute: BatchExecutor)
    returns (r: Result<seq<NftTx>, string>)
    ensures execute(Records.Get(addresses, "collection"), MintMsgs(instructions)).Err? <==> r.Err?
    ensures r.Err? ==> r == Err(execute(Records.Get(addresses, "collection"), MintMsgs(instructions)).error)
    ensures r.Ok? ==>
      var resp := execute(Records.Get(addresses, "collection"), MintMsgs(instructions)).value;
      && |r.value| == |instructions|
      && forall i :: 0 <= i < |instructions| ==>
           r.value[i] == NftTx(instructions[i].tokenId, resp.txhash, resp.height, i, resp.timestamp)
    ensures r == BulkMintOf(addresses, instructions, execute)
  {
    var candyAddress := Records.Get(addresses, "collection");
    var msgs := MintMsgs(instructions);
    var response := execute(candyAddress, msgs);
    if response.Err? {
      return Err(response.error);
    }
    var resp := response.value;
    var nfts: seq<NftTx> := [];
    var index := 0;
    while index < |instructions|
      invariant 0 <= index <= |instructions|
      invariant |nfts| == index
      invariant forall i :: 0 <= i < index ==>
        nfts[i] == NftTx(instructions[i].tokenId, resp.txhash, resp.height, i, resp.timestamp)
    {
      nfts := nfts + [NftTx(instructions[index].tokenId, resp.txhash, resp.height, index, resp.timestamp)];
      index := index + 1;
    }
    r := Ok(nfts);
    assert nfts == BulkMintOf(addresses, instructions, execute).value;
  }
}

/**
 * The three threshold recommendations of the database analysis
 * (redisinsight/api/src/modules/recommendation/providers/recommendation.provider.ts).
 * Each is a name and whether it applies; every threshold is strict.
 */
module Recommendation {
  import opened Js
  import opened Seqs

  const MinNumberOfCachedScripts: int := 10
  const MaxHashLength: int := 5000
  const MaxDatabaseTotal: int := 1_000_000

  const LuaScriptName: string := "luaScript"
  const BigHashesName: string := "bigHashes"
  const UseSmallerKeysName: string := "useSmallerKeys"

  datatype Recommendation = Recommendation(name: string, isActual: bool)

  datatype RedisDataType = StringType | Hash | List | Set | ZSet | Stream | OtherType(name: string)

  /** A key found by the analysis scan. */
  datatype Key = Key(name: string, keyType: RedisDataType, memory: int, length: int, ttl: int)

  /**
   * `determineLuaScriptRecommendation`, given the `memory.number_of_cached_scripts`
   * field of the parsed `INFO` reply (`None` when it is missing).
   */
  function DetermineLuaScriptRecommendation(cachedScripts: Option<string>): (r: Recommendation)
    ensures r.name == LuaScriptName
  {
    var count := ParseIntOpt(cachedScripts);
    Recommendation(LuaScriptName, count.Some? && count.value > MinNumberOfCachedScripts)
  }

  /**
   * A count written in decimal triggers the recommendation exactly when it is
   * above ten; a missing count, one without any digit, and one starting with a
   * character `parseInt` cannot begin a number with never do.
   */
  lemma LuaScriptThreshold(count: nat, junk: string)
    ensures DetermineLuaScriptRecommendation(Some(NatToDecimal(count))).isActual <==> count > MinNumberOfCachedScripts
    ensures DetermineLuaScriptRecommendation(None).isActual == false
    ensures (forall i :: 0 <= i < |junk| ==> !IsDigit(junk[i]))
            ==> !DetermineLuaScriptRecommendation(Some(junk)).isActual
    ensures (junk == [] || (!IsDigit(junk[0]) && junk[0] != '-' && junk[0] != '+' && !IsJsSpace(junk[0])))
            ==> !DetermineLuaScriptRecommendation(Some(junk)).isActual
  {
    ParseIntOfDecimal(count, []);
    assert NatToDecimal(count) + [] == NatToDecimal(count);
    if forall i :: 0 <= i < |junk| ==> !IsDigit(junk[i]) {
      ParseIntWithoutDigits(junk);
    }
  }

  predicate IsBigHash(key: Key) {
    key.keyType == Hash && key.length > MaxHashLength
  }

  /** `determineBigHashesRecommendation`: some key is a hash longer than 5000. */
  function DetermineBigHashesRecommendation(keys: seq<Key>): (r: Recommendation)
    ensures r.name == BigHashesName
    ensures r.isActual <==> exists i :: 0 <= i < |keys| && IsBigHash(keys[i])
  {
    var bigHashes := Filter(keys, IsBigHash);
    assert |bigHashes| > 0 ==> bigHashes[0] in keys;
    Recommendation(BigHashesName, |bigHashes| > 0)
  }

  /** Keys of any other type never trigger it, however long; in particular no keys never do. */
  lemma NonHashKeysNeverBig(keys: seq<Key>)
    requires forall i :: 0 <= i < |keys| ==> keys[i].keyType != Hash
    ensures !DetermineBigHashesRecommendation(keys).isActual
  {
  }

  /** Exactly 5000 is not big, 5001 is. */
  lemma BigHashBoundary(name: string, memory: int, ttl: int)
    ensures !DetermineBigHashesRecommendation([Key(name, Hash, memory, MaxHashLength, ttl)]).isActual
    ensures DetermineBigHashesRecommendation([Key(name, Hash, memory, MaxHashLength + 1, ttl)]).isActual
  {
    var big := Key(name, Hash, memory, MaxHashLength + 1, ttl);
    assert [big][0] == big;
  }

  /** More keys can only make the recommendation apply, never withdraw it. */
  lemma BigHashesMonotone(keys: seq<Key>, more: seq<Key>)
    ensures DetermineBigHashesRecommendation(keys).isActual ==> DetermineBigHashesRecommendation(keys + more).isActual
  {
    if DetermineBigHashesRecommendation(keys).isActual {
      var i :| 0 <= i < |keys| && IsBigHash(keys[i]);
      assert (keys + more)[i] == keys[i];
    }
  }

  /** `determineBigTotalRecommendation`: more than a million keys. */
  function DetermineBigTotalRecommendation(total: int): (r: Recommendation)
    ensures r.name == UseSmallerKeysName
    ensures r.isActual <==> total > MaxDatabaseTotal
  {
    Recommendation(UseSmallerKeysName, total > MaxDatabaseTotal)
  }

  /** The three recommendations carry three distinct fixed names. */
  lemma RecommendationNamesDistinct(scripts: Option<string>, keys: seq<Key>, total: int)
    ensures DetermineLuaScriptRecommendation(scripts).name != DetermineBigHashesRecommendation(keys).name
    ensures DetermineBigHashesRecommendation(keys).name != DetermineBigTotalRecommendation(total).name
    ensures DetermineLuaScriptRecommendation(scripts).name != DetermineBigTotalRecommendation(total).name
  {
  }
}

/** The ad service (`src/backend/ad.rs`): a fixed table from category to
    ads, looked up by the request's context keys, with a fallback of random
    ads. The random generator is a parameter: `picks` are the indices it
    draws into the list of all ads, and `keyOrder` is the unspecified
    iteration order of the table's hash map. */
module AdService {
  import opened Results
  import opened SharedTypes

  const MAX_ADS_TO_SERVE: nat := 2

  type AdsMap = map<string, seq<Ad>>

  const Hairdryer := Ad("2ZYFJ3GM2N", "Hairdryer for sale. 50% off.")
  const TankTop := Ad("66VCHSJNUP", "Tank top for sale. 20% off.")
  const CandleHolder := Ad("0PUK6V6EV0", "Candle holder for sale. 30% off.")
  const BambooGlassJar := Ad("9SIQT8TOJO", "Bamboo glass jar for sale. 10% off.")
  const Watch := Ad("1YMWWN1N4O", "Watch for sale. Buy one, get second kit for free.")
  const Mug := Ad("6E92ZMYYFZ", "Mug for sale. Buy two, get third one for free.")
  const Loafers := Ad("L9ECAV7KIM", "Loafers for sale. Buy one, get second one for free.")

  /** The table `AdService::new` builds. */
  function AdsTable(): AdsMap {
    map[
      "clothing" := [TankTop],
      "accessories" := [Watch],
      "footwear" := [Loafers],
      "hair" := [Hairdryer],
      "decor" := [CandleHolder],
      "kitchen" := [BambooGlassJar, Mug]
    ]
  }

  /** "kitchen" has two ads, jar then mug; every other category one. */
  lemma AdsTableShape()
    ensures AdsTable().Keys == {"clothing", "accessories", "footwear", "hair", "decor", "kitchen"}
    ensures GetAdsByCategory(AdsTable(), "kitchen") == [BambooGlassJar, Mug]
    ensures forall c :: c in AdsTable() && c != "kitchen" ==> |AdsTable()[c]| == 1
  {
  }

  /** `get_ads_by_category`. */
  function GetAdsByCategory(table: AdsMap, category: string): (r: seq<Ad>)
    ensures category !in table ==> r == []
    ensures category in table ==> r == table[category]
  {
    if category in table then table[category] else []
  }

  /** The ads of every context key, key after key (`flat_map`). */
  function AdsForKeys(table: AdsMap, keys: seq<string>): seq<Ad> {
    if |keys| == 0 then [] else GetAdsByCategory(table, keys[0]) + AdsForKeys(table, keys[1..])
  }

  /** Concatenation: the ads of `a + b` are the ads of `a` followed by those
      of `b`, duplicates kept. */
  lemma {:induction false} AdsForKeysAppend(table: AdsMap, a: seq<string>, b: seq<string>)
    ensures AdsForKeys(table, a + b) == AdsForKeys(table, a) + AdsForKeys(table, b)
    decreases |a|
  {
    if |a| == 0 {
      assert a + b == b;
    } else {
      assert (a + b)[0] == a[0];
      assert (a + b)[1..] == a[1..] + b;
      AdsForKeysAppend(table, a[1..], b);
      calc {
        AdsForKeys(table, a + b);
        GetAdsByCategory(table, a[0]) + AdsForKeys(table, a[1..] + b);
        GetAdsByCategory(table, a[0]) + (AdsForKeys(table, a[1..]) + AdsForKeys(table, b));
        AdsForKeys(table, a) + AdsForKeys(table, b);
      }
    }
  }

  /** An ad is served for the keys exactly when one of the keys is a known
      category listing it. */
  lemma {:induction false} AdsForKeysMembership(table: AdsMap, keys: seq<string>, ad: Ad)
    ensures ad in AdsForKeys(table, keys) <==>
              exists i :: 0 <= i < |keys| && keys[i] in table && ad in table[keys[i]]
    decreases |keys|
  {
    if |keys| > 0 {
      AdsForKeysMembership(table, keys[1..], ad);
      if ad in AdsForKeys(table, keys[1..]) {
        var i :| 0 <= i < |keys[1..]| && keys[1..][i] in table && ad in table[keys[1..][i]];
        assert keys[i + 1] == keys[1..][i];
      }
      if exists i :: 0 <= i < |keys| && keys[i] in table && ad in table[keys[i]] {
        var i :| 0 <= i < |keys| && keys[i] in table && ad in table[keys[i]];
        if i > 0 {
          assert keys[1..][i - 1] == keys[i];
        }
      }
    }
  }

  /** The ads of all categories, in the iteration order `keyOrder`. */
  function AllAds(table: AdsMap, keyOrder: seq<string>): seq<Ad> {
    AdsForKeys(table, keyOrder)
  }

  /** The ad appears under some category of the table. */
  predicate Listed(table: AdsMap, ad: Ad) {
    exists c :: c in table && ad in table[c]
  }

  /** `get_random_ads`: `MAX_ADS_TO_SERVE` draws, with repetition, from the
      ads of all categories. */
  function GetRandomAds(table: AdsMap, keyOrder: seq<string>, picks: seq<nat>): (r: seq<Ad>)
    requires Enumerates(keyOrder, table.Keys)
    requires |picks| == MAX_ADS_TO_SERVE
    requires forall i :: 0 <= i < |picks| ==> picks[i] < |AllAds(table, keyOrder)|
    ensures |r| == MAX_ADS_TO_SERVE
    ensures forall i :: 0 <= i < |r| ==> Listed(table, r[i])
  {
    var all := AllAds(table, keyOrder);
    var drawn := seq(|picks|, i requires 0 <= i < |picks| => all[picks[i]]);
    forall i | 0 <= i < |drawn|
      ensures Listed(table, drawn[i])
    {
      assert drawn[i] in all;
      AdsForKeysMembership(table, keyOrder, drawn[i]);
      var j :| 0 <= j < |keyOrder| && keyOrder[j] in table && drawn[i] in table[keyOrder[j]];
    }
    drawn
  }

  /** `get_ads`: the ads of the context keys, or random ads when there are
      no keys or the keys name no known category. The source always answers
      `Ok`. */
  function GetAds(table: AdsMap, contextKeys: seq<string>, keyOrder: seq<string>, picks: seq<nat>): (r: Result<seq<Ad>, ()>)
    requires Enumerates(keyOrder, table.Keys)
    requires |picks| == MAX_ADS_TO_SERVE
    requires forall i :: 0 <= i < |picks| ==> picks[i] < |AllAds(table, keyOrder)|
    ensures r.Success? && |r.value| > 0
    ensures |contextKeys| > 0 && |AdsForKeys(table, contextKeys)| > 0 ==> r.value == AdsForKeys(table, contextKeys)
    ensures |contextKeys| == 0 || |AdsForKeys(table, contextKeys)| == 0 ==>
              r.value == GetRandomAds(table, keyOrder, picks)
  {
    var ads := if |contextKeys| > 0 then AdsForKeys(table, contextKeys) else GetRandomAds(table, keyOrder, picks);
    var ads := if |ads| == 0 then GetRandomAds(table, keyOrder, picks) else ads;
    Success(ads)
  }

  /** The built-in table gives the random draw something to choose from,
      whatever its iteration order, so `get_ads` can always answer. */
  lemma AllAdsOfTableNonEmpty(keyOrder: seq<string>)
    requires Enumerates(keyOrder, AdsTable().Keys)
    ensures BambooGlassJar in AllAds(AdsTable(), keyOrder)
    ensures |AllAds(AdsTable(), keyOrder)| > 0
  {
    assert "kitchen" in keyOrder;
    var i :| 0 <= i < |keyOrder| && keyOrder[i] == "kitchen";
    AdsForKeysMembership(AdsTable(), keyOrder, BambooGlassJar);
  }
}

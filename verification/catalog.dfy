/** The product catalog (`src/backend/productcatalog.rs`): listing, lookup by
    id and case-insensitive substring search over a fixed product list.
    Lowercasing is restricted to ASCII letters. */
module ProductCatalog {
  import opened Results
  import opened SharedTypes

  datatype CatalogError = NoSuchProduct(id: string)

  /** ASCII lowercase of one character. */
  function LowerChar(c: char): char {
    if 'A' <= c <= 'Z' then (c as int + 32) as char else c
  }

  /** `to_lowercase`, on ASCII letters. */
  function ToLower(s: string): (r: string)
    ensures |r| == |s|
    ensures forall i :: 0 <= i < |s| ==> r[i] == LowerChar(s[i])
  {
    seq(|s|, i requires 0 <= i < |s| => LowerChar(s[i]))
  }

  /** Lowercasing twice is lowercasing once. */
  lemma ToLowerIdempotent(s: string)
    ensures ToLower(ToLower(s)) == ToLower(s)
  {
  }

  /** `str::contains`, checked position by position. */
  predicate Contains(haystack: string, needle: string)
    decreases |haystack|
  {
    needle <= haystack || (|haystack| > 0 && Contains(haystack[1..], needle))
  }

  /** `needle` occurs in `haystack` starting at offset `i`. */
  predicate OccursAt(haystack: string, needle: string, i: int) {
    0 <= i <= |haystack| - |needle| && haystack[i..i + |needle|] == needle
  }

  /** `Contains` holds exactly when the needle occurs at some offset. */
  lemma {:induction false} ContainsIffOccurs(haystack: string, needle: string)
    ensures Contains(haystack, needle) <==> exists i :: OccursAt(haystack, needle, i)
    decreases |haystack|
  {
    if needle <= haystack {
      assert OccursAt(haystack, needle, 0);
    } else if |haystack| > 0 {
      ContainsIffOccurs(haystack[1..], needle);
      if exists i :: OccursAt(haystack, needle, i) {
        var i :| OccursAt(haystack, needle, i);
        assert OccursAt(haystack, needle, 0) ==> needle <= haystack;
        assert OccursAt(haystack[1..], needle, i - 1) by {
          assert haystack[1..][i - 1..i - 1 + |needle|] == haystack[i..i + |needle|];
        }
      }
      if Contains(haystack[1..], needle) {
        var i :| OccursAt(haystack[1..], needle, i);
        assert OccursAt(haystack, needle, i + 1) by {
          assert haystack[1..][i..i + |needle|] == haystack[i + 1..i + 1 + |needle|];
        }
      }
    }
  }

  /** The empty query occurs in every text. */
  lemma ContainsEmpty(haystack: string)
    ensures Contains(haystack, "")
  {
  }

  /** The search predicate, for a query that is already lowercased. */
  predicate Matches(p: Product, loweredQuery: string) {
    Contains(ToLower(p.name), loweredQuery) || Contains(ToLower(p.description), loweredQuery)
  }

  /** `xs` can be obtained from `ys` by deleting elements. */
  predicate IsSubsequence<T(==)>(xs: seq<T>, ys: seq<T>)
    decreases |ys|
  {
    || |xs| == 0
    || (&& |ys| > 0
        && ((xs[0] == ys[0] && IsSubsequence(xs[1..], ys[1..])) || IsSubsequence(xs, ys[1..])))
  }

  /** `list_products`: the whole catalog, in stored order. */
  function ListProducts(catalog: seq<Product>): (r: seq<Product>)
    ensures r == catalog
  {
    catalog
  }

  /** `get_product`: the first product with the id; the source panics with
      "no such product with ID" when there is none. */
  function GetProduct(catalog: seq<Product>, id: string): (r: Result<Product, CatalogError>)
    ensures r.Failure? <==> forall i :: 0 <= i < |catalog| ==> catalog[i].id != id
    ensures r.Failure? ==> r.error == NoSuchProduct(id)
    ensures r.Success? ==>
              exists i :: 0 <= i < |catalog| && catalog[i] == r.value && r.value.id == id
                          && forall j :: 0 <= j < i ==> catalog[j].id != id
    decreases |catalog|
  {
    if |catalog| == 0 then
      Failure(NoSuchProduct(id))
    else if catalog[0].id == id then
      Success(catalog[0])
    else
      var r := GetProduct(catalog[1..], id);
      assert r.Success? ==> exists i :: 0 <= i < |catalog| && catalog[i] == r.value && r.value.id == id
                                       && forall j :: 0 <= j < i ==> catalog[j].id != id by {
        if r.Success? {
          var k :| 0 <= k < |catalog[1..]| && catalog[1..][k] == r.value && r.value.id == id
                   && forall j :: 0 <= j < k ==> catalog[1..][j].id != id;
          assert catalog[k + 1] == r.value;
          forall j | 0 <= j < k + 1
            ensures catalog[j].id != id
          {
            if j > 0 {
              assert catalog[j] == catalog[1..][j - 1];
            }
          }
        }
      }
      assert r.Failure? ==> forall i :: 0 <= i < |catalog| ==> catalog[i].id != id by {
        if r.Failure? {
          forall i | 0 <= i < |catalog|
            ensures catalog[i].id != id
          {
            if i > 0 {
              assert catalog[i] == catalog[1..][i - 1];
            }
          }
        }
      }
      r
  }

  /** The products matching an already lowercased query, in catalog order. */
  function Filter(catalog: seq<Product>, loweredQuery: string): (r: seq<Product>)
    ensures IsSubsequence(r, catalog)
    ensures forall p :: p in r <==> p in catalog && Matches(p, loweredQuery)
    ensures forall p :: multiset(r)[p] == if Matches(p, loweredQuery) then multiset(catalog)[p] else 0
    decreases |catalog|
  {
    if |catalog| == 0 then
      []
    else
      var rest := Filter(catalog[1..], loweredQuery);
      assert forall p :: p in catalog <==> p == catalog[0] || p in catalog[1..];
      assert catalog == [catalog[0]] + catalog[1..];
      assert multiset(catalog) == multiset{catalog[0]} + multiset(catalog[1..]);
      if Matches(catalog[0], loweredQuery) then
        assert ([catalog[0]] + rest)[1..] == rest;
        [catalog[0]] + rest
      else
        rest
  }

  /** `search_products`: the products whose lowercased name or description
      contains the lowercased query, in catalog order. */
  function SearchProducts(catalog: seq<Product>, query: string): (r: seq<Product>)
    ensures IsSubsequence(r, catalog)
    ensures forall p :: p in r <==> p in catalog && Matches(p, ToLower(query))
    ensures forall p :: multiset(r)[p] == if Matches(p, ToLower(query)) then multiset(catalog)[p] else 0
  {
    Filter(catalog, ToLower(query))
  }

  /** The empty query returns the whole catalog. */
  lemma {:induction false} SearchEmptyQueryListsAll(catalog: seq<Product>)
    ensures SearchProducts(catalog, "") == ListProducts(catalog)
  {
    assert ToLower("") == "";
    FilterAllMatch(catalog, "");
  }

  /** A filter every product passes keeps the whole catalog. */
  lemma {:induction false} FilterAllMatch(catalog: seq<Product>, loweredQuery: string)
    requires forall p :: p in catalog ==> Matches(p, loweredQuery)
    ensures Filter(catalog, loweredQuery) == catalog
    decreases |catalog|
  {
    if |catalog| > 0 {
      assert catalog[0] in catalog;
      FilterAllMatch(catalog[1..], loweredQuery);
    }
  }

  /** Search ignores the case of the query. */
  lemma SearchIgnoresQueryCase(catalog: seq<Product>, query: string)
    ensures SearchProducts(catalog, query) == SearchProducts(catalog, ToLower(query))
  {
    ToLowerIdempotent(query);
  }
}

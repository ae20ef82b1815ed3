/**
 * The product catalogue page (street-share-hub-main/src/pages/Products.tsx):
 * the fetched products and the search / category filter over them.
 */
module ProductsPage {
  import opened Seqs
  import opened Types

  /** ASCII lower-casing of one character. */
  function LowerChar(c: char): char {
    if 'A' <= c <= 'Z' then (c as int + 32) as char else c
  }

  /** `toLowerCase`, restricted to ASCII letters. */
  function Lower(s: string): (r: string)
    ensures |r| == |s|
    ensures forall k :: 0 <= k < |s| ==> r[k] == LowerChar(s[k])
    ensures forall k :: 0 <= k < |r| ==> !('A' <= r[k] <= 'Z')
    ensures forall k :: 0 <= k < |s| && !('A' <= s[k] <= 'Z') ==> r[k] == s[k]
  {
    seq(|s|, k requires 0 <= k < |s| => LowerChar(s[k]))
  }

  /** Lower-casing twice is lower-casing once. */
  lemma LowerIdempotent(s: string)
    ensures Lower(Lower(s)) == Lower(s)
  {
  }

  /** `t` occurs in `s` starting at position `i`. */
  predicate OccursAt(s: string, t: string, i: nat) {
    i + |t| <= |s| && s[i..i + |t|] == t
  }

  /** `s.includes(t)`. */
  predicate Includes(s: string, t: string)
    decreases |s|
  {
    |t| <= |s| && (s[..|t|] == t || (s != [] && Includes(s[1..], t)))
  }

  lemma {:induction false} IncludesIffOccurs(s: string, t: string)
    ensures Includes(s, t) <==> exists i: nat :: OccursAt(s, t, i)
    decreases |s|
  {
    if |t| <= |s| && s != [] {
      IncludesIffOccurs(s[1..], t);
      if s[..|t|] == t {
        assert OccursAt(s, t, 0);
      }
      if exists i: nat :: OccursAt(s[1..], t, i) {
        var i: nat :| OccursAt(s[1..], t, i);
        assert s[i + 1..i + 1 + |t|] == s[1..][i..i + |t|];
        assert OccursAt(s, t, i + 1);
      }
      if exists i: nat :: OccursAt(s, t, i) {
        var i: nat :| OccursAt(s, t, i);
        if i > 0 {
          assert s[1..][i - 1..i - 1 + |t|] == s[i..i + |t|];
          assert OccursAt(s[1..], t, i - 1);
        } else {
          assert s[..|t|] == s[0..|t|];
        }
      }
    } else if |t| <= |s| {
      assert OccursAt(s, t, 0);
    } else {
      assert forall i: nat :: !OccursAt(s, t, i);
    }
  }

  /** The empty string is included in every string. */
  lemma IncludesEmpty(s: string)
    ensures Includes(s, "")
  {
    assert OccursAt(s, "", 0);
    IncludesIffOccurs(s, "");
  }

  /** `matchesSearch`: the name or the category contains the term, ignoring case. */
  predicate MatchesSearch(p: Product, term: string) {
    Includes(Lower(p.name), Lower(term)) || Includes(Lower(p.category), Lower(term))
  }

  /** `matchesCategory`: the "All" entry, or the exact category. */
  predicate MatchesCategory(p: Product, category: string) {
    category == "All" || p.category == category
  }

  function Shown(term: string, category: string): Product -> bool {
    (p: Product) => MatchesSearch(p, term) && MatchesCategory(p, category)
  }

  /** `filteredProducts`. */
  function FilteredProducts(products: seq<Product>, term: string, category: string): seq<Product> {
    Filter(Shown(term, category), products)
  }

  /** A product is listed iff it matches both the search and the category, and the list keeps the catalogue order. */
  lemma FilteredMembers(products: seq<Product>, term: string, category: string, p: Product)
    ensures p in FilteredProducts(products, term, category) <==>
              p in products && MatchesSearch(p, term) && MatchesCategory(p, category)
    ensures IsSubsequence(FilteredProducts(products, term, category), products)
  {
    FilterMembership(Shown(term, category), products, p);
    FilterIsSubsequence(Shown(term, category), products);
  }

  /** With an empty search and "All" selected, the whole catalogue is listed. */
  lemma EmptySearchShowsAll(products: seq<Product>)
    ensures FilteredProducts(products, "", "All") == products
  {
    forall k | 0 <= k < |products| ensures Shown("", "All")(products[k]) {
      IncludesEmpty(Lower(products[k].name));
    }
    FilterKeepsAll(Shown("", "All"), products);
  }

  /** The search ignores case: any two spellings that lower-case alike list the same products. */
  lemma SearchIgnoresCase(products: seq<Product>, term1: string, term2: string, category: string)
    requires Lower(term1) == Lower(term2)
    ensures FilteredProducts(products, term1, category) == FilteredProducts(products, term2, category)
  {
    FilterAgreeing(Shown(term1, category), Shown(term2, category), products);
  }

  /**
   * The category choice does not ignore case: every listed product has
   * exactly the chosen category, so "vegetables" would list no product of
   * category "Vegetables".
   */
  lemma CategoryIsExact(products: seq<Product>, term: string, category: string, p: Product)
    requires category != "All"
    requires p in FilteredProducts(products, term, category)
    ensures p.category == category
  {
    FilterMembership(Shown(term, category), products, p);
  }


  /** The `products` state after `fetchProducts`: the response, or an empty list on error. */
  function ProductsAfterFetch(response: Loaded<seq<Product>>): (products: seq<Product>)
    ensures response.LoadFailed? ==> products == []
    ensures response.Loaded? ==> products == response.body
  {
    match response
    case Loaded(body) => body
    case LoadFailed => []
  }

  /** "No products found" is shown once loading is over and nothing passes the filter. */
  predicate ShowsNoProducts(filtered: seq<Product>, loading: bool) {
    |filtered| == 0 && !loading
  }

  /** After a failed fetch the page says "No products found", whatever the search and category. */
  lemma FailedFetchShowsNoProducts(term: string, category: string)
    ensures ShowsNoProducts(FilteredProducts(ProductsAfterFetch(LoadFailed), term, category), false)
  {
  }
}

/** The two home pages: the shop's, with a name search
    (src/pages/Homepage.jsx), and the craft app's (tribal-craft/src/pages/Homepage.jsx). */
module Homepages {
  import opened Wrappers
  import opened Text
  import opened Seqs
  import opened Catalog

  /** `products.filter(p => p.approved)`. */
  function Approved(products: seq<Product>): (r: seq<Product>)
    ensures forall i :: 0 <= i < |r| ==> r[i] in products && r[i].approved
    ensures forall i :: 0 <= i < |products| && products[i].approved ==> products[i] in r
    ensures IsSubsequence(r, products)
    ensures forall i :: 0 <= i < |products| ==>
      multiset(r)[products[i]] == if products[i].approved then multiset(products)[products[i]] else 0
  {
    FilterCounts(products, (p: Product) => p.approved);
    Filter(products, (p: Product) => p.approved)
  }

  /** The search test: the lower-cased name contains the lower-cased term. */
  predicate MatchesSearch(p: Product, term: string) {
    Contains(Lower(p.name), Lower(term))
  }

  /** The shop's filtered list: the approved products, then those of them
      matching the search term. */
  function SearchResults(products: seq<Product>, term: string): (r: seq<Product>)
    ensures forall i :: 0 <= i < |r| ==> r[i] in products && r[i].approved && MatchesSearch(r[i], term)
    ensures forall i :: 0 <= i < |products| && products[i].approved && MatchesSearch(products[i], term) ==> products[i] in r
    ensures r == [] <==> forall i :: 0 <= i < |products| ==> !(products[i].approved && MatchesSearch(products[i], term))
    ensures forall i :: 0 <= i < |products| ==>
      multiset(r)[products[i]] == if products[i].approved && MatchesSearch(products[i], term) then multiset(products)[products[i]] else 0
  {
    var approved := Approved(products);
    var r := Filter(approved, (p: Product) => MatchesSearch(p, term));
    var both := (p: Product) => p.approved && MatchesSearch(p, term);
    FilterTwice(products, (p: Product) => p.approved, (p: Product) => MatchesSearch(p, term), both);
    FilterCounts(products, both);
    assert forall i :: 0 <= i < |products| && products[i].approved ==> products[i] in approved;
    assert r == [] ==> forall i :: 0 <= i < |approved| ==> !MatchesSearch(approved[i], term);
    r
  }

  /** The two chained filters are one filter by both tests, so the results
      keep the products' order. */
  lemma SearchIsOneFilter(products: seq<Product>, term: string)
    ensures SearchResults(products, term) == Filter(products, (p: Product) => p.approved && MatchesSearch(p, term))
    ensures IsSubsequence(SearchResults(products, term), products)
  {
    FilterTwice(products, (p: Product) => p.approved, (p: Product) => MatchesSearch(p, term),
      (p: Product) => p.approved && MatchesSearch(p, term));
  }

  /** The search ignores case on both sides: changing the case of a
      product's name or of the search term never changes whether it
      matches, so the results for a term are those for its upper- or
      lower-cased form. */
  lemma SearchIgnoresCase(products: seq<Product>, term: string)
    ensures forall p: Product :: MatchesSearch(p.(name := Upper(p.name)), term) == MatchesSearch(p, term)
    ensures forall p: Product :: MatchesSearch(p, Upper(term)) == MatchesSearch(p, term)
    ensures SearchResults(products, Upper(term)) == SearchResults(products, term)
    ensures SearchResults(products, Lower(term)) == SearchResults(products, term)
  {
    CaseFolding(term);
    forall p: Product ensures MatchesSearch(p.(name := Upper(p.name)), term) == MatchesSearch(p, term) {
      CaseFolding(p.name);
    }
    var both := (p: Product) => p.approved && MatchesSearch(p, term);
    FilterTwice(products, (p: Product) => p.approved, (p: Product) => MatchesSearch(p, term), both);
    FilterTwice(products, (p: Product) => p.approved, (p: Product) => MatchesSearch(p, Upper(term)), both);
    FilterTwice(products, (p: Product) => p.approved, (p: Product) => MatchesSearch(p, Lower(term)), both);
  }

  /** With an empty search box every approved product is shown. */
  lemma {:induction false} EmptySearchShowsApproved(products: seq<Product>)
    ensures SearchResults(products, "") == Approved(products)
  {
    var approved := Approved(products);
    forall i | 0 <= i < |approved| ensures MatchesSearch(approved[i], "") {
      assert Lower(approved[i].name)[0..][..0] == Lower("");
    }
    FilterKeepsAll(approved, (p: Product) => MatchesSearch(p, ""));
  }

  /** What the shop's home page shows below the search box. */
  datatype HomeView = ProductGrid(cards: seq<Product>) | NoMatches

  function ShopHomepage(products: Option<seq<Product>>, term: string): (v: HomeView)
    ensures v.NoMatches? <==> forall i :: 0 <= i < |products.GetOr([])| ==>
                                !(products.GetOr([])[i].approved && MatchesSearch(products.GetOr([])[i], term))
    ensures v.ProductGrid? ==> v.cards == SearchResults(products.GetOr([]), term) && v.cards != []
  {
    var shown := SearchResults(products.GetOr([]), term);
    if |shown| > 0 then ProductGrid(shown) else NoMatches
  }

  /** What the craft app's home page shows: every approved product, or the
      empty state. An absent product list counts as empty. */
  function CraftHomepage(products: Option<seq<Product>>): (v: HomeView)
    ensures products.None? ==> v == NoMatches
    ensures v.NoMatches? <==> forall i :: 0 <= i < |products.GetOr([])| ==> !products.GetOr([])[i].approved
    ensures v.ProductGrid? ==> v.cards == Approved(products.GetOr([])) && v.cards != []
  {
    var approved := Approved(products.GetOr([]));
    assert approved == [] <==> forall i :: 0 <= i < |products.GetOr([])| ==> !products.GetOr([])[i].approved;
    if |approved| > 0 then ProductGrid(approved) else NoMatches
  }
}

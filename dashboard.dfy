/**
 * The catalog filter of DashboardComponent: `filteredProducts` and
 * `totalCount`, as pure functions of the current `products`, `searchQuery`
 * and `selectedCategoryId` values.
 */
module Dashboard {
  import opened Wrappers
  import opened Sequences
  import opened Models
  import opened Text

  /** The search term the filter compares against: lower-cased, then trimmed. */
  function SearchTerm(searchQuery: string): string {
    Trim(ToLower(searchQuery))
  }

  /**
   * The selection restricts the catalog only when it is truthy: neither
   * null nor the number 0.
   */
  predicate CategoryActive(selectedCategoryId: Option<int>) {
    selectedCategoryId.Some? && selectedCategoryId.value != 0
  }

  /** An empty term matches everything; otherwise the lower-cased name or the raw barcode must contain it. */
  predicate MatchesSearch(p: Product, term: string) {
    term == [] || Contains(ToLower(p.name), term) || Contains(p.barcode, term)
  }

  predicate MatchesCategory(p: Product, selectedCategoryId: Option<int>) {
    !CategoryActive(selectedCategoryId) || p.categoryId == selectedCategoryId.value
  }

  /** The predicate handed to `products.filter`. */
  predicate Matches(p: Product, term: string, selectedCategoryId: Option<int>) {
    MatchesSearch(p, term) && MatchesCategory(p, selectedCategoryId)
  }

  /** `products.filter(...)` with an already computed search term. */
  function FilterMatching(products: seq<Product>, term: string, selectedCategoryId: Option<int>): (r: seq<Product>)
    ensures |r| <= |products|
  {
    if products == [] then []
    else
      var rest := FilterMatching(products[1..], term, selectedCategoryId);
      if Matches(products[0], term, selectedCategoryId) then [products[0]] + rest else rest
  }

  /** Exactly the catalog's matching products survive the filter. */
  lemma {:induction false} FilterMatchingMembers(products: seq<Product>, term: string, selectedCategoryId: Option<int>)
    ensures forall p :: p in FilterMatching(products, term, selectedCategoryId) <==>
                        p in products && Matches(p, term, selectedCategoryId)
  {
    if products != [] {
      FilterMatchingMembers(products[1..], term, selectedCategoryId);
      assert products == [products[0]] + products[1..];
    }
  }

  /** `filteredProducts()`. */
  function FilteredProducts(products: seq<Product>, searchQuery: string, selectedCategoryId: Option<int>): seq<Product> {
    FilterMatching(products, SearchTerm(searchQuery), selectedCategoryId)
  }

  /** `filteredProducts()`: soundness and completeness with respect to the filter predicate. */
  lemma FilteredMembers(products: seq<Product>, searchQuery: string, selectedCategoryId: Option<int>)
    ensures forall p :: p in FilteredProducts(products, searchQuery, selectedCategoryId) <==>
                        p in products && Matches(p, SearchTerm(searchQuery), selectedCategoryId)
  {
    FilterMatchingMembers(products, SearchTerm(searchQuery), selectedCategoryId);
  }

  /**
   * `totalCount()`: the number of filtered products; zero exactly when no
   * product matches, the whole catalog size exactly when every product does.
   */
  function TotalCount(products: seq<Product>, searchQuery: string, selectedCategoryId: Option<int>): (r: nat)
    ensures r <= |products|
    ensures r == 0 <==> forall p :: p in products ==> !Matches(p, SearchTerm(searchQuery), selectedCategoryId)
    ensures r == |products| <==> forall p :: p in products ==> Matches(p, SearchTerm(searchQuery), selectedCategoryId)
  {
    FilterKeepsAllIff(products, SearchTerm(searchQuery), selectedCategoryId);
    FilteredMembers(products, searchQuery, selectedCategoryId);
    var shown := FilteredProducts(products, searchQuery, selectedCategoryId);
    assert shown != [] ==> shown[0] in shown;
    |shown|
  }

  /** The filter drops nothing exactly when every product matches. */
  lemma {:induction false} FilterKeepsAllIff(products: seq<Product>, term: string, selectedCategoryId: Option<int>)
    ensures |FilterMatching(products, term, selectedCategoryId)| == |products| <==>
            forall p :: p in products ==> Matches(p, term, selectedCategoryId)
    ensures (forall p :: p in products ==> Matches(p, term, selectedCategoryId)) ==>
            FilterMatching(products, term, selectedCategoryId) == products
  {
    if products != [] {
      FilterKeepsAllIff(products[1..], term, selectedCategoryId);
      assert products == [products[0]] + products[1..];
    }
  }

  /** The result keeps the products in their catalog order. */
  lemma {:induction false} FilteredIsSubsequence(products: seq<Product>, searchQuery: string, selectedCategoryId: Option<int>)
    ensures IsSubsequence(FilteredProducts(products, searchQuery, selectedCategoryId), products)
  {
    FilterMatchingIsSubsequence(products, SearchTerm(searchQuery), selectedCategoryId);
  }

  lemma {:induction false} FilterMatchingIsSubsequence(products: seq<Product>, term: string, selectedCategoryId: Option<int>)
    ensures IsSubsequence(FilterMatching(products, term, selectedCategoryId), products)
  {
    if products != [] {
      FilterMatchingIsSubsequence(products[1..], term, selectedCategoryId);
      var rest := FilterMatching(products[1..], term, selectedCategoryId);
      if Matches(products[0], term, selectedCategoryId) {
        assert ([products[0]] + rest)[1..] == rest;
      }
    }
  }

  /**
   * Each matching product appears as often as in the catalog, each other
   * product not at all; with `FilteredIsSubsequence` this pins the result down.
   */
  lemma {:induction false} FilteredMultiplicity(products: seq<Product>, searchQuery: string, selectedCategoryId: Option<int>, p: Product)
    ensures multiset(FilteredProducts(products, searchQuery, selectedCategoryId))[p] ==
            if Matches(p, SearchTerm(searchQuery), selectedCategoryId) then multiset(products)[p] else 0
  {
    FilterMatchingMultiplicity(products, SearchTerm(searchQuery), selectedCategoryId, p);
  }

  lemma {:induction false} FilterMatchingMultiplicity(products: seq<Product>, term: string, selectedCategoryId: Option<int>, p: Product)
    ensures multiset(FilterMatching(products, term, selectedCategoryId))[p] ==
            if Matches(p, term, selectedCategoryId) then multiset(products)[p] else 0
  {
    if products != [] {
      FilterMatchingMultiplicity(products[1..], term, selectedCategoryId, p);
      assert products == [products[0]] + products[1..];
    }
  }

  /**
   * With a blank search (the empty string included) and no category
   * selected, the whole catalog is shown, in order.
   */
  lemma NoFilterShowsAll(products: seq<Product>, searchQuery: string, selectedCategoryId: Option<int>)
    requires forall k :: 0 <= k < |searchQuery| ==> IsWhitespace(searchQuery[k])
    requires !CategoryActive(selectedCategoryId)
    ensures FilteredProducts(products, searchQuery, selectedCategoryId) == products
    ensures TotalCount(products, searchQuery, selectedCategoryId) == |products|
  {
    TrimLowerEmptyIff(searchQuery);
    FilterKeepsAllIff(products, SearchTerm(searchQuery), selectedCategoryId);
  }

  /** Selecting category 0 shows the same products as selecting none. */
  lemma ZeroCategoryMeansAll(products: seq<Product>, searchQuery: string)
    ensures FilteredProducts(products, searchQuery, Some(0)) == FilteredProducts(products, searchQuery, None)
  {
    ZeroCategoryFilter(products, SearchTerm(searchQuery));
  }

  lemma {:induction false} ZeroCategoryFilter(products: seq<Product>, term: string)
    ensures FilterMatching(products, term, Some(0)) == FilterMatching(products, term, None)
  {
    if products != [] {
      ZeroCategoryFilter(products[1..], term);
      assert Matches(products[0], term, Some(0)) == Matches(products[0], term, None);
    }
  }

  /**
   * With category c selected, the result holds exactly the catalog's
   * products of category c that match the search.
   */
  lemma CategorySelection(products: seq<Product>, searchQuery: string, c: int)
    requires c != 0
    ensures forall p :: p in FilteredProducts(products, searchQuery, Some(c)) ==> p.categoryId == c
    ensures forall p :: p in products && p.categoryId == c && MatchesSearch(p, SearchTerm(searchQuery)) ==>
                        p in FilteredProducts(products, searchQuery, Some(c))
  {
    FilteredMembers(products, searchQuery, Some(c));
  }

  /**
   * A name match alone, or a barcode match alone, puts a product of an
   * admitted category into the result.
   */
  lemma NameOrBarcodeSelects(products: seq<Product>, searchQuery: string, selectedCategoryId: Option<int>, p: Product)
    requires p in products && MatchesCategory(p, selectedCategoryId)
    requires Contains(ToLower(p.name), SearchTerm(searchQuery)) || Contains(p.barcode, SearchTerm(searchQuery))
    ensures p in FilteredProducts(products, searchQuery, selectedCategoryId)
  {
    FilteredMembers(products, searchQuery, selectedCategoryId);
  }

  /** Two catalog products; names and barcodes as in the component's tests. */
  function First(): Product { Product(1, 1, "מוצר ראשון", 1000, "123456", "image1.jpg") }
  function Second(): Product { Product(2, 2, "מוצר שני", 2000, "789012", "image2.jpg") }

  /** Searching for a word of the first name selects the first product only. */
  lemma SearchByNameScenario()
    ensures FilteredProducts([First(), Second()], "ראשון", None) == [First()]
  {
    NameScenarioTerm();
    NameScenarioFilter("ראשון");
  }

  lemma NameScenarioTerm()
    ensures SearchTerm("ראשון") == "ראשון"
  {
    ToLowerWithoutCapitals("ראשון");
    TrimOfTrimmed("ראשון");
  }

  lemma NameScenarioFilter(term: string)
    requires term == "ראשון"
    ensures FilterMatching([First(), Second()], term, None) == [First()]
  {
    NameScenarioFirstMatches(term);
    NameScenarioSecondMisses(term);
    assert [First(), Second()][1..] == [Second()];
    assert FilterMatching([Second()], term, None) == [];
  }

  lemma NameScenarioFirstMatches(term: string)
    requires term == "ראשון"
    ensures Matches(First(), term, None)
  {
    NameScenarioFirstLower();
    NameScenarioFirstContains(term);
  }

  lemma NameScenarioFirstLower()
    ensures ToLower(First().name) == First().name
  {
    ToLowerWithoutCapitals(First().name);
  }

  lemma NameScenarioFirstContains(term: string)
    requires term == "ראשון"
    ensures Contains(First().name, term)
  {
    assert OccursAt(First().name, term, 5);
    ContainsIffOccurs(First().name, term);
  }

  lemma NameScenarioSecondMisses(term: string)
    requires term == "ראשון"
    ensures !Matches(Second(), term, None)
  {
    CharAbsent(Second().barcode, term, 0);
    CharAbsent(Second().name, term, 1);
    NameScenarioSecondLower();
  }

  lemma NameScenarioSecondLower()
    ensures ToLower(Second().name) == Second().name
  {
    ToLowerWithoutCapitals(Second().name);
  }

  /** A product whose barcode holds ASCII capitals. */
  function Cable(): Product { Product(3, 1, "Cable", 500, "AB12", "") }

  /**
   * The barcode is compared with the lower-cased term without being
   * lower-cased itself: typing the barcode exactly does not find it.
   */
  lemma BarcodeIsCaseSensitive()
    ensures Contains(Cable().barcode, "AB12")
    ensures FilteredProducts([Cable()], "AB12", None) == []
  {
    assert OccursAt(Cable().barcode, "AB12", 0);
    ContainsIffOccurs(Cable().barcode, "AB12");
    CableSearchTerm();
    CableNameMisses();
    CableBarcodeMisses();
  }

  lemma CableSearchTerm()
    ensures SearchTerm("AB12") == "ab12"
  {
    assert ToLower("AB12") == "ab12";
    TrimOfTrimmed("ab12");
  }

  lemma CableNameMisses()
    ensures !Contains(ToLower(Cable().name), "ab12")
  {
    assert ToLower(Cable().name) == "cable";
    CharAbsent("cable", "ab12", 2);
  }

  lemma CableBarcodeMisses()
    ensures !Contains(Cable().barcode, "ab12")
  {
    CharAbsent(Cable().barcode, "ab12", 0);
  }
}

/** The product list screen: the prefix search over the loaded catalog,
    the card each product is drawn as, the count label, and the screen's
    state updated by the fetch completion and by every keystroke. */
module Home {
  import opened Text
  import opened Catalog

  /** `product.title.toLowerCase().startsWith(query)`: only a query no
      longer than the title can match, and the empty query matches every
      product. */
  predicate Matches(p: Product, query: string): (m: bool)
    ensures m ==> |query| <= |p.title|
    ensures query == [] ==> m
  {
    StartsWith(Lower(p.title), query)
  }

  /** `products.filter(...)`: the matching products, in list order, each
      as many times as it occurs in the list. */
  function FilterByPrefix(products: seq<Product>, query: string): (r: seq<Product>)
    ensures |r| <= |products|
    ensures forall p :: p in r <==> p in products && Matches(p, query)
    ensures forall p :: multiset(r)[p] == if Matches(p, query) then multiset(products)[p] else 0
  {
    if products == [] then []
    else
      var rest := FilterByPrefix(products[1..], query);
      assert products == [products[0]] + products[1..];
      assert forall p :: p in products <==> p == products[0] || p in products[1..];
      if Matches(products[0], query) then [products[0]] + rest else rest
  }

  /** `xs` is `ys` with some elements left out, the rest kept in order.
      Matching each element of `xs` against the earliest possible element
      of `ys` decides it. */
  predicate IsSubsequence<T(==)>(xs: seq<T>, ys: seq<T>)
    decreases |ys|
  {
    if xs == [] then true
    else if ys == [] then false
    else if xs[0] == ys[0] then IsSubsequence(xs[1..], ys[1..])
    else IsSubsequence(xs, ys[1..])
  }

  /** The filter keeps the original relative order of the products. */
  lemma {:induction false} FilterIsSubsequence(products: seq<Product>, query: string)
    ensures IsSubsequence(FilterByPrefix(products, query), products)
  {
    if products != [] {
      FilterIsSubsequence(products[1..], query);
      var rest := FilterByPrefix(products[1..], query);
      if !Matches(products[0], query) && rest != [] {
        assert rest[0] in rest;
        assert rest[0] != products[0];
      }
    }
  }

  lemma StartsWithTransitive(s: string, q1: string, q2: string)
    requires StartsWith(q2, q1) && StartsWith(s, q2)
    ensures StartsWith(s, q1)
  {
    assert s[..|q1|] == s[..|q2|][..|q1|];
  }

  /** Typing more characters after a query only narrows its result:
      filtering the hits of `q1` by a longer query `q2` gives the hits of
      `q2` over the whole list. */
  lemma {:induction false} FilterNarrows(products: seq<Product>, q1: string, q2: string)
    requires StartsWith(q2, q1)
    ensures FilterByPrefix(FilterByPrefix(products, q1), q2) == FilterByPrefix(products, q2)
  {
    if products != [] {
      FilterNarrows(products[1..], q1, q2);
      if Matches(products[0], q2) {
        StartsWithTransitive(Lower(products[0].title), q1, q2);
        assert FilterByPrefix(products, q1) == [products[0]] + FilterByPrefix(products[1..], q1);
        assert ([products[0]] + FilterByPrefix(products[1..], q1))[1..] == FilterByPrefix(products[1..], q1);
      } else if Matches(products[0], q1) {
        assert ([products[0]] + FilterByPrefix(products[1..], q1))[1..] == FilterByPrefix(products[1..], q1);
      }
    }
  }

  /** What `handleSearch(text)` stores as the filtered list: the whole
      list for a blank query, otherwise the products whose lowercased
      title starts with the lowercased, untrimmed query. */
  function SearchResult(products: seq<Product>, text: string): (r: seq<Product>)
    ensures |r| <= |products|
    ensures forall p :: p in r ==> p in products
  {
    if Trim(text) == [] then products
    else FilterByPrefix(products, Lower(text))
  }

  /** A whitespace-only (or empty) query shows the whole loaded list. */
  lemma SearchBlankShowsAll(products: seq<Product>, text: string)
    requires IsBlank(text)
    ensures SearchResult(products, text) == products
  {
    TrimEmptyIff(text);
  }

  /** Any other query shows exactly the products whose lowercased title
      starts with the lowercased query (leading spaces included), in
      their original order. */
  lemma SearchNonBlankSpec(products: seq<Product>, text: string)
    requires !IsBlank(text)
    ensures forall p :: p in SearchResult(products, text) ==> StartsWith(Lower(p.title), Lower(text))
    ensures IsSubsequence(SearchResult(products, text), products)
    ensures forall i :: 0 <= i < |products| && StartsWith(Lower(products[i].title), Lower(text)) ==>
      products[i] in SearchResult(products, text)
  {
    TrimEmptyIff(text);
    FilterIsSubsequence(products, Lower(text));
  }

  /** The search ignores the case of the query. */
  lemma SearchIgnoresCase(products: seq<Product>, t1: string, t2: string)
    requires Lower(t1) == Lower(t2)
    ensures SearchResult(products, t1) == SearchResult(products, t2)
  {
    LowerKeepsBlank(t1);
    LowerKeepsBlank(t2);
  }

  /** The result of a search is always an ordered selection of the list. */
  lemma SearchIsSubsequence(products: seq<Product>, text: string)
    ensures IsSubsequence(SearchResult(products, text), products)
  {
    if Trim(text) == [] {
      SubsequenceReflexive(products);
    } else {
      FilterIsSubsequence(products, Lower(text));
    }
  }

  lemma {:induction false} SubsequenceReflexive<T>(xs: seq<T>)
    ensures IsSubsequence(xs, xs)
  {
    if xs != [] {
      SubsequenceReflexive(xs[1..]);
    }
  }

  const DescriptionLimit := 40
  const Ellipsis := "..."

  /** The card text: descriptions longer than 40 characters are cut to
      their first 40 and followed by `...`; shorter ones are shown whole. */
  function ShortDescription(description: string): (r: string)
    ensures |description| <= DescriptionLimit ==> r == description
    ensures |description| > DescriptionLimit ==>
      |r| == DescriptionLimit + |Ellipsis| && StartsWith(description, r[..DescriptionLimit]) && r[DescriptionLimit..] == Ellipsis
  {
    if |description| > DescriptionLimit then description[..DescriptionLimit] + Ellipsis
    else description
  }

  /** A card's text never exceeds 43 characters, agrees with the
      description on its first characters, and cutting it again changes
      nothing. */
  lemma ShortDescriptionStable(description: string)
    ensures |ShortDescription(description)| <= DescriptionLimit + |Ellipsis|
    ensures ShortDescription(ShortDescription(description)) == ShortDescription(description)
  {
    var r := ShortDescription(description);
    if |description| > DescriptionLimit {
      assert r[..DescriptionLimit] == description[..DescriptionLimit];
    }
  }

  /** What `renderItem` derives for one product. */
  datatype Card = Card(product: Product, isFavorite: bool, shortDescription: string)

  /** The card for `item`: the item itself, marked exactly when a
      favourite shares its id, with its cut description. */
  function RenderItem(item: Product, favorites: seq<Product>): (c: Card)
    ensures c.product == item
    ensures c.isFavorite <==> exists j :: 0 <= j < |favorites| && favorites[j].id == item.id
    ensures c.shortDescription == ShortDescription(item.description)
  {
    Card(item, IsFavorite(favorites, item.id), ShortDescription(item.description))
  }

  const CountSuffix := " products found"

  /** `{filteredProducts.length} products found`: the decimal digits of
      the count, with no leading zero, which read back as the count, then
      the fixed suffix. */
  function CountLabel(n: nat): (l: string)
    ensures |l| > |CountSuffix|
    ensures l[|l| - |CountSuffix|..] == CountSuffix
    ensures var digits := l[..|l| - |CountSuffix|];
      && (forall i :: 0 <= i < |digits| ==> IsDigit(digits[i]))
      && (|digits| > 1 ==> digits[0] != '0')
      && DecimalValue(digits) == n
  {
    DecimalRoundTrip(n);
    var l := Decimal(n) + CountSuffix;
    assert l[..|l| - |CountSuffix|] == Decimal(n);
    l
  }

  /** The two things the screen can draw. */
  datatype HomeView =
    | Spinner
    | Listing(countLabel: string, cards: seq<Card>, showsEmptyNotice: bool)

  /** The state of the list screen. */
  class HomeScreen {
    var products: seq<Product>
    var filteredProducts: seq<Product>
    var searchQuery: string
    var loading: bool

    /** Nothing is typed while the spinner is up (the search field is not
        drawn then), and the filtered list is always the search result of
        the typed text over the loaded list. */
    ghost predicate Valid()
      reads this
    {
      && (loading ==> products == [] && filteredProducts == [] && searchQuery == [])
      && filteredProducts == SearchResult(products, searchQuery)
    }

    /** The screen mounts loading, with empty lists and an empty query. */
    constructor ()
      ensures Valid()
      ensures products == [] && filteredProducts == [] && searchQuery == [] && loading
    {
      products := [];
      filteredProducts := [];
      searchQuery := [];
      loading := true;
      assert FilterByPrefix([], Lower([])) == [];
    }

    /** The fetch returned `data`: both lists become `data` and the
        spinner goes away. The fetch runs once, on mount. */
    method FetchSucceeded(data: seq<Product>)
      requires Valid() && loading
      modifies this
      ensures Valid()
      ensures products == data && filteredProducts == data && !loading
      ensures searchQuery == old(searchQuery)
    {
      products := data;
      filteredProducts := data;
      loading := false;
      assert Trim(searchQuery) == [] by { TrimEmptyIff(searchQuery); }
    }

    /** The fetch threw: the spinner goes away and both lists stay empty. */
    method FetchFailed()
      requires Valid() && loading
      modifies this
      ensures Valid()
      ensures !loading && products == [] && filteredProducts == []
      ensures searchQuery == old(searchQuery)
    {
      loading := false;
      assert SearchResult(products, searchQuery) == [];
    }

    /** `handleSearch(text)`: records the raw text and recomputes the
        filtered list from the loaded one, which it leaves alone. It is
        reachable only through the search field, which is drawn once
        loading is over. */
    method HandleSearch(text: string)
      requires Valid() && !loading
      modifies this
      ensures Valid()
      ensures searchQuery == text
      ensures products == old(products) && loading == old(loading)
      ensures filteredProducts == SearchResult(products, text)
    {
      searchQuery := text;
      var blank := Trim(text) == [];
      if blank {
        filteredProducts := products;
        return;
      }
      var query := Lower(text);
      filteredProducts := FilterByPrefix(products, query);
    }

    /** The filtered list of a consistent screen is an ordered selection
        of the loaded list. */
    lemma FilteredIsSubsequence()
      requires Valid()
      ensures IsSubsequence(filteredProducts, products)
    {
      SearchIsSubsequence(products, searchQuery);
    }

    /** What the screen draws: the spinner while loading; afterwards the
        count label, one card per filtered product in order, and the
        empty notice exactly when nothing is left. */
    function View(favorites: seq<Product>): (v: HomeView)
      reads this
      ensures v.Spinner? <==> loading
      ensures v.Listing? ==>
        && v.countLabel == CountLabel(|filteredProducts|)
        && |v.cards| == |filteredProducts|
        && (forall i :: 0 <= i < |v.cards| ==> v.cards[i] == RenderItem(filteredProducts[i], favorites))
        && (forall i :: 0 <= i < |v.cards| ==> v.cards[i].product == filteredProducts[i])
        && (forall i :: 0 <= i < |v.cards| ==>
              (v.cards[i].isFavorite <==> exists j :: 0 <= j < |favorites| && favorites[j].id == filteredProducts[i].id))
        && (forall i :: 0 <= i < |v.cards| ==>
              v.cards[i].shortDescription == ShortDescription(filteredProducts[i].description))
        && (v.showsEmptyNotice <==> filteredProducts == [])
    {
      if loading then Spinner
      else
        var shown := filteredProducts;
        Listing(
          CountLabel(|shown|),
          seq(|shown|, i requires 0 <= i < |shown| => RenderItem(shown[i], favorites)),
          shown == [])
    }
  }

  function Item(id: int, title: string): Product {
    Product(id, title, 0.0, "", "", "", None)
  }

  function SampleCatalog(): seq<Product> {
    [Item(1, "Apple Phone"), Item(2, "Banana Case"), Item(3, "apple Watch")]
  }

  /** The query "apple" is not blank. */
  lemma AppleNotBlank(q: string)
    requires q == "apple"
    ensures Trim(q) != []
  {
    TrimEmptyIff(q);
    assert !IsTrimmable(q[0]);
  }

  /** "apple" is its own lowercase form, and that of "APPLE". */
  lemma AppleLower(q: string)
    requires q == "apple"
    ensures Lower(q) == q
  {
  }

  lemma LowerUpperApple()
    ensures Lower("APPLE") == "apple"
  {
  }

  lemma SampleMatchesApple(c: seq<Product>, q: string)
    requires c == SampleCatalog() && q == "apple"
    ensures Matches(c[0], q) && !Matches(c[1], q) && Matches(c[2], q)
  {
    assert Lower(c[0].title)[..5] == q;
    assert Lower(c[1].title)[0] == 'b';
    assert Lower(c[2].title)[..5] == q;
  }

  lemma FilterSampleApple(c: seq<Product>, q: string)
    requires c == SampleCatalog() && q == "apple"
    ensures FilterByPrefix(c, q) == [c[0], c[2]]
  {
    SampleMatchesApple(c, q);
    assert c[2..][1..] == [];
    assert FilterByPrefix(c[2..], q) == [c[2]];
    assert c[1..][1..] == c[2..];
    assert FilterByPrefix(c[1..], q) == [c[2]];
  }

  /** Searching "apple" or "APPLE" finds the first and third items, in order. */
  lemma SearchExampleApple(c: seq<Product>, text: string)
    requires c == SampleCatalog() && (text == "apple" || text == "APPLE")
    ensures SearchResult(c, text) == [c[0], c[2]]
  {
    AppleNotBlank("apple");
    AppleLower("apple");
    LowerUpperApple();
    FilterSampleApple(c, "apple");
    SearchIgnoresCase(c, text, "apple");
  }

  /** An empty or whitespace-only query shows the whole catalog. */
  lemma SearchExampleBlank(c: seq<Product>, text: string)
    requires c == SampleCatalog() && (text == "" || text == "  ")
    ensures SearchResult(c, text) == c
  {
    TrimEmptyIff(text);
  }

  /** A query whose first character no title starts with finds nothing. */
  lemma SampleFirstCharMisses(c: seq<Product>, q: string)
    requires c == SampleCatalog() && q != []
    requires q[0] != 'a' && q[0] != 'b'
    ensures FilterByPrefix(c, q) == []
  {
    assert !Matches(c[0], q) by { assert Lower(c[0].title)[0] == 'a'; }
    assert !Matches(c[1], q) by { assert Lower(c[1].title)[0] == 'b'; }
    assert !Matches(c[2], q) by { assert Lower(c[2].title)[0] == 'a'; }
    assert c[2..][1..] == [];
    assert FilterByPrefix(c[2..], q) == [];
    assert c[1..][1..] == c[2..];
    assert FilterByPrefix(c[1..], q) == [];
  }

  /** "xyz" finds nothing; neither does " apple", because the leading
      space takes part in the match. */
  lemma SearchExampleNoMatch(c: seq<Product>, text: string)
    requires c == SampleCatalog() && (text == "xyz" || text == " apple")
    ensures SearchResult(c, text) == []
  {
    assert !IsTrimmable(text[1]) by { assert text[1] == 'y' || text[1] == 'a'; }
    KeptCharNotBlank(text, 1);
    assert Lower(text)[0] == text[0];
    SampleFirstCharMisses(c, Lower(text));
  }
}

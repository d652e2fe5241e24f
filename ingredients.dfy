/** The candidates listed in the ingredient dialog: in-stock products of the
    ice and beer categories whose name matches the search text. */
module Ingredients {
  import opened Domain
  import opened Seqs
  import opened Text

  /** Category-name fragments that make a category an ingredient category. */
  const AllowedCategoryNames: seq<string> := ["ICE", "CERVEJAS"]

  /** How many candidates the dialog lists at most. */
  const MaxCandidates: nat := 10

  /** The upper-cased category name contains one of the allowed fragments. */
  predicate AllowedCategory(c: Category)
  {
    exists name :: name in AllowedCategoryNames && Contains(ToUpper(c.name), name)
  }

  /** `allowedCategoryIds`: the ids of the allowed categories. */
  function AllowedCategoryIds(categories: seq<Category>): (r: set<string>)
    ensures forall id :: id in r <==> exists c :: c in categories && c.id == id && AllowedCategory(c)
  {
    set c | c in categories && AllowedCategory(c) :: c.id
  }

  /** The filter applied to each product. */
  predicate Qualifies(p: Product, allowed: set<string>, search: string)
  {
    Contains(ToLower(p.name), ToLower(search)) && p.stock > 0 && p.categoryId in allowed
  }

  /** Every product that passes the filter, in product-list order. */
  function Matching(products: seq<Product>, categories: seq<Category>, search: string): (r: seq<Product>)
    ensures forall p :: p in r <==> p in products && Qualifies(p, AllowedCategoryIds(categories), search)
  {
    var allowed := AllowedCategoryIds(categories);
    Filter(products, (p: Product) => Qualifies(p, allowed, search))
  }

  /** The matches keep product-list order: Matching distributes over
      concatenation and keeps a single product exactly when it qualifies, so
      the first ten candidates are the first ten qualifying products. */
  lemma MatchingKeepsOrder(a: seq<Product>, b: seq<Product>, categories: seq<Category>, search: string)
    ensures Matching(a + b, categories, search) == Matching(a, categories, search) + Matching(b, categories, search)
    ensures forall p :: (Matching([p], categories, search) ==
      if Qualifies(p, AllowedCategoryIds(categories), search) then [p] else [])
  {
    var allowed := AllowedCategoryIds(categories);
    FilterConcat(a, b, (p: Product) => Qualifies(p, allowed, search));
  }

  /** `ingredientsToShow`: the first ten matching products. Every candidate
      is in stock, belongs to an allowed category and contains the search
      text ignoring case; the list is a prefix of all matches, and a matching
      product is left out only when ten are already shown. */
  function Candidates(products: seq<Product>, categories: seq<Category>, search: string): (r: seq<Product>)
    ensures |r| <= MaxCandidates
    ensures forall p :: p in r ==> p in products && p.stock > 0
    ensures forall p :: p in r ==> exists c :: c in categories && c.id == p.categoryId && AllowedCategory(c)
    ensures forall p :: p in r ==> Contains(ToLower(p.name), ToLower(search))
    ensures var all := Matching(products, categories, search); |r| <= |all| && r == all[..|r|]
    ensures var all := Matching(products, categories, search);
      |r| == if |all| <= MaxCandidates then |all| else MaxCandidates
    ensures forall p :: p in Matching(products, categories, search) && p !in r ==> |r| == MaxCandidates
  {
    var all := Matching(products, categories, search);
    var r := Take(all, MaxCandidates);
    assert forall p :: p in r ==> p in all;
    r
  }

  /** An empty search text constrains nothing. */
  lemma EmptySearchMatchesAll(p: Product, allowed: set<string>)
    ensures Qualifies(p, allowed, "") <==> p.stock > 0 && p.categoryId in allowed
  {
  }

  /** "Gelo" (ICE, stock 5) is listed; "Cerveja X" (CERVEJAS, stock 0) is out
      of stock and "Suco" (SUCOS, stock 10) is in no allowed category. */
  lemma ExampleCandidates()
    ensures
      var ice := Category("c-ice", "ICE");
      var beer := Category("c-beer", "CERVEJAS");
      var juice := Category("c-juice", "SUCOS");
      var gelo := Product("p1", "Gelo", "c-ice", 5);
      var cerveja := Product("p2", "Cerveja X", "c-beer", 0);
      var suco := Product("p3", "Suco", "c-juice", 10);
      Candidates([gelo, cerveja, suco], [ice, beer, juice], "") == [gelo]
  {
    var ice := Category("c-ice", "ICE");
    var beer := Category("c-beer", "CERVEJAS");
    var juice := Category("c-juice", "SUCOS");
    assert ToUpper("ICE") == "ICE";
    assert StartsWith("ICE", "ICE");
    assert "ICE" in AllowedCategoryNames && Contains(ToUpper(ice.name), "ICE");
    assert ToUpper("SUCOS") == "SUCOS";
    assert !AllowedCategory(juice) by {
      assert !Contains("SUCOS", "ICE") by {
        assert !Contains("OS", "ICE");
        assert "COS"[..3][0] != "ICE"[0];
        assert !Contains("COS", "ICE");
        assert "UCOS"[..3][0] != "ICE"[0];
        assert !Contains("UCOS", "ICE");
        assert "SUCOS"[..3][0] != "ICE"[0];
      }
      assert !Contains("SUCOS", "CERVEJAS") by {
        assert !Contains("", "CERVEJAS");
        assert !Contains("S", "CERVEJAS");
        assert !Contains("OS", "CERVEJAS");
        assert !Contains("COS", "CERVEJAS");
        assert !Contains("UCOS", "CERVEJAS");
      }
    }
    var allowed := AllowedCategoryIds([ice, beer, juice]);
    assert "c-ice" in allowed;
    assert "c-juice" !in allowed;
    var gelo := Product("p1", "Gelo", "c-ice", 5);
    var cerveja := Product("p2", "Cerveja X", "c-beer", 0);
    var suco := Product("p3", "Suco", "c-juice", 10);
    EmptySearchMatchesAll(gelo, allowed);
    EmptySearchMatchesAll(cerveja, allowed);
    EmptySearchMatchesAll(suco, allowed);
    var p := (q: Product) => Qualifies(q, allowed, "");
    assert Filter([gelo, cerveja, suco], p) == [gelo] + Filter([cerveja, suco], p);
    assert Filter([cerveja, suco], p) == Filter([suco], p);
    assert Filter([suco], p) == [];
  }

  /** The match is by substring: a category named "Juices" contains "ICE"
      once upper-cased, so it is an ingredient category too. */
  lemma SubstringAdmitsJuices(id: string)
    ensures AllowedCategory(Category(id, "Juices"))
  {
    assert ToUpper("Juices") == "JUICES";
    assert StartsWith("ICES", "ICE");
    assert Contains("ICES", "ICE");
    assert Contains("UICES", "ICE");
    assert Contains("JUICES", "ICE");
  }
}

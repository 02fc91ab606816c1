/**
  Product matching (services/product.service.js). The catalogue that the
  service reads from products/products.json at load time is passed in as a
  value, so no call can change it.
 */
module Products {
  import opened Js

  /** One catalogue entry. `price` is the text JavaScript renders for the
      number stored in the catalogue. */
  datatype Product = Product(brandName: string, composition: string, price: string, keywords: seq<string>)

  /** Some keyword of `p`, as written in the catalogue, occurs in `query`. */
  predicate KeywordHit(p: Product, query: string) {
    exists k | k in p.keywords :: Contains(query, k)
  }

  /** The filter condition of findProduct, for a query that is already lower case. */
  predicate MatchesLowered(p: Product, q: string) {
    Contains(Lower(p.brandName), q) || KeywordHit(p, q)
  }

  /** findProduct(query): the products, in catalogue order, whose lower-cased brand
      contains the lower-cased query or one of whose keywords occurs in it. */
  function FindProduct(catalogue: seq<Product>, query: string): (r: seq<Product>)
    ensures |r| <= |catalogue|
    ensures forall p :: p in r <==> p in catalogue && MatchesLowered(p, Lower(query))
  {
    if |catalogue| == 0 then []
    else
      var rest := FindProduct(catalogue[1..], query);
      assert forall p :: p in catalogue <==> p == catalogue[0] || p in catalogue[1..];
      if MatchesLowered(catalogue[0], Lower(query)) then [catalogue[0]] + rest else rest
  }

  /** The filter keeps catalogue order: searching a concatenation searches each
      part and concatenates the results. */
  lemma {:induction false} FindProductAppend(a: seq<Product>, b: seq<Product>, query: string)
    ensures FindProduct(a + b, query) == FindProduct(a, query) + FindProduct(b, query)
    decreases |a|
  {
    if |a| > 0 {
      assert (a + b)[1..] == a[1..] + b;
      FindProductAppend(a[1..], b, query);
    } else {
      assert a + b == b;
    }
  }

  /** A single product is kept exactly when it matches. */
  lemma FindProductSingle(p: Product, query: string)
    ensures FindProduct([p], query) == if MatchesLowered(p, Lower(query)) then [p] else []
  {
    assert [p][1..] == [];
  }

  /** The query is lower-cased first, so lower-casing it beforehand changes nothing. */
  lemma {:induction false} FindProductIgnoresQueryCase(catalogue: seq<Product>, query: string)
    ensures FindProduct(catalogue, Lower(query)) == FindProduct(catalogue, query)
    decreases |catalogue|
  {
    LowerIdempotent(query);
    if |catalogue| > 0 {
      FindProductIgnoresQueryCase(catalogue[1..], query);
    }
  }

  /** Keywords are compared as written: one holding an upper-case ASCII letter
      never matches, because the query it is searched in is lower case. */
  lemma UpperKeywordNeverHits(query: string, k: string, i: nat)
    requires i < |k| && IsUpperAscii(k[i])
    ensures !Contains(Lower(query), k)
  {
    if Contains(Lower(query), k) {
      ContainsChars(Lower(query), k, k[i]);
      LowerHasNoUpper(query);
    }
  }

  /** Every brand contains the empty string, so the empty query returns the whole
      catalogue. */
  lemma {:induction false} EmptyQueryMatchesAll(catalogue: seq<Product>)
    ensures FindProduct(catalogue, "") == catalogue
    decreases |catalogue|
  {
    if |catalogue| > 0 {
      assert OccursAt(Lower(catalogue[0].brandName), "", 0);
      EmptyQueryMatchesAll(catalogue[1..]);
    }
  }
}

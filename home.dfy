/** The home page's featured section: fetch the catalog, shuffle a copy and
 *  show its first four products.
 *
 * The shuffle is `[...data].sort(() => 0.5 - Math.random())`. The comparator
 * is not consistent, so section 23.1.3.30 of ECMA-262 (2023 edition) leaves
 * the resulting order implementation-defined; what the sort does guarantee is
 * that it rearranges the copy's elements. The model therefore takes the
 * shuffled copy as an input, constrained only to be a permutation of the
 * fetched list.
 */
module Home {
  import opened Catalog
  import opened Remote
  import opened Collection
  import opened Display

  const FeaturedError := "Failed to load featured products. Please try again later."

  /** How many products the featured section shows at most. */
  const FeaturedCount := 4

  function Min(a: int, b: int): int {
    if a <= b then a else b
  }

  /** `shuffled.slice(0, 4)`, where `shuffled` is some permutation of `data`. */
  function Featured(data: seq<Product>, shuffled: seq<Product>): (r: seq<Product>)
    requires multiset(shuffled) == multiset(data)
    ensures |r| == Min(FeaturedCount, |data|)
    ensures multiset(r) <= multiset(data)
    ensures forall i :: 0 <= i < |r| ==> r[i] in data
  {
    assert |shuffled| == |multiset(shuffled)| == |data|;
    var k := Min(FeaturedCount, |shuffled|);
    assert shuffled == shuffled[..k] + shuffled[k..];
    assert multiset(shuffled[..k]) <= multiset(shuffled);
    assert forall i :: 0 <= i < k ==> shuffled[..k][i] in data by {
      forall i | 0 <= i < k ensures shuffled[..k][i] in data {
        assert shuffled[..k][i] in multiset(shuffled[..k]);
      }
    }
    shuffled[..k]
  }

  /** With distinct ids in the catalog, the featured products have distinct
   *  ids: no product is featured twice. */
  lemma FeaturedKeepsDistinctIds(data: seq<Product>, shuffled: seq<Product>)
    requires multiset(shuffled) == multiset(data) && DistinctIds(data)
    ensures DistinctIds(Featured(data, shuffled))
  {
    SubMultisetKeepsDistinctIds(Featured(data, shuffled), data);
  }

  /** Nothing de-duplicates: a catalog that lists a product twice can feature
   *  it twice. */
  lemma RepeatedIdCanBeFeaturedTwice(p: Product)
    ensures Featured([p, p], [p, p]) == [p, p]
    ensures !DistinctIds(Featured([p, p], [p, p]))
  {
    assert Featured([p, p], [p, p])[0].id == Featured([p, p], [p, p])[1].id;
  }

  /** Some listing of the elements of a multiset. */
  ghost function ListingOf(m: multiset<Product>): (s: seq<Product>)
    ensures multiset(s) == m
    decreases |m|
  {
    if m == multiset{} then []
    else
      var x :| x in m;
      [x] + ListingOf(m - multiset{x})
  }

  /** Conversely, every selection of min(4, n) of the fetched products (taken
   *  no more often than they occur) is what some shuffle features. */
  lemma EverySampleIsFeatured(data: seq<Product>, r: seq<Product>)
    requires multiset(r) <= multiset(data) && |r| == Min(FeaturedCount, |data|)
    ensures exists shuffled :: multiset(shuffled) == multiset(data) && Featured(data, shuffled) == r
  {
    var shuffled := r + ListingOf(multiset(data) - multiset(r));
    assert multiset(shuffled) == multiset(data);
    assert shuffled[..|r|] == r;
    assert Featured(data, shuffled) == r;
  }

  class HomePage {
    var featuredProducts: seq<Product>
    var loading: bool
    var error: Option<string>

    /** The state the page is created in, before its mount fetch. */
    constructor ()
      ensures featuredProducts == [] && loading && error == None
    {
      featuredProducts := [];
      loading := true;
      error := None;
    }

    /** The featured section: spinner, then error, then the grid. */
    function View(): (s: Screen<seq<Product>>)
      reads this
      ensures s.Spinner? <==> loading
      ensures s.ErrorText? <==> !loading && error.Some?
      ensures s.ErrorText? ==> s.message == error.value
      ensures s == Content(featuredProducts) <==> !loading && error.None?
    {
      Show(loading, error, featuredProducts)
    }

    /** The featured fetch. `shuffled` is the order the sort left the copy
     *  of the payload in. The payload is a value that `Featured` only reads,
     *  so the fetched list itself is never reordered. */
    method FetchFeaturedProducts(reply: Outcome<seq<Product>>, shuffled: seq<Product>)
      requires reply.Ok? ==> multiset(shuffled) == multiset(reply.payload)
      modifies this
      ensures !loading
      ensures reply.Ok? ==> featuredProducts == Featured(reply.payload, shuffled) && error == old(error)
      ensures reply.NotOk? ==> featuredProducts == old(featuredProducts) && error == Some(FeaturedError)
    {
      loading := true;
      match reply {
        case Ok(data) =>
          featuredProducts := Featured(data, shuffled);
          loading := false;
        case NotOk =>
          error := Some(FeaturedError);
          loading := false;
      }
    }
  }

  /** Mounting the page: create it and run the featured fetch once. */
  method Mount(reply: Outcome<seq<Product>>, shuffled: seq<Product>) returns (page: HomePage)
    requires reply.Ok? ==> multiset(shuffled) == multiset(reply.payload)
    ensures !page.loading
    ensures reply.Ok? ==>
      && page.View() == Content(page.featuredProducts)
      && |page.featuredProducts| == Min(FeaturedCount, |reply.payload|)
      && multiset(page.featuredProducts) <= multiset(reply.payload)
      && (DistinctIds(reply.payload) ==> DistinctIds(page.featuredProducts))
    ensures reply.NotOk? ==> page.featuredProducts == [] && page.View() == ErrorText(FeaturedError)
  {
    page := new HomePage();
    page.FetchFeaturedProducts(reply, shuffled);
    if reply.Ok? && DistinctIds(reply.payload) {
      FeaturedKeepsDistinctIds(reply.payload, shuffled);
    }
  }
}

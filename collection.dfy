/** The admin page's local product list and the three transforms it applies
 *  after a write succeeds: append on create, merge-by-id on update and
 *  filter-by-id on delete. Ids are compared with `===`, which on the integer
 *  ids of this model is equality.
 */
module Collection {
  import opened Catalog

  /** No two products of the list share an id (what React's `key` expects). */
  ghost predicate DistinctIds(ps: seq<Product>) {
    forall i, j :: 0 <= i < j < |ps| ==> ps[i].id != ps[j].id
  }

  ghost predicate IdAbsent(ps: seq<Product>, id: int) {
    forall i :: 0 <= i < |ps| ==> ps[i].id != id
  }

  /** `[...ps, {...form, id}]`. */
  function AppendCreated(ps: seq<Product>, form: ProductForm, id: int): (r: seq<Product>)
    ensures |r| == |ps| + 1
    ensures r[..|ps|] == ps
    ensures r[|ps|].id == id && FormOf(r[|ps|]) == form && r[|ps|].rating == None
  {
    ps + [Created(form, id)]
  }

  /** `ps.map(p => p.id === id ? {...p, ...form} : p)`. */
  function MergeById(ps: seq<Product>, id: int, form: ProductForm): (r: seq<Product>)
    ensures |r| == |ps|
    ensures forall i :: 0 <= i < |ps| && ps[i].id == id ==> r[i] == Overlay(ps[i], form)
    ensures forall i :: 0 <= i < |ps| && ps[i].id != id ==> r[i] == ps[i]
  {
    if ps == [] then []
    else [if ps[0].id == id then Overlay(ps[0], form) else ps[0]] + MergeById(ps[1..], id, form)
  }

  /** `ps.filter(p => p.id !== id)`. */
  function RemoveById(ps: seq<Product>, id: int): (r: seq<Product>)
    ensures |r| <= |ps|
    ensures IdAbsent(r, id)
    ensures multiset(r) <= multiset(ps)
    ensures IdAbsent(ps, id) ==> r == ps
  {
    if ps == [] then []
    else
      assert ps == [ps[0]] + ps[1..];
      (if ps[0].id == id then [] else [ps[0]]) + RemoveById(ps[1..], id)
  }

  /** The filter keeps every product whose id differs, as often as it occurs. */
  lemma {:induction false} RemoveByIdKeepsOthers(ps: seq<Product>, id: int, p: Product)
    requires p.id != id
    ensures multiset(RemoveById(ps, id))[p] == multiset(ps)[p]
  {
    if ps != [] {
      assert ps == [ps[0]] + ps[1..];
      RemoveByIdKeepsOthers(ps[1..], id, p);
    }
  }

  /** The filter keeps the order of what it keeps: it distributes over
   *  concatenation. */
  lemma {:induction false} RemoveByIdConcat(a: seq<Product>, b: seq<Product>, id: int)
    ensures RemoveById(a + b, id) == RemoveById(a, id) + RemoveById(b, id)
  {
    if a == [] {
      assert a + b == b;
    } else {
      assert (a + b)[1..] == a[1..] + b;
      RemoveByIdConcat(a[1..], b, id);
    }
  }

  /** Deleting twice is deleting once: the second delete of the same id finds
   *  nothing and changes nothing. */
  lemma RemoveByIdIdempotent(ps: seq<Product>, id: int)
    ensures RemoveById(RemoveById(ps, id), id) == RemoveById(ps, id)
  {
  }

  /** Deleting an id held by one product between two stretches that lack it
   *  removes just that product. */
  lemma RemoveBetween(a: seq<Product>, p: Product, b: seq<Product>)
    requires IdAbsent(a, p.id) && IdAbsent(b, p.id)
    ensures RemoveById(a + [p] + b, p.id) == a + b
  {
    assert RemoveById([p], p.id) == [];
    RemoveByIdConcat(a + [p], b, p.id);
    RemoveByIdConcat(a, [p], p.id);
  }

  /** With distinct ids, deleting the id of a listed product removes exactly
   *  that one product and keeps the others in order. */
  lemma RemoveListedProduct(ps: seq<Product>, k: nat)
    requires DistinctIds(ps) && k < |ps|
    ensures RemoveById(ps, ps[k].id) == ps[..k] + ps[k + 1..]
    ensures |RemoveById(ps, ps[k].id)| == |ps| - 1
  {
    var a, b := ps[..k], ps[k + 1..];
    assert IdAbsent(a, ps[k].id) by {
      forall i | 0 <= i < |a| ensures a[i].id != ps[k].id { assert a[i] == ps[i]; }
    }
    assert IdAbsent(b, ps[k].id) by {
      forall i | 0 <= i < |b| ensures b[i].id != ps[k].id { assert b[i] == ps[k + 1 + i]; }
    }
    assert ps == a + [ps[k]] + b;
    RemoveBetween(a, ps[k], b);
  }

  /** Create then delete of a fresh id restores the list. */
  lemma RemoveAfterAppend(ps: seq<Product>, form: ProductForm, id: int)
    requires IdAbsent(ps, id)
    ensures RemoveById(AppendCreated(ps, form, id), id) == ps
  {
    RemoveByIdConcat(ps, [Created(form, id)], id);
    assert RemoveById([Created(form, id)], id) == [];
  }

  /** Saving the edit form unchanged, as the edit button filled it in, leaves
   *  a list with distinct ids as it was. */
  lemma MergeOwnFormIsIdentity(ps: seq<Product>, k: nat)
    requires DistinctIds(ps) && k < |ps|
    ensures MergeById(ps, ps[k].id, FormOf(ps[k])) == ps
  {
    var r := MergeById(ps, ps[k].id, FormOf(ps[k]));
    OverlayOwnForm(ps[k]);
    assert forall i :: 0 <= i < |ps| ==> r[i] == ps[i];
  }

  /** With distinct ids, updating the id of a listed product changes exactly
   *  that product: its five form fields become the form, all else stays. */
  lemma MergeListedProduct(ps: seq<Product>, k: nat, form: ProductForm)
    requires DistinctIds(ps) && k < |ps|
    ensures MergeById(ps, ps[k].id, form) == ps[k := Overlay(ps[k], form)]
  {
    var r := MergeById(ps, ps[k].id, form);
    assert forall i :: 0 <= i < |ps| && i != k ==> r[i] == ps[i];
  }

  /** Submitting the same edit twice is submitting it once. */
  lemma MergeByIdIdempotent(ps: seq<Product>, id: int, form: ProductForm)
    ensures MergeById(MergeById(ps, id, form), id, form) == MergeById(ps, id, form)
  {
    var r := MergeById(ps, id, form);
    var rr := MergeById(r, id, form);
    forall i | 0 <= i < |ps|
      ensures rr[i] == r[i]
    {
      if ps[i].id == id { OverlayIdempotent(ps[i], form); }
    }
  }

  /** An element counted at most once is not held by two positions. */
  lemma CountedOnceApart<T>(s: seq<T>, i: nat, j: nat)
    requires i < j < |s| && multiset(s)[s[i]] <= 1
    ensures s[i] != s[j]
  {
    assert s == s[..j] + [s[j]] + s[j + 1..];
    assert s[..j][i] == s[i];
  }

  /** In a list with distinct ids no product occurs twice. */
  lemma {:induction false} DistinctIdsCountOnce(b: seq<Product>, x: Product)
    requires DistinctIds(b)
    ensures multiset(b)[x] <= 1
  {
    if b != [] {
      var rest := b[1..];
      assert b == [b[0]] + rest;
      assert DistinctIds(rest) by {
        forall i, j | 0 <= i < j < |rest| ensures rest[i].id != rest[j].id {
          assert rest[i] == b[i + 1] && rest[j] == b[j + 1];
        }
      }
      DistinctIdsCountOnce(rest, x);
      if b[0] == x {
        assert x !in rest by {
          forall i | 0 <= i < |rest| ensures rest[i] != x { assert rest[i] == b[i + 1]; }
        }
      }
    }
  }

  /** In a list with distinct ids two different products have different ids. */
  lemma DistinctIdsApart(b: seq<Product>, x: Product, y: Product)
    requires DistinctIds(b) && x in b && y in b && x != y
    ensures x.id != y.id
  {
    var k :| 0 <= k < |b| && b[k] == x;
    var l :| 0 <= l < |b| && b[l] == y;
    assert k != l;
  }

  /** Taking a sub-multiset of a list with distinct ids keeps ids distinct. */
  lemma SubMultisetKeepsDistinctIds(a: seq<Product>, b: seq<Product>)
    requires multiset(a) <= multiset(b) && DistinctIds(b)
    ensures DistinctIds(a)
  {
    forall i, j | 0 <= i < j < |a|
      ensures a[i].id != a[j].id
    {
      assert a[i] in multiset(b) && a[j] in multiset(b);
      DistinctIdsCountOnce(b, a[i]);
      CountedOnceApart(a, i, j);
      DistinctIdsApart(b, a[i], a[j]);
    }
  }

  /** Appending a product with a fresh id keeps ids distinct. */
  lemma AppendKeepsDistinctIds(ps: seq<Product>, form: ProductForm, id: int)
    requires DistinctIds(ps) && IdAbsent(ps, id)
    ensures DistinctIds(AppendCreated(ps, form, id))
  {
    var r := AppendCreated(ps, form, id);
    assert forall i :: 0 <= i < |ps| ==> r[i] == ps[i];
  }

  /** An update never changes an id, so it keeps ids distinct. */
  lemma MergeKeepsDistinctIds(ps: seq<Product>, id: int, form: ProductForm)
    requires DistinctIds(ps)
    ensures DistinctIds(MergeById(ps, id, form))
  {
    var r := MergeById(ps, id, form);
    assert forall i :: 0 <= i < |ps| ==> r[i].id == ps[i].id;
  }

  /** A delete keeps ids distinct. */
  lemma RemoveKeepsDistinctIds(ps: seq<Product>, id: int)
    requires DistinctIds(ps)
    ensures DistinctIds(RemoveById(ps, id))
  {
    SubMultisetKeepsDistinctIds(RemoveById(ps, id), ps);
  }
}

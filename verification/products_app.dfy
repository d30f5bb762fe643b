/**
 * An in-memory product registry.
 *
 * A `Product` is a mutable object with an optional name and a sold flag that
 * validates itself on request. A `Products` registry owns an insertion-ordered
 * list of products, adds new ones after a null check and validation, marks a
 * product sold in place, and exposes `Items`: the unsold products, recomputed
 * from the current state on every read. Products are shared references, so a
 * product marked sold through any reference drops out of `Items`.
 *
 * The exceptions the C# code throws become an `Outcome` value.
 */
module ProductsApp {

  /** A value that may be absent, standing for a nullable string. */
  datatype Option<+T> = None | Some(value: T)

  /** The two exceptions the registry throws. */
  datatype Error =
    | ArgumentNull   // the product reference was null
    | NameRequired   // the product's name was null at validation time

  /** The outcome of an operation that returns nothing but may throw. */
  datatype Outcome = Pass | Fail(error: Error)

  class Product {
    var name: Option<string>
    var isSold: bool

    /** Object initialiser `new Product() { Name = name, IsSold = isSold }`. */
    constructor (name: Option<string>, isSold: bool)
      ensures this.name == name && this.isSold == isSold
    {
      this.name := name;
      this.isSold := isSold;
    }

    /**
     * Rejects a missing name. A present name is assigned to itself, so the
     * object is left as it was either way; an empty name is accepted.
     */
    method Validate() returns (r: Outcome)
      modifies this
      ensures r == Pass <==> old(name).Some?
      ensures r == Fail(NameRequired) <==> old(name).None?
      ensures unchanged(this)
    {
      if name.None? {
        return Fail(NameRequired);
      }
      name := name;
      r := Pass;
    }
  }

  /** `a` is `b` with some elements dropped and the rest kept in order. */
  predicate IsSubsequence<T(==)>(a: seq<T>, b: seq<T>)
  {
    a == [] || (b != [] && ((a[0] == b[0] && IsSubsequence(a[1..], b[1..])) || IsSubsequence(a, b[1..])))
  }

  /** Putting the same element in front of both sides keeps, or extends, a subsequence. */
  lemma SubsequenceCons<T>(x: T, a: seq<T>, b: seq<T>)
    requires IsSubsequence(a, b)
    ensures IsSubsequence([x] + a, [x] + b)
    ensures IsSubsequence(a, [x] + b)
  {
    assert ([x] + a)[1..] == a;
    assert ([x] + b)[1..] == b;
  }

  /**
   * The products of `ps` that are not sold, in their order in `ps`: an
   * order-preserving filter over the current sold flags.
   */
  function UnsoldOf(ps: seq<Product>): (r: seq<Product>)
    reads ps
    ensures IsSubsequence(r, ps)
    ensures forall i :: 0 <= i < |r| ==> r[i] in ps && !r[i].isSold
    ensures forall i :: 0 <= i < |ps| && !ps[i].isSold ==> ps[i] in r
  {
    if ps == [] then []
    else
      SubsequenceCons(ps[0], UnsoldOf(ps[1..]), ps[1..]);
      if ps[0].isSold then UnsoldOf(ps[1..]) else [ps[0]] + UnsoldOf(ps[1..])
  }

  /** `s` with every occurrence of `x` removed, order kept. */
  function Without<T(==)>(s: seq<T>, x: T): (r: seq<T>)
    ensures IsSubsequence(r, s)
    ensures forall i :: 0 <= i < |r| ==> r[i] in s && r[i] != x
    ensures forall i :: 0 <= i < |s| && s[i] != x ==> s[i] in r
  {
    if s == [] then []
    else
      var rest := Without(s[1..], x);
      SubsequenceCons(s[0], rest, s[1..]);
      assert [s[0]] + s[1..] == s;
      if s[0] == x then rest else [s[0]] + rest
  }

  /** The names of `ps`, position by position (LINQ `Select(f => f.Name)`). */
  function NamesOf(ps: seq<Product>): (r: seq<Option<string>>)
    reads ps
    ensures |r| == |ps|
    ensures forall i :: 0 <= i < |ps| ==> r[i] == ps[i].name
  {
    if ps == [] then [] else [ps[0].name] + NamesOf(ps[1..])
  }

  /** Appending one product extends the unsold view by that product exactly when it is unsold. */
  lemma {:induction false} UnsoldOfAppend(ps: seq<Product>, p: Product)
    ensures UnsoldOf(ps + [p]) == UnsoldOf(ps) + (if p.isSold then [] else [p])
  {
    if ps == [] {
      assert ps + [p] == [p];
    } else {
      assert (ps + [p])[1..] == ps[1..] + [p];
      UnsoldOfAppend(ps[1..], p);
    }
  }

  /**
   * The filter keeps every occurrence of an unsold product and drops every
   * occurrence of a sold one.
   */
  lemma {:induction false} UnsoldOfCount(ps: seq<Product>, x: Product)
    ensures multiset(UnsoldOf(ps))[x] == if x.isSold then 0 else multiset(ps)[x]
  {
    if ps != [] {
      UnsoldOfCount(ps[1..], x);
      assert ps == [ps[0]] + ps[1..];
    }
  }

  /** Removing `x` shortens `s` by the number of times `x` occurs in it. */
  lemma {:induction false} WithoutLength<T>(s: seq<T>, x: T)
    ensures |Without(s, x)| == |s| - multiset(s)[x]
  {
    if s != [] {
      WithoutLength(s[1..], x);
      assert s == [s[0]] + s[1..];
    }
  }

  /** Removing an element that does not occur changes nothing. */
  lemma {:induction false} WithoutAbsent<T>(s: seq<T>, x: T)
    requires x !in s
    ensures Without(s, x) == s
  {
    if s != [] {
      WithoutAbsent(s[1..], x);
      assert [s[0]] + s[1..] == s;
    }
  }

  /** Removing the same element twice is the same as removing it once. */
  lemma {:induction false} WithoutIdempotent<T>(s: seq<T>, x: T)
    ensures Without(Without(s, x), x) == Without(s, x)
  {
    WithoutAbsent(Without(s, x), x);
  }

  /**
   * When flags only move from unsold to sold, the unsold view now is the
   * current filter applied to the unsold view before.
   */
  twostate lemma {:induction false} UnsoldOfMonotone(ps: seq<Product>)
    requires forall q :: q in ps && old(q.isSold) ==> q.isSold
    ensures UnsoldOf(ps) == UnsoldOf(old(UnsoldOf(ps)))
  {
    if ps != [] {
      UnsoldOfMonotone(ps[1..]);
    }
  }

  /** Filtering a view in which only `p` is sold removes exactly `p`. */
  lemma {:induction false} UnsoldOfOnlyOneSold(s: seq<Product>, p: Product)
    requires p.isSold
    requires forall i :: 0 <= i < |s| && s[i] != p ==> !s[i].isSold
    ensures UnsoldOf(s) == Without(s, p)
  {
    if s != [] {
      UnsoldOfOnlyOneSold(s[1..], p);
    }
  }

  class Products {
    /** The backing list, in insertion order; sold products stay in it. */
    var products: seq<Product>

    constructor ()
      ensures products == [] && Items() == []
    {
      products := [];
    }

    /** The unsold products, in insertion order, recomputed from the current state. */
    function Items(): (r: seq<Product>)
      reads this, products
      ensures IsSubsequence(r, products)
      ensures forall i :: 0 <= i < |r| ==> r[i] in products && !r[i].isSold
      ensures forall i :: 0 <= i < |products| && !products[i].isSold ==> products[i] in r
      ensures forall x {:trigger multiset(r)[x]} :: x in products ==> multiset(r)[x] == if x.isSold then 0 else multiset(products)[x]
    {
      assert forall x :: x in products ==>
        multiset(UnsoldOf(products))[x] == if x.isSold then 0 else multiset(products)[x]
      by {
        forall x | x in products {
          UnsoldOfCount(products, x);
        }
      }
      UnsoldOf(products)
    }

    /**
     * Rejects a null product, then validates it, and only if both pass
     * appends it at the end. A failure changes nothing.
     */
    method AddNew(product: Product?) returns (r: Outcome)
      modifies this, product
      ensures product == null ==> r == Fail(ArgumentNull)
      ensures product != null && product.name.None? ==> r == Fail(NameRequired)
      ensures product != null && product.name.Some? ==> r == Pass
      ensures product != null ==> unchanged(product)
      ensures r.Fail? ==> products == old(products) && Items() == old(Items())
      ensures r.Pass? ==> products == old(products) + [product]
      ensures r.Pass? ==> Items() == old(Items()) + (if product.isSold then [] else [product])
    {
      if product == null {
        return Fail(ArgumentNull);
      }
      var v := product.Validate();
      if v.Fail? {
        return v;
      }
      UnsoldOfAppend(products, product);
      products := products + [product];
      r := Pass;
    }

    /**
     * Marks `product` sold in place, with no null or membership check beyond
     * the non-null type. Nothing else changes: the backing list stays the same
     * and only `product` leaves the unsold view.
     */
    method Sold(product: Product)
      modifies product
      ensures product.isSold && product.name == old(product.name)
      ensures old(product.isSold) ==> unchanged(product)
      ensures products == old(products)
      ensures Items() == Without(old(Items()), product)
      ensures product !in Items()
      ensures product !in products ==> Items() == old(Items())
      ensures !old(product.isSold) && multiset(products)[product] == 1 ==> |Items()| == |old(Items())| - 1
    {
      product.isSold := true;
      UnsoldOfMonotone(products);
      UnsoldOfOnlyOneSold(old(Items()), product);
      if product !in products {
        WithoutAbsent(old(Items()), product);
      }
      WithoutLength(old(Items()), product);
    }
  }
}

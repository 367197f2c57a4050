/**
  The home page: a local cart of product ids with set-like insertion and a clear,
  and the "Bestsellers" strip showing the first three products with a bare price.
*/
module HomePage {
  import opened Numbers
  import opened Products

  predicate NoDuplicates(s: seq<Number>) {
    forall i, j :: 0 <= i < j < |s| ==> s[i] != s[j]
  }

  /** The cart update of `handleAddToCart`: append the id unless `includes` finds it.
      `includes` compares with SameValueZero, which is datatype equality on Number. */
  function AddId(cart: seq<Number>, id: Number): (r: seq<Number>)
    ensures id in r
    ensures forall x :: x in r <==> x in cart || x == id
    ensures id in cart ==> r == cart
    ensures id !in cart ==> r == cart + [id]
    ensures NoDuplicates(cart) ==> NoDuplicates(r)
  {
    if id in cart then cart else cart + [id]
  }

  /** The cart after a run of add calls, one id per call, in order. */
  function AddAll(cart: seq<Number>, ids: seq<Number>): seq<Number>
    decreases |ids|
  {
    if ids == [] then cart else AddAll(AddId(cart, ids[0]), ids[1..])
  }

  /** Whatever ids are added, and in whatever order: the cart never holds an id twice,
      holds exactly the ids it held or was given, and keeps what it held as its prefix. */
  lemma {:induction false} AddAllProperties(cart: seq<Number>, ids: seq<Number>)
    requires NoDuplicates(cart)
    ensures NoDuplicates(AddAll(cart, ids))
    ensures forall x :: x in AddAll(cart, ids) <==> x in cart || x in ids
    ensures |cart| <= |AddAll(cart, ids)| && AddAll(cart, ids)[..|cart|] == cart
    decreases |ids|
  {
    if ids != [] {
      var next := AddId(cart, ids[0]);
      AddAllProperties(next, ids[1..]);
      assert forall x :: x in ids <==> x == ids[0] || x in ids[1..];
      assert next[..|cart|] == cart;
      assert AddAll(cart, ids)[..|cart|] == AddAll(next, ids[1..])[..|next|][..|cart|];
    }
  }

  /** Adding the same id twice in a row is the same as adding it once. */
  lemma AddIdIdempotent(cart: seq<Number>, id: Number)
    ensures AddId(AddId(cart, id), id) == AddId(cart, id)
  {
  }

  /** The `cart` state of the home page. */
  class HomeCart {
    var cart: seq<Number>

    ghost predicate Valid()
      reads this
    {
      NoDuplicates(cart)
    }

    constructor ()
      ensures Valid() && cart == []
    {
      cart := [];
    }

    /** Add to cart: coerce the id with `Number`, add it to the local cart, and pass it
        on to the parent's `onAddToCart` (returned here) on every call, repeats included. */
    method HandleAddToCart(productId: IdValue) returns (forwarded: Number)
      requires Valid()
      modifies this
      ensures Valid()
      ensures forwarded == ToNumber(productId)
      ensures cart == AddId(old(cart), forwarded)
    {
      var id := ToNumber(productId);
      cart := AddId(cart, id);
      forwarded := id;
    }

    /** Empty the cart whatever it held; the returned text is the alert shown. */
    method ClearCart() returns (alert: string)
      modifies this
      ensures Valid() && cart == []
      ensures alert == "Корзина очищена!"
    {
      cart := [];
      alert := "Корзина очищена!";
    }

    /** `cart.length > 0`: the clear button is rendered exactly when the cart holds an id. */
    function ShowsClearButton(): (r: bool)
      reads this
      ensures r <==> exists x :: x in cart
    {
      assert |cart| > 0 ==> cart[0] in cart;
      |cart| > 0
    }
  }

  /** "Details": the parent's `onProductSelect` gets `Number(productId)`. */
  function HandleDetailsClick(productId: IdValue): (r: Number)
    ensures productId.NumId? ==> r == productId.num
    ensures productId.StrId? ==> r == StringToNumber(productId.str)
  {
    ToNumber(productId)
  }

  function Min(a: int, b: int): int {
    if a <= b then a else b
  }

  /** `products.slice(0, 3).map(p => ({...p, price: `${p.price}`}))`. */
  function Bestsellers(products: seq<Product>): (r: seq<DisplayProduct>)
    ensures |r| == Min(3, |products|)
    ensures forall i :: 0 <= i < |r| ==>
              && r[i].id == products[i].id
              && r[i].imageUrl == products[i].imageUrl
              && r[i].title == products[i].title
              && r[i].description == products[i].description
              && r[i].price == IntToString(products[i].price)
              && StringToNumber(r[i].price) == Int(products[i].price)
  {
    var shown := products[..Min(3, |products|)];
    var r := ToDisplay(shown, "");
    assert forall i :: 0 <= i < |r| ==> r[i].price == IntToString(shown[i].price);
    forall i | 0 <= i < |r|
      ensures StringToNumber(r[i].price) == Int(products[i].price)
    {
      NumberRoundTrip(Int(products[i].price));
    }
    r
  }
}

/**
  The product records the pages share: the shape of the static numeric tables, the
  display record handed to the Catalog component, the `find` lookup and the
  "added to cart" notification text.
*/
module Products {
  import opened Wrappers
  import opened Numbers

  /** An entry of a static product table: numeric id and price. Image URLs are
      opaque strings (the asset a bundler import resolves to). */
  datatype Product = Product(id: int, imageUrl: string, title: string, description: string, price: int)

  /** The record given to the Catalog component: the product with its `price`
      replaced by a text label. */
  datatype DisplayProduct = DisplayProduct(id: int, imageUrl: string, title: string, description: string, price: string)

  function ProductId(p: Product): int {
    p.id
  }

  /** `table.find(p => key(p) === id)`: the first entry whose key is `id`. */
  function Find<T>(table: seq<T>, key: T -> int, id: int): (r: Option<T>)
    ensures r.None? <==> forall i :: 0 <= i < |table| ==> key(table[i]) != id
    ensures r.Some? ==> exists i :: 0 <= i < |table| && table[i] == r.value && key(table[i]) == id
                                    && forall j :: 0 <= j < i ==> key(table[j]) != id
    decreases |table|
  {
    if table == [] then None
    else if key(table[0]) == id then Some(table[0])
    else
      var r := Find(table[1..], key, id);
      assert r.Some? ==> exists i :: 0 <= i < |table[1..]| && table[1..][i] == r.value && key(table[1..][i]) == id
                                     && forall j :: 0 <= j < i ==> key(table[1..][j]) != id;
      assert r.Some? ==> exists i :: 1 <= i < |table| && table[i] == r.value && key(table[i]) == id
                                     && forall j :: 0 <= j < i ==> key(table[j]) != id;
      r
  }

  /** `table.find(p => key(p) === x)` for a JavaScript number `x`: NaN matches nothing. */
  function FindNumber<T>(table: seq<T>, key: T -> int, x: Number): (r: Option<T>)
    ensures x.NaN? ==> r.None?
    ensures x.Int? ==> r == Find(table, key, x.value)
    ensures r.Some? ==> r.value in table && StrictEquals(x, key(r.value))
    ensures r.None? <==> forall i :: 0 <= i < |table| ==> !StrictEquals(x, key(table[i]))
  {
    match x
    case NaN => None
    case Int(n) => Find(table, key, n)
  }

  /** A hit on an entry whose key no earlier entry shares is that entry. */
  lemma FindFirst<T>(table: seq<T>, key: T -> int, k: nat)
    requires k < |table|
    requires forall j :: 0 <= j < k ==> key(table[j]) != key(table[k])
    ensures Find(table, key, key(table[k])) == Some(table[k])
  {
    var r := Find(table, key, key(table[k]));
    var i :| 0 <= i < |table| && table[i] == r.value && key(table[i]) == key(table[k])
             && forall j :: 0 <= j < i ==> key(table[j]) != key(table[k]);
    assert !(i < k) && !(k < i);
  }

  /** What a page's back button does: call the parent's `onBack`, or go back in the
      browser history. */
  datatype BackAction = CallOnBack | HistoryBack

  /** `onBack ? onBack() : window.history.back()`, as both pages write it. */
  function BackClick(hasOnBack: bool): (r: BackAction)
    ensures r == CallOnBack <==> hasOnBack
  {
    if hasOnBack then CallOnBack else HistoryBack
  }

  /** In a table whose ids are 1, 2, ..., |t| in order, a number finds the entry at
      index id - 1, and any other number (NaN included) finds nothing. */
  lemma FindInNumberedTable<T>(t: seq<T>, key: T -> int, x: Number)
    requires forall i :: 0 <= i < |t| ==> key(t[i]) == i + 1
    ensures x.Int? && 1 <= x.value <= |t| ==> FindNumber(t, key, x) == Some(t[x.value - 1])
    ensures !(x.Int? && 1 <= x.value <= |t|) ==> FindNumber(t, key, x) == None
  {
    if x.Int? && 1 <= x.value <= |t| {
      FindFirst(t, key, x.value - 1);
    }
  }

  /** `${product?.title}`: the title, or "undefined" when the lookup missed. */
  function TitleText(p: Option<Product>): (r: string)
    ensures p.Some? ==> r == p.value.title
    ensures p.None? ==> r == "undefined"
  {
    match p
    case Some(q) => q.title
    case None => "undefined"
  }

  /** In a table numbered 1..n, the lookup-and-alert of an add-to-cart handler names
      entry id - 1 for a table id and "undefined" for any other number. */
  lemma AddedAlertInNumberedTable(t: seq<Product>, x: Number)
    requires forall i :: 0 <= i < |t| ==> t[i].id == i + 1
    ensures x.Int? && 1 <= x.value <= |t| ==>
              AddedAlert(TitleText(FindNumber(t, ProductId, x))) == AddedAlert(t[x.value - 1].title)
    ensures !(x.Int? && 1 <= x.value <= |t|) ==>
              AddedAlert(TitleText(FindNumber(t, ProductId, x))) == AddedAlert("undefined")
  {
    FindInNumberedTable(t, ProductId, x);
  }

  /** The alert shown after adding to the cart: the title in double quotes. */
  function AddedAlert(title: string): (r: string)
    ensures |r| > |title| + 1 && r[0] == '"' && r[1..|title| + 1] == title && r[|title| + 1] == '"'
  {
    "\"" + title + "\" добавлен в корзину!"
  }

  /** Replace the price with its decimal text followed by `suffix`: `${price}${suffix}`. */
  function WithPriceLabel(p: Product, suffix: string): DisplayProduct {
    DisplayProduct(p.id, p.imageUrl, p.title, p.description, IntToString(p.price) + suffix)
  }

  /** `products.map(p => ({...p, price: `${p.price}${suffix}`}))`. */
  function ToDisplay(products: seq<Product>, suffix: string): (r: seq<DisplayProduct>)
    ensures |r| == |products|
    ensures forall i :: 0 <= i < |r| ==>
              && r[i].id == products[i].id
              && r[i].imageUrl == products[i].imageUrl
              && r[i].title == products[i].title
              && r[i].description == products[i].description
              && r[i].price == IntToString(products[i].price) + suffix
  {
    seq(|products|, i requires 0 <= i < |products| => WithPriceLabel(products[i], suffix))
  }

  /** The label carries the price: cutting the suffix off and reading the rest with
      `Number` gives back the numeric price. */
  lemma PriceLabelRoundTrip(products: seq<Product>, suffix: string, i: nat)
    requires i < |products|
    ensures (var text := ToDisplay(products, suffix)[i].price;
             |text| >= |suffix| && text[|text| - |suffix|..] == suffix
             && StringToNumber(text[..|text| - |suffix|]) == Int(products[i].price))
  {
    var text := ToDisplay(products, suffix)[i].price;
    var digits := IntToString(products[i].price);
    assert text[..|text| - |suffix|] == digits;
    NumberRoundTrip(Int(products[i].price));
  }
}

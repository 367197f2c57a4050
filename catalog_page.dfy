/**
  The catalog page: the full product table shown as tiles with a rouble price label,
  and handlers that forward to the callbacks the parent supplies or fall back to a
  local lookup and an alert when it supplies none. The page holds no state.
*/
module CatalogPage {
  import opened Wrappers
  import opened Numbers
  import opened Products

  /** The page's own copy of the product table. Long texts are written as
      concatenations of short literals. */
  function ClothingProducts(): (t: seq<Product>)
    ensures |t| == 9
    ensures forall i :: 0 <= i < |t| ==> t[i].id == i + 1
  {
    [
      Product(1, "assets/dress.jpg", "Летнее платье",
        "Легкое " + "хлопковое " + "платье " + "с " + "цветочным " + "принтом, " + "идеально " + "для " + "жарких " + "дней",
        4599),
      Product(2, "assets/jacket.jpg", "Джинсовая куртка",
        "Классическая " + "джинсовая " + "куртка " + "с " + "современным " + "кроем и " + "удобными " + "карманами",
        7999),
      Product(3, "assets/shirt.jpg", "Классическая рубашка",
        "Хлопковая " + "рубашка " + "с " + "длинными " + "рукавами, " + "подходит " + "для " + "офиса и " + "повседневной " + "носки",
        3999),
      Product(4, "assets/trousers.jpg", "Спортивные брюки",
        "Базовые " + "брюки " + "для " + "тренировок " + "с " + "высокой " + "талией " + "и " + "карманом " + "для " + "телефона",
        3499),
      Product(5, "assets/sweater.jpg", "Вязаный свитер",
        "Теплый " + "свитер " + "из " + "мягкой " + "шерсти " + "с " + "узором " + "кос, " + "идеален " + "для " + "холодной " + "погоды",
        6599),
      Product(6, "assets/evening_dress.jpg", "Вечернее платье",
        "Элегантное " + "вечернее " + "платье " + "с " + "открытыми " + "плечами " + "и " + "струящимся " + "силуэтом",
        12999),
      Product(7, "assets/jeans.jpg", "Джинсы",
        "Джинсы " + "Wide " + "leg в " + "светло-голубом " + "цвете с " + "удобной " + "посадкой",
        5999),
      Product(8, "assets/trousers2.jpg", "Брюки",
        "Широкие " + "классические " + "брюки в " + "коричневом " + "цвете",
        5999),
      Product(9, "assets/skirt.jpg", "Юбка",
        "Черная " + "мини-юбка " + "с рюшами",
        2799)
    ]
  }

  /** Which of the optional callbacks the parent supplied. */
  datatype Props = Props(hasOnProductSelect: bool, hasOnAddToCart: bool, hasOnBack: bool)

  /** What a click handler does: call the parent's callback with a number, or alert. */
  datatype Action = Forward(id: Number) | Alert(message: string)

  /** The suffix the catalog appends to every price. */
  const RoubleSuffix: string := " ₽"

  /** The list given to the Catalog component. */
  function CatalogProducts(): (r: seq<DisplayProduct>)
    ensures |r| == |ClothingProducts()|
    ensures forall i :: 0 <= i < |r| ==>
              && r[i].id == ClothingProducts()[i].id
              && r[i].imageUrl == ClothingProducts()[i].imageUrl
              && r[i].title == ClothingProducts()[i].title
              && r[i].description == ClothingProducts()[i].description
              && r[i].price == IntToString(ClothingProducts()[i].price) + RoubleSuffix
  {
    ToDisplay(ClothingProducts(), RoubleSuffix)
  }

  /** Every price label is the numeric price followed by " ₽", and reads back as that price. */
  lemma CatalogPriceLabels(i: nat)
    requires i < |CatalogProducts()|
    ensures (var text := CatalogProducts()[i].price;
             text[|text| - 2..] == " ₽" && StringToNumber(text[..|text| - 2]) == Int(ClothingProducts()[i].price))
  {
    PriceLabelRoundTrip(ClothingProducts(), RoubleSuffix, i);
  }

  /** Add to cart: forward `Number(productId)` to `onAddToCart`, or look the id up in
      the local table and alert its title ("undefined" on a miss). */
  function HandleAddToCart(props: Props, productId: IdValue): (r: Action)
    ensures props.hasOnAddToCart ==> r == Forward(ToNumber(productId))
    ensures !props.hasOnAddToCart ==>
              r == Alert(AddedAlert(TitleText(FindNumber(ClothingProducts(), ProductId, ToNumber(productId)))))
  {
    var id := ToNumber(productId);
    if props.hasOnAddToCart then Forward(id)
    else Alert(AddedAlert(TitleText(FindNumber(ClothingProducts(), ProductId, id))))
  }

  /** Without a callback, a table id alerts that entry's title and any other id alerts
      "undefined": a miss is never a failure. */
  lemma FallbackAddToCart(props: Props, productId: IdValue)
    requires !props.hasOnAddToCart
    ensures (var x := ToNumber(productId);
             if x.Int? && 1 <= x.value <= 9
             then HandleAddToCart(props, productId) == Alert(AddedAlert(ClothingProducts()[x.value - 1].title))
             else HandleAddToCart(props, productId) == Alert(AddedAlert("undefined")))
  {
    FindInNumberedTable(ClothingProducts(), ProductId, ToNumber(productId));
  }

  /** "Details": forward `Number(productId)` to `onProductSelect`, or alert the raw id. */
  function HandleDetailsClick(props: Props, productId: IdValue): (r: Action)
    ensures props.hasOnProductSelect ==> r == Forward(ToNumber(productId))
    ensures !props.hasOnProductSelect ==> r == Alert("Выбран товар с ID: " + IdText(productId))
  {
    if props.hasOnProductSelect then Forward(ToNumber(productId))
    else Alert("Выбран товар с ID: " + IdText(productId))
  }

  /** The back button is rendered only when `onBack` is supplied, so its fallback
      to the browser history is never taken from this page's own button. */
  function ShowsBackButton(props: Props): (r: bool)
    ensures r ==> BackClick(props.hasOnBack) == CallOnBack
    ensures !r ==> !props.hasOnBack
  {
    props.hasOnBack
  }
}

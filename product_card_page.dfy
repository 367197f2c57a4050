/**
  The product detail page: the id it receives as text is read with `Number` and
  looked up in the page's own table (which carries per-product details); a miss is
  an explicit "not found" view. The selection is component state, written by an
  effect that runs only when the id is truthy.
*/
module ProductCardPage {
  import opened Wrappers
  import opened Numbers
  import opened Products

  datatype ProductDetails = ProductDetails(material: string, color: string, size: string, care: string)

  /** An entry of this page's table: a product with its detail fields. */
  datatype ClothingProduct = ClothingProduct(id: int, imageUrl: string, title: string, description: string,
                                             price: int, details: ProductDetails)

  /** The page's table. Long texts are written as concatenations of short literals. */
  function ClothingProducts(): (t: seq<ClothingProduct>)
    ensures |t| == 9
    ensures forall i :: 0 <= i < |t| ==> t[i].id == i + 1
  {
    [
      ClothingProduct(1, "assets/dress.jpg", "Летнее платье",
        "Легкое " + "хлопковое " + "платье " + "с " + "цветочным " + "принтом, " + "идеально " + "для " + "жарких " + "дней. " + "Идеально " + "подходит " + "для " + "прогулок, " + "пляжного " + "отдыха " + "и " + "летних " + "вечеринок.",
        4599,
        ProductDetails("100% " + "хлопок", "Цветочный " + "принт", "XS, S, " + "M, L, XL", "Стирка " + "при " + "30°C, " + "гладить " + "при " + "средней " + "температуре")),
      ClothingProduct(2, "assets/jacket.jpg", "Джинсовая куртка",
        "Классическая " + "джинсовая " + "куртка " + "с " + "современным " + "кроем и " + "удобными " + "карманами. " + "Изготовлена " + "из " + "плотного " + "денима, " + "который " + "сохраняет " + "форму и " + "защищает " + "от " + "ветра.",
        7999,
        ProductDetails("Деним " + "(100% " + "хлопок)", "Синий " + "деним", "S, M, " + "L, XL", "Стирка " + "при " + "40°C, " + "не " + "отбеливать")),
      ClothingProduct(3, "assets/shirt.jpg", "Классическая рубашка",
        "Хлопковая " + "рубашка " + "с " + "длинными " + "рукавами, " + "подходит " + "для " + "офиса и " + "повседневной " + "носки.",
        3999,
        ProductDetails("100% " + "хлопок", "Белый, " + "голубой, " + "розовый", "XS, S, " + "M, L, " + "XL, XXL", "Стирка " + "при " + "30°C, " + "гладить " + "с паром")),
      ClothingProduct(4, "assets/trousers.jpg", "Спортивные брюки",
        "Брюки " + "для " + "тренировок " + "с " + "высокой " + "талией. " + "Эластичная " + "ткань " + "обеспечивает " + "полную " + "свободу " + "движений " + "во " + "время " + "занятий " + "спортом.",
        3499,
        ProductDetails("Полиэстер " + "85%, " + "Эластан " + "15%", "Черный, " + "серый, " + "синий", "XS, S, " + "M, L, XL", "Стирка " + "при " + "40°C, " + "сушить " + "вдали " + "от " + "прямых " + "солнечных " + "лучей")),
      ClothingProduct(5, "assets/sweater.jpg", "Вязаный свитер",
        "Теплый " + "свитер " + "из " + "мягкой " + "шерсти. " + "Нежный " + "материал " + "не " + "вызывает " + "раздражения " + "и " + "сохраняет " + "тепло " + "даже в " + "морозную " + "погоду.",
        6599,
        ProductDetails("Шерсть " + "70%, " + "Акрил " + "30%", "Бежевый, " + "серый, " + "бордовый", "S, M, " + "L, XL", "Ручная " + "стирка " + "при " + "30°C, " + "сушить " + "горизонтально")),
      ClothingProduct(6, "assets/evening_dress.jpg", "Вечернее платье",
        "Элегантное " + "вечернее " + "платье " + "с " + "открытыми " + "плечами " + "и " + "струящимся " + "силуэтом. " + "Идеально " + "для " + "торжественных " + "мероприятий, " + "свадеб " + "и " + "романтических " + "ужинов.",
        12999,
        ProductDetails("Шелк " + "100%", "Черный, " + "красный, " + "золотой", "XS, S, " + "M, L", "Химчистка " + "только")),
      ClothingProduct(7, "assets/jeans.jpg", "Джинсы",
        "Джинсы " + "Wide " + "leg в " + "светло-голубом " + "цвете с " + "удобной " + "посадкой",
        5999,
        ProductDetails("Хлопок " + "100%", "Голубой", "XS, S, " + "M, L", "Ручная " + "стирка " + "при 30°C")),
      ClothingProduct(8, "assets/trousers2.jpg", "Брюки",
        "Широкие " + "классические " + "брюки в " + "коричневом " + "цвете",
        5999,
        ProductDetails("Хлопок, " + "полиэстер", "Коричневый", "XS, S, " + "M, L", "Ручная " + "стирка " + "при 30°C")),
      ClothingProduct(9, "assets/skirt.jpg", "Юбка",
        "Черная " + "мини-юбка " + "с рюшами",
        2799,
        ProductDetails("Хлопок", "Черный", "XS, S, " + "M, L", "Ручная " + "стирка " + "при 30°C"))
    ]
  }

  function ClothingId(p: ClothingProduct): int {
    p.id
  }

  /** `if (productId)`: an absent or empty id is falsy. */
  predicate IsTruthy(productId: Option<string>) {
    productId.Some? && productId.value != ""
  }

  /** `clothingProducts.find(p => p.id === Number(productId))`: since the ids are
      exactly 1..9, a hit is the entry at index id - 1, and every other number
      (NaN included) is a miss. */
  function Lookup(productId: string): (r: Option<ClothingProduct>)
    ensures (var x := StringToNumber(productId);
             if x.Int? && 1 <= x.value <= 9 then r == Some(ClothingProducts()[x.value - 1]) else r == None)
  {
    FindInNumberedTable(ClothingProducts(), ClothingId, StringToNumber(productId));
    FindNumber(ClothingProducts(), ClothingId, StringToNumber(productId))
  }

  /** Ids are distinct: whichever entry matches the parsed id is the one selected. */
  lemma HitIsUnique(productId: string, i: nat)
    requires i < |ClothingProducts()|
    requires StrictEquals(StringToNumber(productId), ClothingProducts()[i].id)
    ensures Lookup(productId) == Some(ClothingProducts()[i])
  {
    FindInNumberedTable(ClothingProducts(), ClothingId, StringToNumber(productId));
  }

  /** Round trip with the caller: the id written with `toString` selects the entry
      with that id, and any other number selects nothing. */
  lemma LookupOfToString(x: Number)
    ensures Lookup(NumberToString(x)) == FindNumber(ClothingProducts(), ClothingId, x)
    ensures x.Int? && 1 <= x.value <= 9 ==> Lookup(NumberToString(x)) == Some(ClothingProducts()[x.value - 1])
    ensures !(x.Int? && 1 <= x.value <= 9) ==> Lookup(NumberToString(x)) == None
  {
    NumberRoundTrip(x);
    FindInNumberedTable(ClothingProducts(), ClothingId, x);
  }

  /** The component's `selectedProduct` state. */
  class ProductCardState {
    var selectedProduct: Option<ClothingProduct>

    constructor ()
      ensures selectedProduct == None
    {
      selectedProduct := None;
    }

    /** The effect run on mount and whenever `productId` changes: a truthy id replaces
        the selection with the lookup result (None on a miss); a falsy one leaves it. */
    method SyncWithProductId(productId: Option<string>)
      modifies this
      ensures IsTruthy(productId) ==> selectedProduct == Lookup(productId.value)
      ensures !IsTruthy(productId) ==> selectedProduct == old(selectedProduct)
    {
      if IsTruthy(productId) {
        selectedProduct := Lookup(productId.value);
      }
    }

    /** Add to cart: an alert naming the selected product, and nothing without one. */
    method HandleAddToCart() returns (alert: Option<string>)
      ensures alert.Some? <==> selectedProduct.Some?
      ensures alert.Some? ==> alert.value == AddedAlert(selectedProduct.value.title)
    {
      if selectedProduct.Some? {
        alert := Some(AddedAlert(selectedProduct.value.title));
      } else {
        alert := None;
      }
    }
  }

  /** The props of the featured ProductCard. */
  datatype CardProps = CardProps(id: int, imageUrl: string, title: string, description: string, price: string)

  /** What the page renders: the not-found view, or the product's heading, card and details. */
  datatype PageView = NotFound | Found(heading: string, card: CardProps, details: ProductDetails)

  /** Rendering of a selection. `formatPrice` stands for the locale number formatter. */
  function Render(selected: Option<ClothingProduct>, formatPrice: int -> string): (v: PageView)
    ensures v.NotFound? <==> selected.None?
    ensures selected.Some? ==>
              && v.heading == selected.value.title
              && v.card == CardProps(selected.value.id, selected.value.imageUrl, selected.value.title,
                                     selected.value.description, formatPrice(selected.value.price) + " ₽")
              && v.details == selected.value.details
  {
    match selected
    case None => NotFound
    case Some(p) =>
      Found(p.title, CardProps(p.id, p.imageUrl, p.title, p.description, formatPrice(p.price) + " ₽"), p.details)
  }
}

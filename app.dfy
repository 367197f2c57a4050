/**
  The application shell: the navigator state (current page and selected product id),
  its handlers, the header's active nav button, the page component mounted for each
  state, and the shell's own product table.
*/
module App {
  import opened Wrappers
  import opened Numbers
  import P = Products
  import CatalogPage
  import ProductCardPage
  import HomePage

  /** The shell's product table, handed to the home page. Long texts are written as
      concatenations of short literals. */
  function ClothingProducts(): (t: seq<P.Product>)
    ensures |t| == 9
    ensures forall i :: 0 <= i < |t| ==> t[i].id == i + 1
  {
    [
      P.Product(1, "assets/dress.jpg", "Летнее платье",
        "Легкое " + "хлопковое " + "платье " + "с " + "цветочным " + "принтом, " + "идеально " + "для " + "жарких " + "дней",
        4599),
      P.Product(2, "assets/jacket.jpg", "Джинсовая куртка",
        "Классическая " + "джинсовая " + "куртка " + "с " + "современным " + "кроем и " + "удобными " + "карманами",
        7999),
      P.Product(3, "assets/shirt.jpg", "Классическая рубашка",
        "Хлопковая " + "рубашка " + "с " + "длинными " + "рукавами, " + "подходит " + "для " + "офиса и " + "повседневной " + "носки",
        3999),
      P.Product(4, "assets/trousers.jpg", "Спортивные брюки",
        "Базовые " + "брюки " + "для " + "тренировок " + "с " + "высокой " + "талией " + "и " + "карманом " + "для " + "телефона",
        3499),
      P.Product(5, "assets/sweater.jpg", "Вязаный свитер",
        "Теплый " + "свитер " + "из " + "мягкой " + "шерсти " + "с " + "узором " + "кос, " + "идеален " + "для " + "холодной " + "погоды",
        6599),
      P.Product(6, "assets/evening_dress.jpg", "Вечернее платье",
        "Элегантное " + "вечернее " + "платье " + "с " + "открытыми " + "плечами " + "и " + "струящимся " + "силуэтом",
        12999),
      P.Product(7, "assets/jeans.jpg", "Джинсы",
        "Джинсы " + "Wide " + "leg в " + "светло-голубом " + "цвете с " + "удобной " + "посадкой",
        5999),
      P.Product(8, "assets/trousers2.jpg", "Брюки",
        "Широкие " + "классические " + "брюки в " + "коричневом " + "цвете",
        5999),
      P.Product(9, "assets/skirt.jpg", "Юбка",
        "Черная " + "мини-юбка " + "с рюшами",
        2799)
    ]
  }

  /** The values of `currentPage`. */
  datatype Page = Home | Bascket | Product | Catalog | Profile

  /** The four header buttons: Главная, Каталог, Корзина, Профиль. */
  datatype NavButton = HomeButton | CatalogButton | BascketButton | ProfileButton

  /** The page a button's active class is tested against. */
  function ButtonPage(b: NavButton): Page {
    match b
    case HomeButton => Home
    case CatalogButton => Catalog
    case BascketButton => Bascket
    case ProfileButton => Profile
  }

  /** `currentPage === <page> ? 'app__nav-page-btn--active' : ''` */
  predicate IsActive(b: NavButton, current: Page) {
    current == ButtonPage(b)
  }

  /** The one button shown active, if any: the one whose page is the current page;
      the product page has no button, so none is active there. */
  function ActiveButton(current: Page): (r: Option<NavButton>)
    ensures forall b :: IsActive(b, current) <==> r == Some(b)
    ensures r.None? <==> current == Product
  {
    match current
    case Home => Some(HomeButton)
    case Catalog => Some(CatalogButton)
    case Bascket => Some(BascketButton)
    case Profile => Some(ProfileButton)
    case Product => None
  }

  /** A page component with the props the shell gives it. */
  datatype PageElement =
    | HomePageElement(products: seq<P.Product>)
    | CatalogPageElement(props: CatalogPage.Props)
    | BascketPageElement
    | ProductCardPageElement(productId: Option<string>, hasOnBack: bool)
    | ProfilePageElement(hasOnBack: bool)

  function PageOf(e: PageElement): Page {
    match e
    case HomePageElement(_) => Home
    case CatalogPageElement(_) => Catalog
    case BascketPageElement => Bascket
    case ProductCardPageElement(_, _) => Product
    case ProfilePageElement(_) => Profile
  }

  /** `selectedProductId?.toString()`: undefined for null, the decimal text otherwise. */
  function OptionalToString(x: Option<Number>): (r: Option<string>)
    ensures r.None? <==> x.None?
    ensures x.Some? ==> r.value != "" && StringToNumber(r.value) == x.value
  {
    match x
    case None => None
    case Some(n) => NumberRoundTrip(n); Some(NumberToString(n))
  }

  /** `cond && <Element/>`: the element when `cond` holds, nothing otherwise. */
  function When(cond: bool, e: PageElement): seq<PageElement> {
    if cond then [e] else []
  }

  /** The children rendered below the header: one conditional element per page. */
  function MountedPages(current: Page, selected: Option<Number>): (r: seq<PageElement>)
    ensures |r| == 1 && PageOf(r[0]) == current
    ensures current == Home ==> r[0] == HomePageElement(ClothingProducts())
    ensures current == Catalog ==> r[0] == CatalogPageElement(CatalogProps())
    ensures current == Product ==> r[0] == ProductCardPageElement(OptionalToString(selected), true)
    ensures current == Profile ==> r[0] == ProfilePageElement(true)
  {
    When(current == Home, HomePageElement(ClothingProducts()))
    + When(current == Catalog, CatalogPageElement(CatalogProps()))
    + When(current == Bascket, BascketPageElement)
    + When(current == Product, ProductCardPageElement(OptionalToString(selected), true))
    + When(current == Profile, ProfilePageElement(true))
  }

  /** The shell's add-to-cart handler: look the id up in the table and alert the
      title found. A table id alerts that entry's title; any other number, NaN
      included, alerts "undefined": an unknown id is a lookup miss, not a failure.
      No state changes. */
  function HandleAddToCart(productId: Number): (alert: string)
    ensures productId.Int? && 1 <= productId.value <= 9 ==>
              alert == P.AddedAlert(ClothingProducts()[productId.value - 1].title)
    ensures !(productId.Int? && 1 <= productId.value <= 9) ==> alert == P.AddedAlert("undefined")
  {
    P.AddedAlertInNumberedTable(ClothingProducts(), productId);
    P.AddedAlert(P.TitleText(P.FindNumber(ClothingProducts(), P.ProductId, productId)))
  }

  /** The navigator's `useState` pair. */
  class AppState {
    var currentPage: Page
    var selectedProductId: Option<Number>

    /** The product page is entered only through `HandleProductSelect`, which sets an id. */
    ghost predicate Valid()
      reads this
    {
      currentPage == Product ==> selectedProductId.Some?
    }

    constructor ()
      ensures Valid()
      ensures currentPage == Home && selectedProductId == None
    {
      currentPage := Home;
      selectedProductId := None;
    }

    method NavigateToHome()
      modifies this
      ensures Valid()
      ensures currentPage == Home && selectedProductId == None
    {
      currentPage := Home;
      selectedProductId := None;
    }

    method NavigateToCatalog()
      modifies this
      ensures Valid()
      ensures currentPage == Catalog && selectedProductId == old(selectedProductId)
    {
      currentPage := Catalog;
    }

    method HandleProductSelect(productId: Number)
      modifies this
      ensures Valid()
      ensures currentPage == Product && selectedProductId == Some(productId)
    {
      selectedProductId := Some(productId);
      currentPage := Product;
    }

    /** The Корзина button's inline setter. */
    method OpenBascket()
      modifies this
      ensures Valid()
      ensures currentPage == Bascket && selectedProductId == old(selectedProductId)
    {
      currentPage := Bascket;
    }

    /** The Профиль button's inline setter. */
    method OpenProfile()
      modifies this
      ensures Valid()
      ensures currentPage == Profile && selectedProductId == old(selectedProductId)
    {
      currentPage := Profile;
    }

    /** A click on a header button runs its handler, after which that button, and
        only it, is shown active; only Главная clears the selection. */
    method Click(b: NavButton)
      modifies this
      ensures Valid()
      ensures ActiveButton(currentPage) == Some(b)
      ensures b == HomeButton ==> selectedProductId == None
      ensures b != HomeButton ==> selectedProductId == old(selectedProductId)
    {
      match b
      case HomeButton => NavigateToHome();
      case CatalogButton => NavigateToCatalog();
      case BascketButton => OpenBascket();
      case ProfileButton => OpenProfile();
    }
  }

  /** In every state the navigator can reach (those satisfying its invariant) exactly
      one page is mounted, and on the product page the detail page receives a truthy
      decimal id. */
  lemma ProductPageGetsId(s: AppState)
    requires s.Valid()
    ensures |MountedPages(s.currentPage, s.selectedProductId)| == 1
    ensures s.currentPage == Product ==>
              ProductCardPage.IsTruthy(MountedPages(s.currentPage, s.selectedProductId)[0].productId)
  {
  }

  /** End to end: on the product page with selection `x`, the effect of the mounted
      page selects the detail entry whose id is `x`; for a table id it carries the
      same title and price as the shell's own entry. */
  lemma SelectedProductIsShown(x: Number)
    ensures (var e := MountedPages(Product, Some(x))[0];
             e.productId.Some? && ProductCardPage.Lookup(e.productId.value)
               == P.FindNumber(ProductCardPage.ClothingProducts(), ProductCardPage.ClothingId, x))
    ensures x.Int? && 1 <= x.value <= 9 ==>
              (var e := MountedPages(Product, Some(x))[0];
               var shown := ProductCardPage.Lookup(e.productId.value);
               shown.Some? && shown.value.id == x.value
               && shown.value.title == ClothingProducts()[x.value - 1].title
               && shown.value.price == ClothingProducts()[x.value - 1].price)
  {
    ProductCardPage.LookupOfToString(x);
    DetailTableAgrees();
  }

  /** The props the shell gives the catalog page: every callback supplied. */
  function CatalogProps(): (props: CatalogPage.Props)
    ensures props.hasOnProductSelect && props.hasOnAddToCart && props.hasOnBack
  {
    CatalogPage.Props(true, true, true)
  }

  /** Clicking "details" on the catalog's tile `i` forwards that tile's id to
      `HandleProductSelect`, and the detail page then shows the product with the
      tile's id and title. */
  lemma CatalogDetailsShowTile(i: nat)
    requires i < |CatalogPage.CatalogProducts()|
    ensures (var tile := CatalogPage.CatalogProducts()[i];
             var action := CatalogPage.HandleDetailsClick(CatalogProps(), NumId(Int(tile.id)));
             && action == CatalogPage.Forward(Int(tile.id))
             && ProductCardPage.Lookup(NumberToString(action.id)) == Some(ProductCardPage.ClothingProducts()[i])
             && ProductCardPage.ClothingProducts()[i].id == tile.id
             && ProductCardPage.ClothingProducts()[i].title == tile.title)
  {
    ProductCardPage.LookupOfToString(Int(i + 1));
    CatalogTableAgrees();
    DetailTableAgrees();
  }

  /** The catalog page's copy of the table is the shell's table, entry for entry. */
  lemma CatalogTableAgrees()
    ensures CatalogPage.ClothingProducts() == ClothingProducts()
  {
  }

  /** The detail page's table has the shell's ids, images, titles and prices; its
      descriptions differ for the first six products. */
  lemma DetailTableAgrees()
    ensures |ProductCardPage.ClothingProducts()| == |ClothingProducts()|
    ensures forall i :: 0 <= i < |ClothingProducts()| ==>
              (var d, a := ProductCardPage.ClothingProducts()[i], ClothingProducts()[i];
               d.id == a.id && d.imageUrl == a.imageUrl && d.title == a.title && d.price == a.price)
    ensures forall i :: 0 <= i < |ClothingProducts()| ==>
              (ProductCardPage.ClothingProducts()[i].description == ClothingProducts()[i].description <==> i >= 6)
  {
  }

  /** The home page's bestsellers are the shell's first three products. */
  lemma HomeShowsFirstThree()
    ensures |HomePage.Bestsellers(ClothingProducts())| == 3
    ensures forall i :: 0 <= i < 3 ==> HomePage.Bestsellers(ClothingProducts())[i].id == i + 1
  {
  }
}

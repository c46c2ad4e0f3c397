/** The home page (src/components/home.tsx): the hero slider, and the
    store component's login status derived from local storage, its logout,
    the featured products, adding to the cart, the cart-count badge, and
    the category and navigation clicks. */
module Home {
  import opened Common
  import opened Storage
  import opened Backend
  import opened Carousels

  /** `heroSlides` has three entries. */
  const HeroSlideCount := 3

  /** The `HeroSection` component: arrows step with wrap-around, dots jump. */
  class HeroSection {
    var currentSlide: int

    ghost predicate Valid()
      reads this
    {
      0 <= currentSlide < HeroSlideCount
    }

    constructor ()
      ensures Valid() && currentSlide == 0
    {
      currentSlide := 0;
    }

    method NextSlide()
      requires Valid()
      modifies this
      ensures Valid() && currentSlide == NextIndex(old(currentSlide), HeroSlideCount)
    {
      currentSlide := (currentSlide + 1) % HeroSlideCount;
    }

    method PrevSlide()
      requires Valid()
      modifies this
      ensures Valid() && currentSlide == PrevIndex(old(currentSlide), HeroSlideCount)
    {
      currentSlide := (currentSlide - 1 + HeroSlideCount) % HeroSlideCount;
    }

    method SelectSlide(index: int)
      requires Valid() && 0 <= index < HeroSlideCount
      modifies this
      ensures Valid() && currentSlide == index
    {
      currentSlide := index;
    }
  }

  /** The three slides in a cycle: from the last, next is the first. */
  lemma HeroCycle()
    ensures NextIndex(2, HeroSlideCount) == 0 && PrevIndex(0, HeroSlideCount) == 2
    ensures Advance(1, HeroSlideCount, 3) == 1
  {
    FullCycleReturns(1, HeroSlideCount);
  }

  /** The fields of a product from `GET /products` that the page uses. */
  datatype StoreProduct = StoreProduct(id: string, name: string, category: string, price: int)

  /** The login fields of the store component. */
  datatype LoginState = LoginState(isLoggedIn: bool, userName: string, userRole: string)

  /** `checkLoginStatus`: logged in when there is a token and a user name;
      the role defaults to "user". */
  function LoginStatus(items: map<string, string>): (r: LoginState)
    ensures r.isLoggedIn <==> Token(items).Some? && Truthy(Lookup(items, "userName"))
    ensures r.isLoggedIn ==> r.userName == items["userName"] && r.userName != "" && r.userRole != ""
    ensures r.isLoggedIn && !Truthy(Lookup(items, "userRole")) ==> r.userRole == "user"
    ensures r.isLoggedIn && Truthy(Lookup(items, "userRole")) ==> r.userRole == items["userRole"]
    ensures !r.isLoggedIn ==> r == LoginState(false, "", "")
  {
    var name := Lookup(items, "userName");
    if Token(items).Some? && Truthy(name) then LoginState(true, name.value, OrElse(Lookup(items, "userRole"), "user"))
    else LoginState(false, "", "")
  }

  /** The keys `handleLogout` removes. Unlike the auth context it removes
      "token" and leaves "user". */
  const LogoutKeys: set<string> := {"authToken", "token", "userName", "userRole", "userId"}

  /** After logout the storage no longer reads as logged in, and keys the
      logout does not name are kept. */
  lemma LogoutLogsOut(items: map<string, string>)
    ensures !LoginStatus(RemoveKeys(items, LogoutKeys)).isLoggedIn
    ensures "user" in items ==> "user" in RemoveKeys(items, LogoutKeys)
  {
  }

  /** Sum of the quantities of the items. */
  function SumQuantities(items: seq<LineItem>): (r: int)
    ensures (forall i :: 0 <= i < |items| ==> items[i].quantity >= 0) ==> r >= 0
    ensures items == [] ==> r == 0
  {
    if items == [] then 0 else items[0].quantity + SumQuantities(items[1..])
  }

  /** A single item contributes exactly its quantity. */
  lemma {:induction false} SumQuantitiesSingle(x: LineItem)
    ensures SumQuantities([x]) == x.quantity
  {
    assert [x][1..] == [];
  }

  lemma {:induction false} SumQuantitiesAppend(a: seq<LineItem>, b: seq<LineItem>)
    ensures SumQuantities(a + b) == SumQuantities(a) + SumQuantities(b)
  {
    if a != [] {
      assert (a + b)[0] == a[0] && (a + b)[1..] == a[1..] + b;
      SumQuantitiesAppend(a[1..], b);
    } else {
      assert a + b == b;
    }
  }

  /** A cart with one unit of each item counts its items. */
  lemma {:induction false} SingleUnitsCountItems(items: seq<LineItem>)
    requires forall i :: 0 <= i < |items| ==> items[i].quantity == 1
    ensures SumQuantities(items) == |items|
  {
    if items != [] {
      SingleUnitsCountItems(items[1..]);
    }
  }

  /** The badge after an OK `GET /cart/get`: the sum of quantities when
      `success` and `data` are there, otherwise 0. */
  function CartCount(body: CartResponse): (r: int)
    ensures !(body.success && body.data.Some?) ==> r == 0
    ensures body.success && body.data.Some? ==> r == SumQuantities(body.data.value.items)
    ensures body.success && body.data.Some? && body.data.value.items == [] ==> r == 0
  {
    if body.success && body.data.Some? then SumQuantities(body.data.value.items) else 0
  }

  /** `(data.data || []).slice(0, 4)`. */
  function FeaturedOf(data: Option<seq<StoreProduct>>): (r: seq<StoreProduct>)
    ensures data.None? ==> r == []
    ensures data.Some? ==> |r| == (if |data.value| < 4 then |data.value| else 4) && r == data.value[..|r|]
  {
    var products := if data.Some? then data.value else [];
    SliceWindow(products, 0, 4);
    Slice(products, 0, 4)
  }

  /** The filter callback of the category view. */
  function InCategory(selected: string): StoreProduct -> bool {
    (p: StoreProduct) => Lower(p.category) == Lower(selected)
  }

  /** The category view: the featured products whose lower-cased category
      equals the lower-cased selection. */
  function CategoryProducts(featured: seq<StoreProduct>, selected: string): (r: seq<StoreProduct>)
    ensures forall i :: 0 <= i < |r| ==> r[i] in featured && Lower(r[i].category) == Lower(selected)
    ensures forall i :: 0 <= i < |featured| && Lower(featured[i].category) == Lower(selected) ==> featured[i] in r
  {
    Filter(featured, InCategory(selected))
  }

  /** Selections that differ only in letter case show the same products. */
  lemma CategoryIgnoresCase(featured: seq<StoreProduct>, a: string, b: string)
    requires Lower(a) == Lower(b)
    ensures CategoryProducts(featured, a) == CategoryProducts(featured, b)
  {
    FilterSamePredicate(featured, InCategory(a), InCategory(b));
  }

  /** The expanded category after a click on `name`. */
  function ToggleExpanded(expanded: string, name: string): (r: string)
    ensures r == "" || r == name
    ensures expanded == name ==> r == ""
    ensures expanded != name ==> r == name
  {
    if expanded == name then "" else name
  }

  /** Clicking the same category twice brings a collapsed sidebar or that
      category's open entry back to where it was; from another open
      category it ends collapsed. */
  lemma ToggleExpandedTwice(expanded: string, name: string)
    ensures expanded == "" || expanded == name ==> ToggleExpanded(ToggleExpanded(expanded, name), name) == expanded
    ensures expanded != "" && expanded != name ==> ToggleExpanded(ToggleExpanded(expanded, name), name) == ""
  {
  }

  /** The requests of the store component. */
  datatype Request = AddItem(productId: string, quantity: int) | GetCart

  /** A snapshot of every field of the page, so that a handler can say
      which fields it changes and that the others keep their values. */
  datatype StoreState = StoreState(
    selectedCategory: string, activeNavItem: string, expandedCategory: string, cartCount: int,
    loadingProducts: map<string, bool>, featuredProducts: seq<StoreProduct>, productsLoading: bool,
    isLoggedIn: bool, userName: string, userRole: string, showUserDropdown: bool)

  /** The `KapeeStore` component's state. */
  class KapeeStore {
    var selectedCategory: string
    var activeNavItem: string
    var expandedCategory: string
    var cartCount: int
    var loadingProducts: map<string, bool>
    var featuredProducts: seq<StoreProduct>
    var productsLoading: bool
    var isLoggedIn: bool
    var userName: string
    var userRole: string
    var showUserDropdown: bool

    constructor ()
      ensures selectedCategory == "" && activeNavItem == "home" && expandedCategory == ""
      ensures cartCount == 0 && loadingProducts == map[] && featuredProducts == [] && productsLoading
      ensures !isLoggedIn && userName == "" && userRole == "" && !showUserDropdown
    {
      selectedCategory, activeNavItem, expandedCategory := "", "home", "";
      cartCount, loadingProducts, featuredProducts, productsLoading := 0, map[], [], true;
      isLoggedIn, userName, userRole, showUserDropdown := false, "", "", false;
    }

    function Login(): LoginState
      reads this
    {
      LoginState(isLoggedIn, userName, userRole)
    }

    ghost function State(): StoreState
      reads this
    {
      StoreState(selectedCategory, activeNavItem, expandedCategory, cartCount, loadingProducts, featuredProducts,
                 productsLoading, isLoggedIn, userName, userRole, showUserDropdown)
    }

    method CheckLoginStatus(store: KeyValueStore)
      modifies this
      ensures Login() == LoginStatus(store.items)
      ensures State() == old(State()).(isLoggedIn := isLoggedIn, userName := userName, userRole := userRole)
    {
      var token := Token(store.items);
      var storedUserName := store.GetItem("userName");
      var storedUserRole := store.GetItem("userRole");
      if token.Some? && Truthy(storedUserName) {
        isLoggedIn := true;
        userName := storedUserName.value;
        userRole := OrElse(storedUserRole, "user");
      } else {
        isLoggedIn := false;
        userName := "";
        userRole := "";
      }
    }

    method HandleLogout(store: KeyValueStore)
      modifies this, store
      ensures store.items == RemoveKeys(old(store.items), LogoutKeys)
      ensures Login() == LoginState(false, "", "") && cartCount == 0 && !showUserDropdown
      ensures Login() == LoginStatus(store.items)
      ensures State() == old(State()).(isLoggedIn := isLoggedIn, userName := userName, userRole := userRole, cartCount := cartCount, showUserDropdown := showUserDropdown)
    {
      ghost var before := store.items;
      store.RemoveItem("authToken");
      store.RemoveItem("token");
      store.RemoveItem("userName");
      store.RemoveItem("userRole");
      store.RemoveItem("userId");
      RemoveOneByOne(before, "authToken", "token", "userName", "userRole", "userId");
      isLoggedIn := false;
      userName := "";
      userRole := "";
      cartCount := 0;
      showUserDropdown := false;
      LogoutLogsOut(before);
    }

    /** `fetchProducts`: `response` is what `GET /products` ended with, its
        payload the `data` field. */
    method FetchProducts(response: Outcome<Option<seq<StoreProduct>>>)
      modifies this
      ensures response.Ok? ==> featuredProducts == FeaturedOf(response.payload)
      ensures !response.Ok? ==> featuredProducts == old(featuredProducts)
      ensures |featuredProducts| <= 4 || featuredProducts == old(featuredProducts)
      ensures !productsLoading
      ensures State() == old(State()).(featuredProducts := featuredProducts, productsLoading := productsLoading)
    {
      match response {
        case Ok(data) =>
          featuredProducts := FeaturedOf(data);
        case NotOk(_) =>
        case Thrown(_) =>
      }
      productsLoading := false;
    }

    /** `fetchCartCount`: without a token nothing is requested or changed;
        a non-OK answer changes nothing, a thrown one resets the badge. */
    method FetchCartCount(store: KeyValueStore, response: Outcome<CartResponse>) returns (sent: seq<Request>)
      modifies this
      ensures Token(store.items).None? ==> sent == [] && cartCount == old(cartCount)
      ensures Token(store.items).Some? ==> sent == [GetCart]
      ensures Token(store.items).Some? && response.Ok? ==> cartCount == CartCount(response.payload)
      ensures Token(store.items).Some? && response.NotOk? ==> cartCount == old(cartCount)
      ensures Token(store.items).Some? && response.Thrown? ==> cartCount == 0
      ensures State() == old(State()).(cartCount := cartCount)
    {
      var token := Token(store.items);
      if token.None? {
        return [];
      }
      sent := [GetCart];
      match response {
        case Ok(body) =>
          cartCount := CartCount(body);
        case NotOk(_) =>
        case Thrown(_) =>
          cartCount := 0;
      }
    }

    /** `addToCart(productId, quantity)`. `response` is what `POST
        /cart/add` ended with; `countResponse` what the cart-count refresh
        it triggers ends with. The product's flag is cleared on every
        path. */
    method AddToCart(store: KeyValueStore, productId: string, quantity: int,
                     response: Outcome<()>, countResponse: Outcome<CartResponse>)
      returns (sent: seq<Request>)
      modifies this
      ensures Token(store.items).None? ==> sent == [] && cartCount == old(cartCount)
      ensures Token(store.items).Some? ==> |sent| > 0 && sent[0] == AddItem(productId, quantity)
      ensures Token(store.items).Some? && response.Ok? ==> sent == [AddItem(productId, quantity), GetCart]
      ensures Token(store.items).Some? && !response.Ok? ==> sent == [AddItem(productId, quantity)] && cartCount == old(cartCount)
      ensures Token(store.items).Some? && response.Ok? && countResponse.Ok? ==> cartCount == CartCount(countResponse.payload)
      ensures Token(store.items).Some? && response.Ok? && countResponse.NotOk? ==> cartCount == old(cartCount)
      ensures Token(store.items).Some? && response.Ok? && countResponse.Thrown? ==> cartCount == 0
      ensures loadingProducts == old(loadingProducts)[productId := false]
      ensures State() == old(State()).(cartCount := cartCount, loadingProducts := loadingProducts)
    {
      loadingProducts := loadingProducts[productId := true];
      var token := Token(store.items);
      if token.None? {
        loadingProducts := loadingProducts[productId := false];
        return [];
      }
      sent := [AddItem(productId, quantity)];
      match response {
        case Ok(_) =>
          var refreshed := FetchCartCount(store, countResponse);
          sent := sent + refreshed;
        case NotOk(_) =>
        case Thrown(_) =>
      }
      loadingProducts := loadingProducts[productId := false];
    }

    /** A click on a category of the sidebar or the grid. */
    method HandleCategoryClick(name: string)
      modifies this
      ensures selectedCategory == name && activeNavItem == "category"
      ensures expandedCategory == ToggleExpanded(old(expandedCategory), name)
      ensures State() == old(State()).(selectedCategory := name, activeNavItem := "category", expandedCategory := expandedCategory)
    {
      selectedCategory := name;
      activeNavItem := "category";
      if expandedCategory == name {
        expandedCategory := "";
      } else {
        expandedCategory := name;
      }
    }

    /** A click on a top navigation item: it becomes active and the category
        view closes. */
    method NavClick(id: string)
      modifies this
      ensures activeNavItem == id && selectedCategory == ""
      ensures State() == old(State()).(activeNavItem := id, selectedCategory := "")
    {
      activeNavItem := id;
      selectedCategory := "";
    }

    /** The products of the category view. */
    function ShownCategoryProducts(): (r: seq<StoreProduct>)
      reads this
      ensures |r| <= |featuredProducts|
    {
      CategoryProducts(featuredProducts, selectedCategory)
    }
  }
}

/** The admin dashboard (src/dashboard/dashboard.tsx): the admin gate, the
    API helper's error message, the overview statistics, the list fetches,
    the three search filters, how orders are displayed, and the submit
    handlers of the product and user forms. Money is in cents. */
module Dashboard {
  import opened Common
  import opened Storage

  datatype User = User(id: string, username: string, email: string, userRole: string)

  datatype Product = Product(id: string, name: string, price: int, description: string, category: string, imageUrl: string)

  /** The populated `userId` of an order. */
  datatype Customer = Customer(id: string, username: string, email: string)

  datatype Order = Order(id: string, customer: Customer, total: int, status: Option<string>)

  /** `checkAdminAccess`: exactly the stored role "admin" passes; there is no
      case folding. */
  predicate IsAdmin(items: map<string, string>) {
    Lookup(items, "userRole") == Some("admin")
  }

  lemma AdminGateIsExact(items: map<string, string>)
    ensures IsAdmin(items) <==> "userRole" in items && items["userRole"] == "admin"
    ensures !IsAdmin(items["userRole" := "Admin"]) && IsAdmin(items["userRole" := "admin"])
    ensures !IsAdmin(items - {"userRole"})
  {
  }

  const ApiRequestFailed := "API request failed"

  /** The message `apiCall` rejects with: the server's message or a fixed
      default for a non-OK answer, the error's own message for a thrown
      one, nothing on success. */
  function ApiError<T>(o: Outcome<T>): (r: Option<string>)
    ensures r.None? <==> o.Ok?
    ensures o.NotOk? ==> r == Some(OrElse(o.message, ApiRequestFailed))
    ensures o.Thrown? ==> r == Some(o.reason)
  {
    match o
    case Ok(_) => None
    case NotOk(message) => Some(OrElse(message, ApiRequestFailed))
    case Thrown(reason) => Some(reason)
  }

  /** `reduce((sum, order) => sum + order.total, 0)`. */
  function Revenue(orders: seq<Order>): (r: int)
    ensures (forall i :: 0 <= i < |orders| ==> orders[i].total >= 0) ==> r >= 0
    ensures orders == [] ==> r == 0
  {
    if orders == [] then 0 else orders[0].total + Revenue(orders[1..])
  }

  /** Revenue adds up across a split of the order list. */
  lemma {:induction false} RevenueAppend(a: seq<Order>, b: seq<Order>)
    ensures Revenue(a + b) == Revenue(a) + Revenue(b)
  {
    if a != [] {
      assert (a + b)[0] == a[0] && (a + b)[1..] == a[1..] + b;
      RevenueAppend(a[1..], b);
    } else {
      assert a + b == b;
    }
  }

  /** A single order contributes exactly its total. */
  lemma {:induction false} RevenueSingle(o: Order)
    ensures Revenue([o]) == o.total
  {
    assert [o][1..] == [];
  }

  /** The revenue does not depend on the order of the list: any
      rearrangement of the same orders adds up to the same sum. */
  lemma {:induction false} RevenuePermutation(a: seq<Order>, b: seq<Order>)
    requires multiset(a) == multiset(b)
    ensures Revenue(a) == Revenue(b)
    decreases |a|
  {
    if a == [] {
      assert |multiset(b)| == 0;
    } else {
      assert a[0] in multiset(b);
      var j :| 0 <= j < |b| && b[j] == a[0];
      var rest := b[..j] + b[j + 1..];
      assert b == b[..j] + ([b[j]] + b[j + 1..]);
      assert multiset(b) == multiset([b[j]] + rest);
      MultisetTails(a, [b[j]] + rest);
      assert ([b[j]] + rest)[1..] == rest;
      RevenuePermutation(a[1..], rest);
      RevenueAppend(b[..j], [b[j]] + b[j + 1..]);
      RevenueAppend([b[j]], b[j + 1..]);
      RevenueAppend(b[..j], b[j + 1..]);
      RevenueSingle(b[j]);
    }
  }

  function LengthOrZero<T>(s: Option<seq<T>>): nat {
    if s.Some? then |s.value| else 0
  }

  function OrEmpty<T>(s: Option<seq<T>>): (r: seq<T>)
    ensures |r| == LengthOrZero(s)
  {
    if s.Some? then s.value else []
  }

  datatype Stats = Stats(
    totalUsers: nat, totalProducts: nat, totalOrders: nat, totalRevenue: int,
    recentOrders: seq<Order>, recentUsers: seq<User>)

  /** The statistics `fetchStats` sets from the three lists (each may be
      missing from its response). */
  function ComputeStats(users: Option<seq<User>>, products: Option<seq<Product>>, orders: Option<seq<Order>>): (s: Stats)
    ensures s.totalUsers == LengthOrZero(users) && s.totalProducts == LengthOrZero(products)
    ensures s.totalOrders == LengthOrZero(orders)
    ensures s.totalRevenue == Revenue(OrEmpty(orders))
    ensures |s.recentOrders| <= 5 && |s.recentOrders| <= s.totalOrders && s.recentOrders == OrEmpty(orders)[..|s.recentOrders|]
    ensures |s.recentUsers| <= 5 && |s.recentUsers| <= s.totalUsers && s.recentUsers == OrEmpty(users)[..|s.recentUsers|]
    ensures |s.recentOrders| == if s.totalOrders < 5 then s.totalOrders else 5
    ensures |s.recentUsers| == if s.totalUsers < 5 then s.totalUsers else 5
  {
    Stats(LengthOrZero(users), LengthOrZero(products), LengthOrZero(orders), Revenue(OrEmpty(orders)),
          FirstFive(OrEmpty(orders)), FirstFive(OrEmpty(users)))
  }

  /** The user search: username or email contains the search, ignoring
      case. */
  predicate UserMatches(search: string, u: User) {
    Contains(Lower(u.username), Lower(search)) || Contains(Lower(u.email), Lower(search))
  }

  predicate ProductMatches(search: string, p: Product) {
    Contains(Lower(p.name), Lower(search)) || Contains(Lower(p.category), Lower(search))
  }

  predicate OrderMatches(search: string, o: Order) {
    Contains(Lower(o.id), Lower(search)) || Contains(Lower(o.customer.email), Lower(search))
  }

  function UserFilter(search: string): User -> bool {
    (u: User) => UserMatches(search, u)
  }

  function ProductFilter(search: string): Product -> bool {
    (p: Product) => ProductMatches(search, p)
  }

  function OrderFilter(search: string): Order -> bool {
    (o: Order) => OrderMatches(search, o)
  }

  function FilteredUsers(users: seq<User>, search: string): (r: seq<User>)
    ensures forall i :: 0 <= i < |r| ==> r[i] in users && UserMatches(search, r[i])
    ensures forall i :: 0 <= i < |users| && UserMatches(search, users[i]) ==> users[i] in r
  {
    Filter(users, UserFilter(search))
  }

  function FilteredProducts(products: seq<Product>, search: string): (r: seq<Product>)
    ensures forall i :: 0 <= i < |r| ==> r[i] in products && ProductMatches(search, r[i])
    ensures forall i :: 0 <= i < |products| && ProductMatches(search, products[i]) ==> products[i] in r
  {
    Filter(products, ProductFilter(search))
  }

  function FilteredOrders(orders: seq<Order>, search: string): (r: seq<Order>)
    ensures forall i :: 0 <= i < |r| ==> r[i] in orders && OrderMatches(search, r[i])
    ensures forall i :: 0 <= i < |orders| && OrderMatches(search, orders[i]) ==> orders[i] in r
  {
    Filter(orders, OrderFilter(search))
  }

  /** An empty search box lists everything, in order. */
  lemma EmptySearchKeepsAll(users: seq<User>, products: seq<Product>, orders: seq<Order>)
    ensures FilteredUsers(users, "") == users
    ensures FilteredProducts(products, "") == products
    ensures FilteredOrders(orders, "") == orders
  {
    assert Lower("") == "";
    forall u: User
      ensures UserMatches("", u)
    {
      ContainsEmpty(Lower(u.username));
    }
    forall p: Product
      ensures ProductMatches("", p)
    {
      ContainsEmpty(Lower(p.name));
    }
    forall o: Order
      ensures OrderMatches("", o)
    {
      ContainsEmpty(Lower(o.id));
    }
    FilterKeepsAll(users, UserFilter(""));
    FilterKeepsAll(products, ProductFilter(""));
    FilterKeepsAll(orders, OrderFilter(""));
  }

  /** Searches that differ only in letter case give the same list. */
  lemma SearchIgnoresCase(users: seq<User>, a: string, b: string)
    requires Lower(a) == Lower(b)
    ensures FilteredUsers(users, a) == FilteredUsers(users, b)
  {
    FilterSamePredicate(users, UserFilter(a), UserFilter(b));
  }

  /** A user is found by any piece of its lower-cased username. */
  lemma UserFoundByPartOfName(users: seq<User>, i: int, from: nat, to: nat)
    requires 0 <= i < |users| && from <= to <= |users[i].username|
    ensures users[i] in FilteredUsers(users, Lower(users[i].username)[from..to])
  {
    var name := Lower(users[i].username);
    var search := name[from..to];
    LowerIdempotent(search);
    assert Lower(search) == search by {
      assert forall k :: 0 <= k < |search| ==> search[k] == name[from + k];
      LowerOfLowered(users[i].username, from, to);
    }
    assert OccursAt(name, search, from);
    ContainsIff(name, search);
  }

  lemma LowerOfLowered(s: string, from: nat, to: nat)
    requires from <= to <= |s|
    ensures Lower(Lower(s)[from..to]) == Lower(s)[from..to]
  {
    LowerIdempotent(s);
  }

  /** `order.status || 'pending'`. */
  function DisplayStatus(status: Option<string>): (r: string)
    ensures r != ""
    ensures Truthy(status) ==> r == status.value
    ensures !Truthy(status) ==> r == "pending"
  {
    OrElse(status, "pending")
  }

  /** `order._id.slice(-8)`: the last eight characters, or the whole id
      when it is shorter. */
  function ShortId(id: string): (r: string)
    ensures |id| >= 8 ==> |r| == 8 && r == id[|id| - 8..]
    ensures |id| < 8 ==> r == id
    ensures r == id[|id| - |r|..]
  {
    SliceLast(id, 8);
    Slice(id, -8, |id|)
  }

  datatype HttpMethod = Get | Post | Put | Delete

  datatype ApiRequest<B> = ApiRequest(verb: HttpMethod, endpoint: string, body: B)

  /** The product form's fields. */
  datatype ProductForm = ProductForm(name: string, price: int, description: string, category: string, imageUrl: string)

  /** `ProductModal.handleSubmit`: an update of the edited product or a
      create. */
  function ProductSubmission(editing: Option<Product>, form: ProductForm): (r: ApiRequest<ProductForm>)
    ensures r.body == form
    ensures editing.Some? <==> r.verb == Put
    ensures editing.None? <==> r.verb == Post
    ensures editing.Some? ==> r.endpoint == "/products/" + editing.value.id
    ensures editing.None? ==> r.endpoint == "/products"
  {
    if editing.Some? then ApiRequest(Put, "/products/" + editing.value.id, form)
    else ApiRequest(Post, "/products", form)
  }

  /** The user form's fields, as strings. */
  datatype UserForm = UserForm(username: string, email: string, userRole: string, password: string)

  function UserFormData(form: UserForm): map<string, string> {
    map["username" := form.username, "email" := form.email, "userRole" := form.userRole, "password" := form.password]
  }

  const PasswordRequired := "Password is required for new users"

  /** `UserModal.handleSubmit`'s request: an edit drops an empty password
      from the body; a create without a password sends nothing. */
  function UserSubmission(editing: Option<User>, form: UserForm): (r: Option<ApiRequest<map<string, string>>>)
    ensures r.None? <==> editing.None? && form.password == ""
    ensures editing.Some? ==> r.value.verb == Put && r.value.endpoint == "/user/user/users/" + editing.value.id
    ensures editing.None? && form.password != "" ==> r.value.verb == Post && r.value.endpoint == "/user/user/register"
    ensures r.Some? ==> r.value.body.Keys <= {"username", "email", "userRole", "password"}
    ensures r.Some? ==> ("password" in r.value.body <==> form.password != "")
  {
    var body := UserFormData(form);
    var body := if editing.Some? && form.password == "" then body - {"password"} else body;
    if editing.Some? then Some(ApiRequest(Put, "/user/user/users/" + editing.value.id, body))
    else if form.password == "" then None
    else Some(ApiRequest(Post, "/user/user/register", body))
  }

  /** No request ever carries an empty password, and every other field is
      sent as typed. */
  lemma NoEmptyPasswordIsSent(editing: Option<User>, form: UserForm)
    ensures UserSubmission(editing, form).Some? ==>
      var body := UserSubmission(editing, form).value.body;
      && ("password" in body ==> body["password"] == form.password != "")
      && "username" in body && body["username"] == form.username
      && "email" in body && body["email"] == form.email
      && "userRole" in body && body["userRole"] == form.userRole
  {
  }

  /** The `ProductModal` component. */
  class ProductModal {
    const product: Option<Product>
    var formData: ProductForm
    var saving: bool
    var error: string

    constructor (product: Option<Product>)
      ensures this.product == product && !saving && error == ""
      ensures product.Some? ==> formData == ProductForm(product.value.name, product.value.price,
        product.value.description, product.value.category, product.value.imageUrl)
      ensures product.None? ==> formData == ProductForm("", 0, "", "", "")
    {
      this.product := product;
      formData := if product.Some? then ProductForm(product.value.name, product.value.price,
        product.value.description, product.value.category, product.value.imageUrl)
        else ProductForm("", 0, "", "", "");
      saving, error := false, "";
    }

    /** Returns the request sent and whether `onSave` was called. */
    method HandleSubmit(response: Outcome<()>) returns (sent: ApiRequest<ProductForm>, saved: bool)
      modifies this
      ensures sent == ProductSubmission(product, formData)
      ensures saved <==> response.Ok?
      ensures error == if response.Ok? then "" else ApiError(response).value
      ensures !saving && formData == old(formData)
    {
      saving := true;
      error := "";
      if product.Some? {
        sent := ApiRequest(Put, "/products/" + product.value.id, formData);
      } else {
        sent := ApiRequest(Post, "/products", formData);
      }
      saved := response.Ok?;
      if !response.Ok? {
        error := ApiError(response).value;
      }
      saving := false;
    }
  }

  /** The `UserModal` component. */
  class UserModal {
    const user: Option<User>
    var formData: UserForm
    var saving: bool
    var error: string

    constructor (user: Option<User>)
      ensures this.user == user && !saving && error == ""
      ensures user.Some? ==> formData == UserForm(user.value.username, user.value.email, OrElse(Some(user.value.userRole), "user"), "")
      ensures user.None? ==> formData == UserForm("", "", "user", "")
    {
      this.user := user;
      formData := if user.Some? then UserForm(user.value.username, user.value.email, OrElse(Some(user.value.userRole), "user"), "")
        else UserForm("", "", "user", "");
      saving, error := false, "";
    }

    /** Returns the request sent, if any, and whether `onSave` was called.
        `response` is not used when nothing is sent. */
    method HandleSubmit(response: Outcome<()>) returns (sent: Option<ApiRequest<map<string, string>>>, saved: bool)
      modifies this
      ensures sent == UserSubmission(user, formData)
      ensures sent.None? ==> !saved && error == PasswordRequired
      ensures sent.Some? ==> (saved <==> response.Ok?)
      ensures sent.Some? ==> error == if response.Ok? then "" else ApiError(response).value
      ensures !saving && formData == old(formData)
    {
      saving := true;
      error := "";
      var submitData := UserFormData(formData);
      if user.Some? && formData.password == "" {
        submitData := submitData - {"password"};
      }
      saved := false;
      if user.Some? {
        sent := Some(ApiRequest(Put, "/user/user/users/" + user.value.id, submitData));
      } else {
        if formData.password == "" {
          error := PasswordRequired;
          saving := false;
          return None, false;
        }
        sent := Some(ApiRequest(Post, "/user/user/register", submitData));
      }
      saved := response.Ok?;
      if !response.Ok? {
        error := ApiError(response).value;
      }
      saving := false;
    }
  }

  /** The first failure of `Promise.all` over the three calls, taken in
      argument order. */
  function FirstFailure<A, B, C>(a: Outcome<A>, b: Outcome<B>, c: Outcome<C>): (r: Option<string>)
    ensures r.None? <==> a.Ok? && b.Ok? && c.Ok?
  {
    if !a.Ok? then ApiError(a) else if !b.Ok? then ApiError(b) else ApiError(c)
  }

  /** A snapshot of every field of the dashboard, so that a handler can say
      which fields it changes and that the others keep their values. */
  datatype DashboardState = DashboardState(
    loading: bool, error: string, stats: Option<Stats>, users: seq<User>, products: seq<Product>,
    orders: seq<Order>, userSearch: string, productSearch: string, orderSearch: string)

  /** The `AdminDashboard` component's data state. */
  class AdminDashboard {
    var loading: bool
    var error: string
    var stats: Option<Stats>
    var users: seq<User>
    var products: seq<Product>
    var orders: seq<Order>
    var userSearch: string
    var productSearch: string
    var orderSearch: string

    constructor ()
      ensures !loading && error == "" && stats == None && users == [] && products == [] && orders == []
      ensures userSearch == "" && productSearch == "" && orderSearch == ""
    {
      loading, error, stats := false, "", None;
      users, products, orders := [], [], [];
      userSearch, productSearch, orderSearch := "", "", "";
    }

    ghost function State(): DashboardState
      reads this
    {
      DashboardState(loading, error, stats, users, products, orders, userSearch, productSearch, orderSearch)
    }

    /** `checkAdminAccess`, without the redirect. */
    method CheckAdminAccess(store: KeyValueStore) returns (allowed: bool)
      ensures allowed <==> IsAdmin(store.items)
    {
      var role := store.GetItem("userRole");
      allowed := role == Some("admin");
    }

    /** `fetchStats`: the three responses' payloads are their optional
        `users`, `data` and `data` lists. */
    method FetchStats(usersRes: Outcome<Option<seq<User>>>, productsRes: Outcome<Option<seq<Product>>>,
                      ordersRes: Outcome<Option<seq<Order>>>)
      modifies this
      ensures usersRes.Ok? && productsRes.Ok? && ordersRes.Ok? ==>
        stats == Some(ComputeStats(usersRes.payload, productsRes.payload, ordersRes.payload)) && error == old(error)
      ensures FirstFailure(usersRes, productsRes, ordersRes).Some? ==>
        stats == old(stats) && error == FirstFailure(usersRes, productsRes, ordersRes).value
      ensures !loading && State() == old(State()).(loading := false, error := error, stats := stats)
    {
      loading := true;
      var failure := FirstFailure(usersRes, productsRes, ordersRes);
      if failure.Some? {
        error := failure.value;
      } else {
        stats := Some(ComputeStats(usersRes.payload, productsRes.payload, ordersRes.payload));
      }
      loading := false;
    }

    /** `fetchUsers`: the payload is the response's optional `users`. */
    method FetchUsers(response: Outcome<Option<seq<User>>>)
      modifies this
      ensures response.Ok? ==> users == OrEmpty(response.payload) && error == old(error)
      ensures !response.Ok? ==> users == old(users) && error == ApiError(response).value
      ensures !loading && State() == old(State()).(loading := false, error := error, users := users)
    {
      loading := true;
      match response {
        case Ok(list) => users := OrEmpty(list);
        case NotOk(_) => error := ApiError(response).value;
        case Thrown(_) => error := ApiError(response).value;
      }
      loading := false;
    }

    method FetchProducts(response: Outcome<Option<seq<Product>>>)
      modifies this
      ensures response.Ok? ==> products == OrEmpty(response.payload) && error == old(error)
      ensures !response.Ok? ==> products == old(products) && error == ApiError(response).value
      ensures !loading && State() == old(State()).(loading := false, error := error, products := products)
    {
      loading := true;
      match response {
        case Ok(list) => products := OrEmpty(list);
        case NotOk(_) => error := ApiError(response).value;
        case Thrown(_) => error := ApiError(response).value;
      }
      loading := false;
    }

    method FetchOrders(response: Outcome<Option<seq<Order>>>)
      modifies this
      ensures response.Ok? ==> orders == OrEmpty(response.payload) && error == old(error)
      ensures !response.Ok? ==> orders == old(orders) && error == ApiError(response).value
      ensures !loading && State() == old(State()).(loading := false, error := error, orders := orders)
    {
      loading := true;
      match response {
        case Ok(list) => orders := OrEmpty(list);
        case NotOk(_) => error := ApiError(response).value;
        case Thrown(_) => error := ApiError(response).value;
      }
      loading := false;
    }

    /** The three tables' rows. */
    function ShownUsers(): (r: seq<User>)
      reads this
      ensures |r| <= |users|
    {
      FilteredUsers(users, userSearch)
    }

    function ShownProducts(): (r: seq<Product>)
      reads this
      ensures |r| <= |products|
    {
      FilteredProducts(products, productSearch)
    }

    function ShownOrders(): (r: seq<Order>)
      reads this
      ensures |r| <= |orders|
    {
      FilteredOrders(orders, orderSearch)
    }
  }
}

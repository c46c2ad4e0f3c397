# Kapee storefront — a Dafny model of its client-side logic

This project models the logic of the Kapee storefront's React front end:
- the checkout flow (`order.tsx`);
- the shopping cart (`Cart.tsx`);
- the shop's filter, sort and wishlist (`Shop.tsx`);
- the hot-deals and featured-products carousels (`HotDealsCarousel.tsx`);
- the best-selling strip (`bestSellingProducts.tsx`);
- the blog listing (`Blogs.tsx`);
- the home page's hero slider, login state, cart count, add-to-cart and category browsing (`home.tsx`);
- the admin dashboard (`dashboard.tsx`);
- the session context (`AuthContext.tsx`).

Each source file is one Dafny module. Components whose handlers update state are classes whose
fields are the component's state. Their methods are the handlers, with `modifies` clauses.
The derivations and rules behind them are functions, and lemmas state what those functions promise.

The outside world is modelled as follows:
- **Browser storage** (`localStorage`, `sessionStorage`) is a `KeyValueStore` over `map<string, string>`.
- **Network requests.** A handler takes the outcome of each request as a parameter:
  - `Ok(payload)`: the response was OK and its JSON was read.
  - `NotOk(message)`: the response was not OK, with the server's optional `message`.
  - `Thrown(reason)`: the request threw.

  A handler returns the requests it sent, so "no request is sent" can be stated.
- **Money** is integer cents. Order totals, cart prices and product prices are exact.
- **JavaScript truthiness of strings**: an absent or empty string is falsy, and `a || b` is `OrElse`.
- **`slice`**, including negative indices, is `Slice`.
- **`toLowerCase`** is `Lower`, which folds ASCII letters only.
- **`includes`** is `Contains`.

Modules:
- `Common`: shared value helpers.
- `Storage`: browser storage.
- `Backend`: the cart payload shared by the checkout, the cart and the home page.
- `Checkout`, `CartPage`, `Shop`, `Carousels`, `BestSelling`, `Blogs`, `Home`, `Dashboard`, `Auth`: one per component file.

## Model

| member | source | states |
|---|---|---|
| Storage.Token | src/components/order.tsx:53-56 | `getToken`: the stored `authToken` when it is non-empty, else `token` when non-empty, else nothing |
| Storage.RemoveKeys | src/components/home.tsx:216-221 | removing keys deletes exactly those keys and keeps every other key and value |
| Auth.AuthProvider.constructor | src/contexts/AuthContext.tsx:21-23 | the provider starts unauthenticated, with no user and loading |
| Auth.RestoredUser | src/contexts/AuthContext.tsx:27-44 | a user is restored only when both `authToken` and `user` are stored non-empty |
| Auth.AuthProvider.CheckAuth | src/contexts/AuthContext.tsx:27-44 | sets `user` and `isAuthenticated` when both keys are present and `user` parses, and leaves them as they were otherwise; `loading` ends false in every case, a parse failure included |
| Auth.AuthProvider.Login | src/contexts/AuthContext.tsx:49-60 | storage becomes the five session keys written over the old storage; `user` is set and `isAuthenticated` is true |
| Auth.LoginWritesSessionKeys | src/contexts/AuthContext.tsx:52-56 | after login the key set is the old keys plus the five session keys: the token, the user's JSON, the lower-cased role, the id and the name; other keys keep their values |
| Auth.AuthProvider.Logout | src/contexts/AuthContext.tsx:65-76 | exactly the five session keys are removed; `user` is cleared and `isAuthenticated` is false |
| Auth.LoginThenLogout | src/contexts/AuthContext.tsx:52-72 | login followed by logout leaves the storage that logout alone leaves; if none of the five keys was stored before, storage returns to exactly what it was |
| Auth.LoginIsRestored | src/contexts/AuthContext.tsx:27-60 | a check after a login with a non-empty token restores the logged-in user |
| Auth.LogoutIsNotRestored | src/contexts/AuthContext.tsx:27-72 | a check after a logout restores no one |
| Checkout.WithFieldChangesOnlyThatField | src/components/order.tsx:94-99 | editing one address field changes that field to the new value and no other field |
| Checkout.ValidAddressIff | src/components/order.tsx:102-111 | the address is valid exactly when all six fields are non-empty |
| Checkout.SpacesAreValid | src/components/order.tsx:102-111 | fields are not trimmed: six single spaces pass, the empty address fails |
| Checkout.ShippingCost | src/components/order.tsx:78 | shipping is 0 or 999 cents, and 0 exactly when the cart total is over 5000 cents |
| Checkout.ShippingBoundary | src/components/order.tsx:78 | a total of exactly 5000 cents pays 999 for shipping; 5001 ships free, so the 5000 order costs more than the 5001 one |
| Checkout.TotalBounds | src/components/order.tsx:239-240 | the order total lies between the subtotal and the subtotal plus the fee; it equals the subtotal exactly when shipping is free |
| Checkout.CheckoutPage.constructor | src/components/order.tsx:34-51 | step 1, loading, no cart, no error, no order, an empty address |
| Checkout.CheckoutPage.Total | src/components/order.tsx:239-240 | the displayed total is the subtotal plus the shipping for that subtotal when a cart is loaded |
| Checkout.CheckoutPage.FetchCartData | src/components/order.tsx:58-91 | with no token no request is made and the login error is set; an OK response with items loads the cart and its shipping; an empty or failed one keeps the old cart and sets the matching error; loading ends false; only the cart, its shipping, the error and loading change |
| Checkout.CheckoutPage.HandleInputChange | src/components/order.tsx:94-99 | the address becomes the old one with only the named field replaced; every other field of the page keeps its value |
| Checkout.CheckoutPage.ProceedToPayment | src/components/order.tsx:114-121 | a valid address moves step 1 to 2 and clears the error; an invalid one stays on step 1 with "Please fill in all required fields"; only the step and the error change |
| Checkout.CheckoutPage.ReturnToShipping | src/components/order.tsx:396-418 | "Edit Address" and "Back" return to step 1; every other field, the address, the error and the cart among them, keeps its value |
| Checkout.CheckoutPage.PlaceOrder | src/components/order.tsx:124-171 | a request is made exactly when the address is valid and a token exists; otherwise the step stays 2 with the matching error; OK sets the order id, success and step 3; non-OK keeps step 2 with the server message or "Failed to place order"; a throw sets the network error; only the error, the step, the success flag and the order id change |
| CartPage.FetchOutcome | src/components/Cart.tsx:43-87 | with no token nothing is sent and the login message is shown; an OK body without `success` and `data` empties the cart; loading always ends false |
| CartPage.CartView.constructor | src/components/Cart.tsx:30-34 | no cart, loading, no error, no busy items, an empty promo code |
| CartPage.CartView.FetchCartItems | src/components/Cart.tsx:43-87 | the new state is the fetch outcome of the old state, and the requests sent are exactly those of the fetch; the promo code is untouched |
| CartPage.NonPositiveQuantityRemoves | src/components/Cart.tsx:90-95 | asking for a quantity of 0 or less is a removal: same state, same requests, and no quantity update is ever sent |
| CartPage.MutationClearsOnlyItsFlag | src/components/Cart.tsx:90-149 | after an update or a removal the item's busy flag is cleared and every other item's flag is as it was |
| CartPage.MutationOutcome | src/components/Cart.tsx:90-123 | on OK the cart is refetched (exactly when a token exists) and its outcome is shown; on non-OK the cart is kept and the server message or the update/remove failure is shown; no refetch follows a failure |
| CartPage.CartView.UpdateCartQuantity | src/components/Cart.tsx:90-123 | the new state and the requests are those of the update; the item is busy while its request is in flight |
| CartPage.CartView.RemoveFromCart | src/components/Cart.tsx:126-149 | the new state and the requests are those of the removal; the item is busy while its request is in flight |
| CartPage.CartView.Decrease | src/components/Cart.tsx:254-296 | the minus button of an idle item updates it to its quantity minus one; the typed promo code is kept |
| CartPage.CartView.Increase | src/components/Cart.tsx:254-296 | the plus button of an idle item updates it to its quantity plus one; the typed promo code is kept |
| CartPage.CartView.SetPromoCode | src/components/Cart.tsx:33 | typing a code changes only the promo code |
| CartPage.PromoCodeCases | src/components/Cart.tsx:152-158 | "SAVE10" is accepted in any letter case; "save 10" and "SAVE20" are not; any accepted code has six characters ending in "10" |
| CartPage.CartView.ApplyPromoCode | src/components/Cart.tsx:152-158 | the alert is the discount message exactly for an accepted code, otherwise "Invalid promo code"; the cart, and so the total shown under the items (its `totalPrice`, line 337), and every other field stay as they were |
| CartPage.Render | src/components/Cart.tsx:164-224 | the item list is shown exactly when loading is over and the cart has items; the empty-cart view exactly when loading is over and there is no cart or it is empty |
| Shop.ParseSortOrder | src/components/Shop.tsx:138-148 | each of "price-low", "price-high" and "rating" selects its order, both directions; anything else keeps the list order |
| Shop.InsertSorted | src/components/Shop.tsx:138-148 | inserting into a list sorted by key keeps it sorted |
| Shop.InsertPermutes | src/components/Shop.tsx:138-148 | insertion adds exactly the one element |
| Shop.SortByCorrect | src/components/Shop.tsx:138-148 | the sort returns the list ordered by the comparator's key, as a permutation of its input |
| Shop.DefaultSortKeepsOrder | src/components/Shop.tsx:138-148 | the default comparator returns 0, and the stable sort leaves the list as it is |
| Shop.FilteredProducts | src/components/Shop.tsx:134-149 | the shown products are exactly the matching ones (category, price range in dollars against cents), as a permutation of the filtered list with no duplicates; they are sorted by price up, price down or rating down, and in catalogue order for the default |
| Shop.CatalogueHasNoDuplicates | src/components/Shop.tsx:47-132 | the six catalogue products have ids 1 to 6 and no duplicates |
| Shop.InitialViewShowsCatalogue | src/components/Shop.tsx:27-29 | the initial view (no category, 0 to 500 dollars, default order) shows the whole catalogue in order |
| Shop.ToggleFlipsMembership | src/components/Shop.tsx:151-157 | toggling flips the product's membership in the wishlist and no other product's |
| Shop.ToggleKeepsNoDuplicates | src/components/Shop.tsx:151-157 | the wishlist never holds an id twice |
| Shop.ToggleTwice | src/components/Shop.tsx:151-157 | toggling twice restores an absent id's wishlist; a present id comes back at the end |
| Shop.ShopPage.constructor | src/components/Shop.tsx:27-33 | no category, the 0 to 500 range, the default order and an empty wishlist |
| Shop.ShopPage.Shown | src/components/Shop.tsx:134-149 | every shown product is in the catalogue and matches the current filter, with no duplicates |
| Shop.ShopPage.SelectCategory | src/components/Shop.tsx:211 | only the category changes |
| Shop.ShopPage.SetPriceFromSlider | src/components/Shop.tsx:239 | the range becomes 0 to the slider value, and nothing else changes |
| Shop.ShopPage.SetSortBy | src/components/Shop.tsx:288 | only the sort key changes |
| Shop.ShopPage.ToggleWishlist | src/components/Shop.tsx:151-157 | the wishlist is toggled for the id, and the filters are unchanged |
| Carousels.NextIndex | src/components/HotDealsCarousel.tsx:152-154 | the next index stays in range, steps by one and wraps from the last to 0 |
| Carousels.PrevIndex | src/components/HotDealsCarousel.tsx:156-158 | the previous index stays in range, steps back by one and wraps from 0 to the last |
| Carousels.PrevNextInverse | src/components/HotDealsCarousel.tsx:152-158 | previous undoes next and next undoes previous |
| Carousels.AdvanceIsModular | src/components/HotDealsCarousel.tsx:152-154 | k presses of next from i land on (i + k) mod n |
| Carousels.FullCycleReturns | src/components/HotDealsCarousel.tsx:152-154 | n presses of next return to the start |
| Carousels.HotDeals.constructor | src/components/HotDealsCarousel.tsx:150 | the carousel starts at the first product |
| Carousels.HotDeals.NextProduct | src/components/HotDealsCarousel.tsx:152-154 | the index moves to the next index and stays in range |
| Carousels.HotDeals.PrevProduct | src/components/HotDealsCarousel.tsx:156-158 | the index moves to the previous index and stays in range |
| Carousels.HotDeals.SelectIndicator | src/components/HotDealsCarousel.tsx:257 | a dot click shows that product |
| Carousels.NextPageStart | src/components/HotDealsCarousel.tsx:283-287 | next advances a page of four, or wraps to 0 when the next page would start at or past the end |
| Carousels.PrevPageStart | src/components/HotDealsCarousel.tsx:289-293 | from 0, previous jumps to the last four products; elsewhere it goes back four, never below 0 |
| Carousels.PrevUndoesNext | src/components/HotDealsCarousel.tsx:283-293 | on a page boundary inside the list, previous undoes next |
| Carousels.VisibleProducts | src/components/HotDealsCarousel.tsx:295 | at most four products, those from the index on, never none for an index inside the list |
| Carousels.IndicatorCount | src/components/HotDealsCarousel.tsx:370 | the indicators are the fewest pages of four that hold the products |
| Carousels.ActiveIndicator | src/components/HotDealsCarousel.tsx:375 | the lit indicator is the page holding the index |
| Carousels.IndicatorsMatchPages | src/components/HotDealsCarousel.tsx:370-375 | each indicator opens a non-empty page and lights itself; every index in the list lights an existing indicator |
| Carousels.PrevFromStartIsUnaligned | src/components/HotDealsCarousel.tsx:283-293 | with ten products, previous from 0 shows products 6 to 9 under the second indicator, while next reaches the last page at 8 |
| Carousels.FeaturedCarousel.constructor | src/components/HotDealsCarousel.tsx:280 | the carousel starts at index 0 |
| Carousels.FeaturedCarousel.Visible | src/components/HotDealsCarousel.tsx:295 | the page shows at most four products, and at least one for a non-empty list |
| Carousels.FeaturedCarousel.NextProducts | src/components/HotDealsCarousel.tsx:283-287 | the index moves to the next page start |
| Carousels.FeaturedCarousel.PrevProducts | src/components/HotDealsCarousel.tsx:289-293 | the index moves to the previous page start |
| Carousels.FeaturedCarousel.SelectIndicator | src/components/HotDealsCarousel.tsx:370-375 | indicator k moves to index 4k, and indicator k lights up |
| BestSelling.BadgeText | src/components/bestSellingProducts.tsx:127-131 | a badge shows exactly when the discount or the badge is non-empty; the discount wins, and the text is never empty |
| BestSelling.BestSellerBadges | src/components/bestSellingProducts.tsx:30-83 | products 1, 2 and 6 show "17% OFF", "44% OFF" and "40% OFF", product 3 shows "FEATURED", and products 4 and 5 show nothing |
| BestSelling.ArrowsMatchGuards | src/components/bestSellingProducts.tsx:101-105 | on a page boundary the left arrow is shown exactly when previous would move |
| BestSelling.Strip.constructor | src/components/bestSellingProducts.tsx:86 | the strip starts at index 0 |
| BestSelling.Strip.Visible | src/components/bestSellingProducts.tsx:90-93 | at most four products from the start index on, never none for a non-empty list |
| BestSelling.Strip.Next | src/components/bestSellingProducts.tsx:95-99 | next advances four exactly when a further page exists, otherwise nothing changes |
| BestSelling.Strip.Prev | src/components/bestSellingProducts.tsx:101-105 | previous goes back four exactly when that stays at or above 0 |
| BestSelling.TwoPagesOfBestSellers | src/components/bestSellingProducts.tsx:186-197 | the six products make two pages: next moves only from the first, previous only from the second, and the second holds two products |
| Blogs.DecimalString | src/components/Blogs.tsx:20-26 | the template literal writes a natural number as non-empty decimal digits with no leading zero |
| Blogs.DecimalStringValue | src/components/Blogs.tsx:20-26 | the digits written for a number spell exactly that number |
| Blogs.GenerateBlogs | src/components/Blogs.tsx:20-32 | one post per draw, post i made from draw i, ids strictly increasing |
| Blogs.GeneratedFields | src/components/Blogs.tsx:20-32 | post i has id i + 1; authors, categories and pictures repeat every five posts |
| Blogs.GeneratedExamples | src/components/Blogs.tsx:20-32 | the first title is "Blog Post 1: Latest Tech Trends"; dates are not zero-padded; the fifth picture is the first one again |
| Blogs.RecentBlogs | src/components/Blogs.tsx:35 | the last five posts, or all of them when there are fewer |
| Blogs.RecentAreTheLastFive | src/components/Blogs.tsx:35 | the recent posts, taken before the sort, are posts 16 to 20 |
| Blogs.SortByViews | src/components/Blogs.tsx:36 | the shared post array is sorted in place by views, most first, ties by id, as a permutation of itself |
| Blogs.SortedByViewsUnique | src/components/Blogs.tsx:36 | two lists with the same posts both in that order are equal, so the stable sort's result is determined |
| Blogs.CommentsData | src/components/Blogs.tsx:37-43 | one comment for each of the first five sorted posts, citing its id and "User" plus the id |
| Blogs.InitBlogData | src/components/Blogs.tsx:20-43 | the posts are generated, recent is taken before the in-place sort, and popular and comments are taken after it from the sorted array |
| Blogs.PopularIsMostViewed | src/components/Blogs.tsx:36 | the first popular post is the first post of the sorted list and has at least as many views as any post |
| Blogs.TotalPages | src/components/Blogs.tsx:49 | the fewest pages of six that hold the posts |
| Blogs.PageSlice | src/components/Blogs.tsx:56-57 | page p holds exactly the posts from index (p - 1) * 6 up to the sixth after it or the end of the list; it is non-empty up to the last page and empty after it |
| Blogs.PageWindow | src/components/Blogs.tsx:173-174 | min(total, 5) consecutive buttons from max(1, current - 2), as written |
| Blogs.WindowOverrunsLastPage | src/components/Blogs.tsx:173-193 | with twenty posts there are four pages, yet on page 4 the buttons are 2 to 5; page 5 is empty, Next is still enabled there, and its buttons run to 6 |
| Blogs.ClampedPageWindow | src/components/Blogs.tsx:173-174 | the corrected window has the same length and consecutive buttons; for a page within range every button is a page that exists and the current page is among them; it agrees with the source whenever two pages follow the current one |
| Blogs.BlogPage.constructor | src/components/Blogs.tsx:46 | the listing starts at page 1 |
| Blogs.BlogPage.CurrentBlogs | src/components/Blogs.tsx:56-57 | the current page shows one to six posts |
| Blogs.BlogPage.Previous | src/components/Blogs.tsx:166-167 | previous, enabled off page 1, goes back one page |
| Blogs.BlogPage.Next | src/components/Blogs.tsx:192-193 | next, enabled off the last page, goes forward one page and stays within the pages |
| Blogs.BlogPage.SelectPage | src/components/Blogs.tsx:178 | a page button of the corrected window opens that page |
| Home.HeroSection.constructor | src/components/home.tsx:106 | the slider starts at the first slide |
| Home.HeroSection.NextSlide | src/components/home.tsx:115-117 | next wraps over the three slides |
| Home.HeroSection.PrevSlide | src/components/home.tsx:119-121 | previous wraps over the three slides |
| Home.HeroSection.SelectSlide | src/components/home.tsx:168 | a dot click shows that slide |
| Home.HeroCycle | src/components/home.tsx:115-121 | next from the last slide gives the first, previous from the first gives the last, and three nexts return |
| Home.LoginStatus | src/components/home.tsx:199-213 | logged in exactly when a token and a non-empty user name are stored; the name is the stored one; the role is the stored one when non-empty and "user" otherwise; logged out clears all three fields |
| Home.LogoutLogsOut | src/components/home.tsx:216-227 | after removing the five keys the page reads as logged out; the session context's `user` key is not among them |
| Home.KapeeStore.constructor | src/components/home.tsx:178-191 | the page's initial state |
| Home.KapeeStore.CheckLoginStatus | src/components/home.tsx:199-213 | the login fields become the status read from storage; every other field of the page keeps its value |
| Home.KapeeStore.HandleLogout | src/components/home.tsx:216-231 | the five keys are removed, the page is logged out, the cart count is 0, the menu is closed; every other field of the page keeps its value |
| Home.SumQuantitiesAppend | src/components/home.tsx:329 | the summed quantity adds up across a split of the item list |
| Home.SumQuantitiesSingle | src/components/home.tsx:329 | one item contributes exactly its quantity |
| Home.SingleUnitsCountItems | src/components/home.tsx:329 | when every item has quantity 1 the count is the number of items |
| Home.CartCount | src/components/home.tsx:326-333 | with `success` and `data` the count is the sum of the item quantities (0 for no items); otherwise it is 0 |
| Home.KapeeStore.FetchCartCount | src/components/home.tsx:311-339 | with no token nothing is sent; otherwise one cart request; OK sets the summed count, non-OK leaves it, a throw sets 0; no other field changes |
| Home.FeaturedOf | src/components/home.tsx:252-253 | the first four products of the payload, and none when it has no data |
| Home.KapeeStore.FetchProducts | src/components/home.tsx:243-262 | on OK the featured products are the first four; otherwise they are unchanged; loading ends; no other field changes |
| Home.KapeeStore.AddToCart | src/components/home.tsx:265-308 | with no token nothing is sent; otherwise the add is sent, followed by a count refetch only on OK, whose OK answer sets the summed count, non-OK answer leaves it and throw sets 0; a failed add leaves the count; the product's loading flag ends false; only the count and the loading flags change |
| Home.ToggleExpanded | src/components/home.tsx:351-355 | a click on the expanded category collapses it; a click on any other category expands that one |
| Home.ToggleExpandedTwice | src/components/home.tsx:351-355 | two clicks on one category restore the state when it was closed or already that category, and close it otherwise |
| Home.KapeeStore.HandleCategoryClick | src/components/home.tsx:348-356 | selects the category, marks the category navigation as active, toggles its expansion; no other field changes |
| Home.KapeeStore.NavClick | src/components/home.tsx:695-699 | the clicked item becomes active and the category selection is cleared; no other field changes |
| Home.CategoryProducts | src/components/home.tsx:396-397 | exactly the featured products whose category equals the selected one ignoring case |
| Home.CategoryIgnoresCase | src/components/home.tsx:396-397 | selections that differ in letter case show the same products |
| Home.KapeeStore.ShownCategoryProducts | src/components/home.tsx:396-397 | the category view never shows more than the featured products |
| Dashboard.AdminGateIsExact | src/dashboard/dashboard.tsx:107-114 | access is granted exactly when the stored role is "admin": "Admin" or a missing role is refused |
| Dashboard.AdminDashboard.CheckAdminAccess | src/dashboard/dashboard.tsx:107-114 | the gate answers true exactly for the stored role "admin" |
| Dashboard.ApiError | src/dashboard/dashboard.tsx:117-134 | no error on OK; a non-OK answer rejects with the server message or "API request failed"; a throw keeps its message |
| Dashboard.Revenue | src/dashboard/dashboard.tsx:146 | the sum of the order totals: 0 for no orders, never negative for non-negative totals |
| Dashboard.RevenueAppend | src/dashboard/dashboard.tsx:146 | the revenue of two lists joined is the sum of their revenues |
| Dashboard.RevenueSingle | src/dashboard/dashboard.tsx:146 | one order contributes exactly its total |
| Dashboard.RevenuePermutation | src/dashboard/dashboard.tsx:146 | any rearrangement of the same orders gives the same revenue |
| Dashboard.ComputeStats | src/dashboard/dashboard.tsx:146-155 | counts are list lengths or 0; revenue is the sum of the order totals or 0; recent orders and users are the first five of their lists, or the whole list when it is shorter |
| Dashboard.AdminDashboard.FetchStats | src/dashboard/dashboard.tsx:137-161 | when all three calls succeed the stats are computed from them; otherwise the stats are kept and the first failure's message is the error; loading ends false; the lists and the search strings are untouched |
| Dashboard.AdminDashboard.FetchUsers | src/dashboard/dashboard.tsx:164-174 | OK sets the users (none when missing); a failure keeps them and sets the error; loading ends false; the stats, the other lists and the search strings are untouched |
| Dashboard.AdminDashboard.FetchProducts | src/dashboard/dashboard.tsx:177-187 | OK sets the products (none when missing); a failure keeps them and sets the error; loading ends false; the stats, the other lists and the search strings are untouched |
| Dashboard.AdminDashboard.FetchOrders | src/dashboard/dashboard.tsx:190-200 | OK sets the orders (none when missing); a failure keeps them and sets the error; loading ends false; the stats, the other lists and the search strings are untouched |
| Dashboard.FilteredUsers | src/dashboard/dashboard.tsx:279-282 | exactly the users whose lower-cased username or email contains the lower-cased search |
| Dashboard.FilteredProducts | src/dashboard/dashboard.tsx:284-287 | exactly the products matching on name or category |
| Dashboard.FilteredOrders | src/dashboard/dashboard.tsx:289-292 | exactly the orders matching on id or customer email |
| Dashboard.EmptySearchKeepsAll | src/dashboard/dashboard.tsx:279-292 | an empty search lists all users, products and orders in order |
| Dashboard.SearchIgnoresCase | src/dashboard/dashboard.tsx:279-282 | searches differing only in letter case list the same users |
| Dashboard.UserFoundByPartOfName | src/dashboard/dashboard.tsx:279-282 | any piece of a user's lower-cased name finds that user |
| Dashboard.AdminDashboard.ShownUsers | src/dashboard/dashboard.tsx:279-282 | the users table never grows beyond the users loaded |
| Dashboard.AdminDashboard.ShownProducts | src/dashboard/dashboard.tsx:284-287 | the products table never grows beyond the products loaded |
| Dashboard.AdminDashboard.ShownOrders | src/dashboard/dashboard.tsx:289-292 | the orders table never grows beyond the orders loaded |
| Dashboard.DisplayStatus | src/dashboard/dashboard.tsx:798 | a present status is shown as is, a missing one as "pending"; never empty |
| Dashboard.ShortId | src/dashboard/dashboard.tsx:765 | an order id is shown as its last eight characters, or whole when shorter |
| Dashboard.ProductSubmission | src/dashboard/dashboard.tsx:1095-1099 | an existing product is updated (PUT to its path), a new one created (POST); the body is the form |
| Dashboard.ProductModal.constructor | src/dashboard/dashboard.tsx:1079-1087 | the form starts from the edited product or from empty fields |
| Dashboard.ProductModal.HandleSubmit | src/dashboard/dashboard.tsx:1089-1106 | sends the product request; `onSave` runs exactly on OK; a failure sets the error; saving ends false |
| Dashboard.UserSubmission | src/dashboard/dashboard.tsx:1264-1279 | an edit is a PUT, and an empty password is dropped from its body; a create without a password sends nothing; a create with one is a POST to register; the password is sent exactly when it is non-empty |
| Dashboard.NoEmptyPasswordIsSent | src/dashboard/dashboard.tsx:1264-1279 | no request carries an empty password, and name, email and role are sent as typed |
| Dashboard.UserModal.constructor | src/dashboard/dashboard.tsx:1249-1256 | the form starts from the edited user with the role defaulting to "user", and an empty password |
| Dashboard.UserModal.HandleSubmit | src/dashboard/dashboard.tsx:1258-1286 | sends the submission's request; without one the error is "Password is required for new users" and nothing is saved; otherwise `onSave` runs exactly on OK and a failure sets the error; saving ends false |
| Dashboard.FirstFailure | src/dashboard/dashboard.tsx:140-144 | there is a failure exactly when one of the three calls fails |
| Dashboard.AdminDashboard.constructor | src/dashboard/dashboard.tsx:79-99 | no stats, empty lists, empty searches, no error |

## Left out

- Rendering, styling, icons, modals opened for viewing, `alert`/`confirm` dialogs, `console` output and `window.location` redirects are not modelled. The admin gate's redirect is replaced by its boolean answer.
- JSON parsing is not modelled. A response's payload arrives already decoded, and the session context's `JSON.parse` is a parameter.
- HTTP headers, the base URL and request bodies other than the dashboard forms are not modelled. A request is its kind and its arguments.
- Asynchronous interleaving is not modelled. Each handler runs to completion with its outcomes given up front.
- `Promise.all` in `fetchStats` is modelled as rejecting with the first failure in argument order. The real first failure is the one that settles first.
- Dashboard.AdminDashboard.FetchStats: the source fetches `/user/user/users` here but `/user/users` in `fetchUsers`. Endpoints of the dashboard's list fetches are not modelled.
- `setInterval` autoplay of the hero slider and all timers are left out.
- Floating point is left out. Money is integer cents, and `toFixed`, `toLocaleString` and the header's `cartCount * 149.99` are not modelled.
- The promo code's 10% discount is never applied by the source. Only the alert is modelled.
- `Lower` folds ASCII letters only. `toLowerCase` on other scripts is not modelled.
- The random comment counts, views and read times of the generated blog posts are inputs (`Draw`), not random values.
- Delete handlers (`deleteUser`, `deleteProduct`) and the dashboard's tab-switch effect are not modelled. Neither is the sidebar, tab or view-mode state of any page.
- `useAuth`, the context consumer hook, is not modelled.
- Home.CartCount: a cart payload whose `items` is missing is not modelled. `data.items` is always a list here.
- Home.KapeeStore.FetchCartCount: a non-OK answer leaves the count as it was, as the code does. It is not reset to 0.
- Carousels.NextIndex and Carousels.PrevIndex require a non-negative index. Every carousel keeps its index in range.
- Carousels.HotDeals.constructor requires a non-empty list, because the component reads `products[currentIndex]` on every render.
- Shop.SortBy: stability is stated only for the default order, where the sort leaves the list as it is.
- Blogs.BlogPage.SelectPage accepts only buttons of the corrected window. With the window as written, page 5 of four would be reachable (see Findings).
- Blogs.BlogPage.Next requires a page below the last one. As written, Next is disabled only on the last page itself, so from a page past the end it is enabled.
- Shop products' images, reviews and discounts, and the other pages' display-only fields, are not modelled.

## Findings

| source | as written | input that shows it | evidently intended | confidence | as-written member | corrected member |
|---|---|---|---|---|---|---|
| src/components/Blogs.tsx:173-174 | the page buttons start at `max(1, currentPage - 2)` and number `min(totalPages, 5)`, so near the end they run past the last page | twenty posts make four pages; on page 4 the buttons are 2, 3, 4, 5; button 5 opens an empty page on which Next is still enabled (it is disabled only at `currentPage === totalPages`) | the buttons stay within 1..totalPages and include the current page | not executed | Blogs.WindowOverrunsLastPage | Blogs.ClampedPageWindow |

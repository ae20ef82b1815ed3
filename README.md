# Street Share Hub: a Dafny model of its rules

Street Share Hub is a group-buying marketplace. Street-food vendors pool their
orders for a supplier's product to reach bulk quantities. Suppliers list
products and ship the pooled orders. The repository has an Express/Mongoose
backend and a React client.

This project models the parts of that code that follow definite rules:

- the client's mock user registry and session (`AuthContext`). It is a class
  whose account list `register` appends to, with the invariant that emails stay
  distinct and a register-then-login round trip.
- the backend controller's rules (`Controller`): the product listing transform
  with JavaScript `||` defaults, the price fallback of product creation, and the
  register and login credential rules over a user collection keyed by email.
- the client pages and dialogs, as pure functions over sequences, integers and
  strings:
  - `OrdersPage`: participant membership in both participant forms, the user's
    contribution and the status tabs;
  - `SupplierDashboard`: the supplier's items, buckets, revenue, per-product
    totals, badge and buttons;
  - `ProductsPage`: the search and category filter;
  - `OrderTracking`: progress, icon, label, short id and the fetch guard;
  - `JoinOrderDialog` and `ModifyOrderDialog`: the quantity clamp, the totals
    and the request guards, with small classes holding each dialog's state
    across prop changes and the state its handlers leave behind.

`Seqs` states JavaScript's `filter`, `find` and `some` once, together with their
facts: membership, order-preserving subsequence, concatenation and
commutation. `Types` holds the client's data types from `src/types/index.ts`
and the status buckets that two pages share.

Modelling conventions:

- A JavaScript number that a `||` guards is an `Option<int>`: `None` stands for
  undefined, null or NaN, and "truthy" means present and non-zero.
- Prices and quantities are integers.
- Statuses are strings, because the code compares strings; unknown status values
  are kept.
- The participant entry is `Bare(id) | Obj(user, quantity)`.
- These are parameters of the model: the clock-derived id of `register`, the
  bcrypt hash and comparison, the new document id, the outcome of each service
  call, and what `parseInt` made of the text.

The routes in backend/routes/route.js (lines 19-21 and 29-30) name
`createGroupOrder`, `joinGroupOrder`, `getGroupOrders`, `getOrderTracking` and
`modifyOrder`. None of these is defined in backend/controllers/controller.js,
so the model has no server-side group-order logic. The client dialogs that call
those routes are modelled up to the request they send.

## Model

| member | source | states |
|---|---|---|
| `Types.WithStatusMembers` | street-share-hub-main/src/pages/SupplierDashboard.tsx:30-32 | a status bucket holds exactly the orders with that status, as an order-preserving subsequence of the list |
| `Types.BucketsDisjoint` | street-share-hub-main/src/pages/Orders.tsx:205-207 | no order belongs to the buckets of two different statuses |
| `Types.BucketsPartition` | street-share-hub-main/src/pages/Orders.tsx:205-207 | when every status is open, closed or delivered, the three bucket sizes add up to the list's length |
| `Types.ProductBucket` | street-share-hub-main/src/pages/SupplierDashboard.tsx:125-161 | filtering by product and then by status equals filtering by status and then by product, and is no longer than the status bucket |
| `AuthContext.SeedAccounts` | street-share-hub-main/src/context/AuthContext.tsx:8-36 | the three demonstration accounts have pairwise distinct emails |
| `AuthContext.AppendKeepsEmailsDistinct` | street-share-hub-main/src/context/AuthContext.tsx:86-106 | appending an account whose email no entry has keeps registry emails pairwise distinct |
| `AuthContext.RegisteredAccountIsFound` | street-share-hub-main/src/context/AuthContext.tsx:52-106 | after a new-email account is appended, the credential lookup for its email and password finds exactly that new entry |
| `AuthContext.AuthProvider.constructor` | street-share-hub-main/src/context/AuthContext.tsx:39-40 | the provider starts with the seed registry, no user and `isAuthenticated` false |
| `AuthContext.AuthProvider.Restore` | street-share-hub-main/src/context/AuthContext.tsx:42-49 | a saved user becomes the current user with `isAuthenticated` true; with none saved nothing changes; `isAuthenticated` stays equivalent to a user being present |
| `AuthContext.AuthProvider.Login` | street-share-hub-main/src/context/AuthContext.tsx:51-82 | returns true iff some entry has exactly that email and password; on success the user is the first such entry's record and `isAuthenticated` is true; on failure the session is unchanged; the registry never changes |
| `AuthContext.AuthProvider.Register` | street-share-hub-main/src/context/AuthContext.tsx:84-117 | returns false and changes nothing when the email is taken; otherwise appends exactly one entry with the form's fields, password and the given id, and signs that user in; registry emails stay distinct |
| `AuthContext.AuthProvider.Logout` | street-share-hub-main/src/context/AuthContext.tsx:119-127 | the user becomes null and `isAuthenticated` false; the registry is untouched |
| `AuthContext.RegisterThenLogin` | street-share-hub-main/src/context/AuthContext.tsx:51-117 | for an email not yet registered, both the registration and the following login with that email and password return true; the registry gains exactly the new account and the new user is signed in |
| `Controller.OrNum` | backend/controllers/controller.js:75 | the result is one of the two operands, and it is truthy iff at least one operand is truthy |
| `Controller.OrString` | backend/controllers/controller.js:78-79 | the result is non-empty iff the field or the fallback is non-empty; so a non-empty default such as "Other" or "kg" never yields an empty string |
| `Controller.ToView` | backend/controllers/controller.js:72-83 | the listed product keeps the id, name, description and image; its price is `pricePerKg`, or `price` when `pricePerKg` is missing or 0; category defaults to "Other", unit to "kg", minimum to 1; it takes the supplier's id and name |
| `Controller.GetProducts` | backend/controllers/controller.js:67-89 | succeeds iff every product's supplier reference resolves, and then returns one transformed entry per stored product in store order; otherwise fails with 500 |
| `Controller.NewProductDoc` | backend/controllers/controller.js:46-59 | the saved `price` and `pricePerKg` are equal: the request's `pricePerKg` when truthy, else its `price`; name, description, image, category, unit and minimum come from the request, the id is the new document id, and the supplier is the caller |
| `Controller.CreatedProductListedPrice` | backend/controllers/controller.js:52-75 | a created product is listed with the price it was created with |
| `Controller.UserCollection.constructor` | backend/models/model.js:4-9 | an empty user collection, keyed by the unique email |
| `Controller.UserCollection.Register` | backend/controllers/controller.js:7-19 | an existing email gets 400 "User already exists" and nothing is saved; otherwise a user with the hashed password is stored under its email, with role defaulting to "customer", and 201 is answered |
| `Controller.UserCollection.Login` | backend/controllers/controller.js:21-33 | signs in iff the email is stored and the password matches its hash, returning id, name, email and role; an unknown email and a wrong password both get the identical 400 "Invalid credentials" |
| `OrdersPage.KeepGroupOrders` | street-share-hub-main/src/pages/Orders.tsx:28-51 | the kept orders, wrapped back as entries, are exactly the response's filtered entries: the object entries carrying an `_id` or an `id` key, in response order and with their multiplicity; an order is kept iff such an entry holds it |
| `OrdersPage.OrdersAfterFetch` | street-share-hub-main/src/pages/Orders.tsx:46-63 | after a fetch the list holds the response's group orders; it is empty when the response has no data or the request fails |
| `OrdersPage.MemberOfIffTakes` | street-share-hub-main/src/pages/Orders.tsx:69-76 | the membership test holds iff some participant is the bare user id or an object whose `user` is the user id |
| `OrdersPage.UserOrdersMembers` | street-share-hub-main/src/pages/Orders.tsx:69-76 | `userOrders` holds exactly the fetched orders the user takes part in, as an order-preserving subsequence |
| `OrdersPage.SignedOutSeesNoOrders` | street-share-hub-main/src/pages/Orders.tsx:69-76 | with no signed-in user, no order is listed |
| `OrdersPage.UserParticipation` | street-share-hub-main/src/pages/Orders.tsx:115-120 | defined iff the order passes the same membership test as `userOrders`, and then it is the first of the order's participants that matches the user: no earlier entry matches |
| `OrdersPage.ListedOrdersHaveParticipation` | street-share-hub-main/src/pages/Orders.tsx:69-120 | every order shown on the page has a participation entry for the user |
| `OrdersPage.Contribution` | street-share-hub-main/src/pages/Orders.tsx:160-173 | shown iff the user's first entry is an object; then it is that first entry's quantity times the order's price, and 0 when the price is absent |
| `OrdersPage.FirstEntryDecidesContribution` | street-share-hub-main/src/pages/Orders.tsx:115-173 | when the first entry for the user is the object with quantity q, the contribution is q times the price, whatever later entries for the same user say |
| `OrdersPage.TabsPartitionUserOrders` | street-share-hub-main/src/pages/Orders.tsx:205-207 | the active, processing and completed tabs are pairwise disjoint; with known statuses their counts add up to the number of the user's orders |
| `OrdersPage.ModifyOnlyInActiveTab` | street-share-hub-main/src/pages/Orders.tsx:190-207 | every card in the Active tab offers "Modify Order"; no card in Processing or Completed does |
| `SupplierDashboard.SupplierItems` | street-share-hub-main/src/pages/SupplierDashboard.tsx:27-28 | the supplier's products and orders are exactly the items whose `supplierId` is the user id, in their original order |
| `SupplierDashboard.SupplierBucketsDisjoint` | street-share-hub-main/src/pages/SupplierDashboard.tsx:30-32 | the open, closed and delivered buckets of the supplier's orders are pairwise disjoint |
| `SupplierDashboard.Revenue` | street-share-hub-main/src/pages/SupplierDashboard.tsx:34-36 | the sum is a number iff every order has a price; an order without a price makes it NaN; with non-negative quantities and prices it is non-negative |
| `SupplierDashboard.NoDeliveriesNoRevenue` | street-share-hub-main/src/pages/SupplierDashboard.tsx:34-36 | with no delivered order the total revenue is 0 |
| `SupplierDashboard.InsertUndeliveredKeepsRevenue` | street-share-hub-main/src/pages/SupplierDashboard.tsx:34-36 | inserting an order that is not delivered, at any position, leaves the total revenue unchanged |
| `SupplierDashboard.ReplaceUndeliveredKeepsRevenue` | street-share-hub-main/src/pages/SupplierDashboard.tsx:34-36 | changing an order that is not delivered into another that is not delivered leaves the total revenue unchanged |
| `SupplierDashboard.QuantitySum` | street-share-hub-main/src/pages/SupplierDashboard.tsx:126-128 | the sold-quantity reduction is non-negative when every quantity is |
| `SupplierDashboard.TotalSoldAppend` | street-share-hub-main/src/pages/SupplierDashboard.tsx:125-128 | a new order adds its quantity to a product's "Total Sold" iff it is for that product and delivered, and adds nothing otherwise |
| `SupplierDashboard.ActiveCountBounded` | street-share-hub-main/src/pages/SupplierDashboard.tsx:161 | a product's active count is the number of its open orders, and never exceeds the dashboard's active-order count |
| `SupplierDashboard.BadgeMatchesActions` | street-share-hub-main/src/pages/SupplierDashboard.tsx:49-114 | "Close Order" is shown iff the badge reads "Collecting Orders", and "Mark as Shipped" iff it reads "Ready to Ship"; never both; every other status reads "Delivered" |
| `SupplierDashboard.VariantAgreesWithOrdersPage` | street-share-hub-main/src/pages/SupplierDashboard.tsx:49 | the dashboard's badge variant equals the Orders page's status colour exactly on the three known statuses |
| `ProductsPage.Lower` | street-share-hub-main/src/pages/Products.tsx:45-46 | the result has the same length, contains no upper-case letter, and keeps every character that is not an upper-case letter |
| `ProductsPage.LowerIdempotent` | street-share-hub-main/src/pages/Products.tsx:45-46 | lower-casing an already lower-cased string changes nothing |
| `ProductsPage.IncludesIffOccurs` | street-share-hub-main/src/pages/Products.tsx:45-46 | `includes` holds iff the term occurs at some position |
| `ProductsPage.IncludesEmpty` | street-share-hub-main/src/pages/Products.tsx:45-46 | the empty term is included in every string |
| `ProductsPage.FilteredMembers` | street-share-hub-main/src/pages/Products.tsx:44-49 | a product is listed iff its name or category contains the term, ignoring case, and the category is "All" or equal; the list is an order-preserving subsequence |
| `ProductsPage.EmptySearchShowsAll` | street-share-hub-main/src/pages/Products.tsx:44-49 | with an empty term and "All" the whole catalogue is listed |
| `ProductsPage.SearchIgnoresCase` | street-share-hub-main/src/pages/Products.tsx:45-46 | two search terms that lower-case alike list the same products |
| `ProductsPage.CategoryIsExact` | street-share-hub-main/src/pages/Products.tsx:47 | with a category other than "All", every listed product has exactly that category, case included |
| `ProductsPage.ProductsAfterFetch` | street-share-hub-main/src/pages/Products.tsx:22-38 | after a fetch the catalogue is the response, or empty when the request fails |
| `ProductsPage.FailedFetchShowsNoProducts` | street-share-hub-main/src/pages/Products.tsx:163 | after a failed fetch, once loading ends, "No products found" is shown for every term and category |
| `OrderTracking.Progress` | street-share-hub-main/src/components/OrderTrackingDialog.tsx:66-81 | the percentage is one of 0, 25, 50, 75 and 100: 25 iff open or pending, 50 iff closed or confirmed, 75 iff in_transit, 100 iff delivered |
| `OrderTracking.ProgressRisesAlongStages` | street-share-hub-main/src/components/OrderTrackingDialog.tsx:66-81 | progress strictly increases along open, closed, delivered and along pending, confirmed, in_transit, delivered |
| `OrderTracking.IconFollowsProgress` | street-share-hub-main/src/components/OrderTrackingDialog.tsx:18-33 | two statuses get the same icon iff they get the same progress; the fallback icon goes with progress 0 |
| `OrderTracking.StatusLabel` | street-share-hub-main/src/components/OrderTrackingDialog.tsx:107 | the label has the status's length, replaces each underscore by a space, keeps every other character and contains no underscore |
| `OrderTracking.ShortId` | street-share-hub-main/src/components/OrderTrackingDialog.tsx:104 | the header id is the prefix of the order id of length min(8, its length) |
| `OrderTracking.TrackingRequest` | street-share-hub-main/src/components/OrderTrackingDialog.tsx:40-63 | tracking for the given id is requested iff the id is non-empty and the dialog is open |
| `JoinOrderDialog.Clamp` | street-share-hub-main/src/components/JoinOrderDialog.tsx:160 | after an edit the quantity is at least the minimum; it is the parsed value when that reaches the minimum; non-numeric text gives max(minimum, 0) |
| `JoinOrderDialog.TotalCoversMinimumOrder` | street-share-hub-main/src/components/JoinOrderDialog.tsx:112-114 | after any edit the shown total is at least the cost of the minimum order |
| `JoinOrderDialog.InitialQuantityMayBeBelowMinimum` | street-share-hub-main/src/components/JoinOrderDialog.tsx:24 | for a product whose minimum exceeds 10, no edit can produce the opening quantity 10 |
| `JoinOrderDialog.JoinRequestFor` | street-share-hub-main/src/components/JoinOrderDialog.tsx:53-65 | a join request is sent iff there is a user and a non-empty order id, and it carries that id and the current quantity |
| `JoinOrderDialog.CreateRequestFor` | street-share-hub-main/src/components/JoinOrderDialog.tsx:85-92 | a create request is sent iff there is a user, and it carries the product id, target 100 and the current quantity |
| `JoinOrderDialog.JoinDialog.constructor` | street-share-hub-main/src/components/JoinOrderDialog.tsx:24-26 | the dialog opens with quantity 10, not loading, and no existing orders |
| `JoinOrderDialog.JoinDialog.EditQuantity` | street-share-hub-main/src/components/JoinOrderDialog.tsx:160 | an edit sets the quantity to the clamp of the parsed text and changes nothing else |
| `JoinOrderDialog.JoinDialog.FetchOrders` | street-share-hub-main/src/components/JoinOrderDialog.tsx:29-43 | on a response the list becomes the response's orders for this product in response order; on an error it keeps the previous list; loading ends either way |
| `JoinOrderDialog.JoinDialog.HandleJoin` | street-share-hub-main/src/components/JoinOrderDialog.tsx:53-83 | sends the guarded join request; the dialog closes iff a request was sent and it succeeded; after a request loading is off; the guard alone changes no state |
| `JoinOrderDialog.JoinDialog.HandleCreate` | street-share-hub-main/src/components/JoinOrderDialog.tsx:85-110 | sends the create request iff there is a user; the dialog closes iff it was sent and succeeded; after a request loading is off |
| `JoinOrderDialog.ExistingOrdersAreTheProducts` | street-share-hub-main/src/components/JoinOrderDialog.tsx:35 | the listed existing orders are exactly the fetched orders of the product, as an order-preserving subsequence of the fetched list |
| `JoinOrderDialog.JoinDialog.ShowProduct` | street-share-hub-main/src/components/JoinOrderDialog.tsx:23-51 | a new product prop replaces the product and keeps the quantity, the loading flag and the listed orders |
| `JoinOrderDialog.StateCarriesAcrossProducts` | street-share-hub-main/src/components/JoinOrderDialog.tsx:24-92 | after a successful fetch for one product, a change to a second product and a failed refetch, the first product's orders stay listed and none is the second product's; a new order for the second product is requested with the quantity clamped to the first product's minimum; when that quantity was typed between the two minimums, the request carries a quantity below the second product's minimum |
| `ModifyOrderDialog.CurrentUserQuantity` | street-share-hub-main/src/components/ModifyOrderDialog.tsx:21 | a non-zero current quantity comes from a details entry whose vendor is the signed-in user, in an order that is present |
| `ModifyOrderDialog.FirstEntryDecides` | street-share-hub-main/src/components/ModifyOrderDialog.tsx:21 | the current quantity is that of the first details entry for the user |
| `ModifyOrderDialog.NoEntryMeansZero` | street-share-hub-main/src/components/ModifyOrderDialog.tsx:21 | without a details entry for the user the current quantity is 0 |
| `ModifyOrderDialog.NonNumericDisablesSave` | street-share-hub-main/src/components/ModifyOrderDialog.tsx:78-86 | non-numeric or empty text sets the new quantity to 0, which disables "Save changes" |
| `ModifyOrderDialog.ModifyRequestFor` | street-share-hub-main/src/components/ModifyOrderDialog.tsx:25-33 | a modify request is sent iff there is an order, a user and a changed quantity, and it carries the order's `_id` and the new quantity |
| `ModifyOrderDialog.EnabledSaveSends` | street-share-hub-main/src/components/ModifyOrderDialog.tsx:26-86 | pressing an enabled "Save changes" with an order and a user always sends a request, with a positive quantity |
| `ModifyOrderDialog.ModifyDialog.constructor` | street-share-hub-main/src/components/ModifyOrderDialog.tsx:19-23 | on first mount the new-quantity field starts at the user's current quantity in the order it is mounted with, and at 0 when mounted without an order; not loading |
| `ModifyOrderDialog.ModifyDialog.ShowOrder` | street-share-hub-main/src/components/ModifyOrderDialog.tsx:19-22 | a new order prop replaces the order and keeps the new-quantity field and the loading flag |
| `ModifyOrderDialog.ModifyDialog.EditQuantity` | street-share-hub-main/src/components/ModifyOrderDialog.tsx:78 | an edit sets the new quantity to the parsed number, or 0 for non-numeric text |
| `ModifyOrderDialog.ModifyDialog.HandleModify` | street-share-hub-main/src/components/ModifyOrderDialog.tsx:25-50 | without a request the dialog just closes and no state changes; with one, the dialog closes iff the call succeeded, and loading ends |
| `ModifyOrderDialog.TypedQuantityCarriesAcrossOrders` | street-share-hub-main/src/pages/Orders.tsx:44-339 | the page's single dialog, mounted with no order, shows 0 when the first order is opened; a positive quantity typed there and kept when another order is opened is sent for that other order when it differs from the user's quantity in it |

## Left out

- Server-side group orders (creating, joining, listing, tracking and modifying them): the handlers the routes name are not in the controller, so no code exists to model.
- `getUsers`, `createOrder` and `getOrders` in the controller: plain database reads and writes with no rule beyond the query.
- The database itself: queries, `populate`, Mongoose schema validation (required fields, enums, the `unit` default) and the 500 answers for database errors. The 500 for a product whose supplier no longer exists is modelled.
- Password hashing and tokens: `bcrypt.hash` and `bcrypt.compare` are parameters, and the signed JWT is not part of the modelled login reply.
- `localStorage`, toasts, `console` logging and the axios service wrappers: side effects only. The saved user is a parameter of `Restore`.
- React rendering and the open/close order of dialogs. Prop changes are modelled by `ShowProduct` and `ShowOrder`; when effects run is not.
- `JoinOrderDialog.JoinDialog.FetchOrders`, `JoinOrderDialog.JoinDialog.HandleJoin`, `JoinOrderDialog.JoinDialog.HandleCreate` and `ModifyOrderDialog.ModifyDialog.HandleModify`: each models only the state once the handler has finished. `isLoading` is true only while the request is awaited, so the model never reaches a state where it is true. The disabled buttons that guard against a second submission during that window are not modelled.
- `AuthContext.AuthProvider.constructor`: seeds a fresh registry for each provider. In the code `mockUsers` is a module-level array, so accounts registered before a remount of the provider survive until the page reloads.
- `JoinOrderDialog.JoinDialog`: assumes a product is present. With none the dialog renders nothing and fetches nothing.
- Floating point and locale: progress percentages are divisions, amounts use `toLocaleString`, and dates are formatted. Revenue and totals are exact integers, so rounding of large JavaScript numbers is not modelled.
- `ProductsPage.Lower`: lower-cases ASCII letters only, because Unicode case mapping is outside the model.
- `parseInt` prefix parsing: the quantity edits take its outcome as an optional integer.
- `AuthContext.AuthProvider.Register`: takes the `Date.now()` id as a parameter and does not prove registry ids unique, because the code does not ensure it.
- `ProductsPage.ProductsAfterFetch`: a response without a body makes the page fail while rendering, and the model does not represent that.
- `OrdersPage.KeepGroupOrders`: a participant object that lacks the `user` or `quantity` key is not represented; entries are bare ids or full objects.
- `getStatusIcon` of the Orders page: it only picks an icon. The tracking dialog's icon mapping is modelled.
- `useAuth` throwing outside its provider, and the pages Home, Navbar, Login and AddProductDialog: presentation only.
- The fixture lists in mockData.ts: the seed accounts of AuthContext.tsx are modelled as data; the mock products and group orders are not.

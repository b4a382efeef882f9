# E-Commerce storefront core, modelled in Dafny

This project models the parts of the E-Commerce storefront (an Express/Mongoose back end and
a React front end) whose behaviour can be stated as rules, and proves those rules about the
model.

Back end:
- **RoleGate**: the authorization middleware `requireAdmin` and `requirePermission(key)`.
  It decides one of four outcomes from the caller's user record: 401 for a missing id,
  401 for an unknown user, 403 for a refusal, or a pass. On a pass it attaches the user and
  the collected permission keys to the request.
- **Routes**: the order and product routers. Each is a first-match table of verb, path and
  gates.
- **OrderLedger**: the order schema and the order handlers.
  - It runs over an in-memory store of orders, order items and payments.
  - `computeTotal`, `createOrder`, the field patch and item replacement of `updateOrder`,
    and the cascading `deleteOrder` are its operations.
  - The constructor, `CreateOrder`, `UpdateOrderValidated` and `DeleteOrder` preserve the
    invariant that every stored total is the sum over that order's items. The as-written
    `UpdateOrder` does not (see "## Findings").
- **ProductCatalog**: the category checks of `createProduct` and `updateProduct`, and the
  `getBestSellers` ranking (group, sort, limit, join) with its fallback listing.
- **UserSchema**: the user schema's setters and validators, the `pre("validate")` name
  default, and the `pre("save")` rule that hashes the password only when it was modified.

Front end:
- **AuthContext**: the session state machine over the `token`/`user` keys of local storage.
- **AuthPage**, **LoginPage**, **RegisterPage**: the three sign-in and sign-up forms with
  their validators, error clearing, submit guards and calls.
- **DetailCard**: the product page's `normalizeSizes`, the size toggle, and its cart
  buttons.
- **QuickView**: the quick-view modal's size list, quantity stepper and stock test.
- **UserManagement**: the admin user form with its role toggle, role column, prefill and
  submit rules.
- **ProductForm**: the admin product form, which splits comma lists on submit and joins
  them when a product is opened for editing.
- **Payment**: the checkout total, the coupon and the required fields of an order.
- **ManagerDashboard**: the dashboard's month, status and colour maps, and its chart
  series.
- **VnpayReturn**: the VNPay return page's parameter object, its mount effect and the
  title and link it shows.

Shared modules:
- **JsStrings**: the JavaScript string operations the code relies on, written out: `trim`,
  ASCII `toLowerCase`, `split(',')`, `split(/[,\s]+/)`, `join`, `parseInt` and number
  printing.
- **Patterns**: the regular expressions, each as a hand-written predicate.
- **Forms**: the form and error maps the pages share.
- **Sorting**: a stable insertion sort standing for a database `sort` stage.
- **Wrappers**, **CartCalls**: an `Option` type, and the record of a call into the cart.

Parts of the code that change state are classes:
- the order and product stores;
- the user document and the request object;
- every page and the session provider.

Each method's contract ties its new state to a function of the old one. The lemmas then
prove what the source promises about those functions.

Some effects and functions are parameters instead of code:
- The network's answer, the id generator and the clock are parameters.
- The JSON (de)serialisation and the bcrypt hash are functions the caller passes in.
- The database is a set of in-memory collections.

## Model

| member | source | states |
|---|---|---|
| RoleGate.Status | backend/src/middleware/roleMiddleware.js:5-26 | a request has no status iff it passed; its status is 401 iff the id is missing or the user unknown, and a refusal is 403 |
| RoleGate.Request.constructor | backend/src/middleware/roleMiddleware.js:5 | a request starts with the id the authentication layer set, and with no user and no permissions attached |
| RoleGate.CollectPermissions | backend/src/middleware/roleMiddleware.js:65-72 | the two nested loops build the key list that CollectedKeys specifies |
| RoleGate.Request.RequireAdmin | backend/src/middleware/roleMiddleware.js:3-29 | the outcome is the admin decision; the user is attached only on a pass; the permissions are left untouched |
| RoleGate.Request.RequirePermission | backend/src/middleware/roleMiddleware.js:39-83 | the outcome is the permission decision; the user is attached on a pass; the key list is attached only on a non-admin pass |
| RoleGate.AddPermsSpec | backend/src/middleware/roleMiddleware.js:67-71 | the inner loop keeps what was collected, adds exactly the truthy keys of the role's permissions, and adds no duplicate |
| RoleGate.AddRolesSpec | backend/src/middleware/roleMiddleware.js:66-72 | the outer loop adds exactly the keys that some permission of some role carries, with no duplicates |
| RoleGate.CollectedKeysSpec | backend/src/middleware/roleMiddleware.js:65-72 | the collected list has no repeats, and a key is in it iff some permission of some role carries it as a truthy key |
| RoleGate.CollectedKeysAppend | backend/src/middleware/roleMiddleware.js:65-72 | collecting over two role lists gives the union of the two collections, with the first list's keys first |
| RoleGate.RefusalsBeforeRoles | backend/src/middleware/roleMiddleware.js:5-18 | both gates answer 401 "Unauthorized" for a missing or empty id and 401 "User not found" for an unknown id; the two messages differ |
| RoleGate.AdminGate | backend/src/middleware/roleMiddleware.js:20-29 | `requireAdmin` passes a found user iff the user's role is "admin" or some attached role is named "admin"; otherwise it answers 403; on a pass it attaches that user |
| RoleGate.AdminBypass | backend/src/middleware/roleMiddleware.js:59-63 | an admin passes for every key, and no key list is attached |
| RoleGate.PermissionGate | backend/src/middleware/roleMiddleware.js:65-83 | a non-admin passes iff some attached role carries the key; otherwise the answer is 403 "Permission denied"; on a pass the attached list is exactly the collected keys |
| RoleGate.NoRolesNoAccess | backend/src/middleware/roleMiddleware.js:65-79 | a non-admin with no roles, or asked for the empty key, is refused |
| Routes.FirstMatchFrom | backend/src/routes/orderRoutes.js:16-22 | the index found is the first matching route at or after the start, and none before it matches |
| Routes.Dispatch | backend/src/routes/productsRoutes.js:8-15 | when nothing is found, no route of the table matches |
| Routes.DispatchTo | backend/src/routes/orderRoutes.js:16-22 | a request goes to route i exactly when route i matches and no earlier route does |
| Routes.MyOrdersFirst | backend/src/routes/orderRoutes.js:16-19 | `GET /my` reaches its own handler, behind authentication only, and not the `/:id` lookup |
| Routes.OrderGates | backend/src/routes/orderRoutes.js:18-22 | listing, reading, updating and deleting orders require `manage_orders`, and `PUT /my` and `DELETE /my` reach the by-id handlers too; `POST /` has no gate |
| Routes.ProductGates | backend/src/routes/productsRoutes.js:8-15 | the two reads have no gate; create, update and delete sit behind authentication and then `requireAdmin` |
| Routes.ProductWritesAdminOnly | backend/src/routes/productsRoutes.js:11-15 | every product route other than a GET includes the admin check |
| OrderLedger.Filter | backend/src/controllers/orderControllers.js:98 | the kept elements are exactly those of the input that pass the test |
| OrderLedger.ItemsFor | backend/src/controllers/orderControllers.js:53-60 | one item per line, with the same product, quantity and price, each pointing to the order |
| OrderLedger.OrderStore.constructor | backend/src/controllers/orderControllers.js:1-3 | the store starts empty, so the totals invariant holds from the start |
| OrderLedger.OrderStore.GetOrderById | backend/src/controllers/orderControllers.js:19-26 | an unknown id gives 404; a known one gives the order with exactly its items |
| OrderLedger.OrderStore.CreateOrder | backend/src/controllers/orderControllers.js:33-62 | a rejected body gives 400 and stores nothing; otherwise a new id holds the order, with one item per line; the totals invariant is preserved |
| OrderLedger.OrderStore.UpdateOrder | backend/src/controllers/orderControllers.js:69-112 | as written: 404 for an unknown id with nothing changed; otherwise the items are replaced first, and the order is stored only if it passes the validators |
| OrderLedger.OrderStore.UpdateOrderValidated | backend/src/controllers/orderControllers.js:69-112 | the corrected update: 404 for an unknown id; the order is validated before anything is written, so a rejected update changes nothing; the totals invariant is preserved |
| OrderLedger.OrderStore.DeleteOrder | backend/src/controllers/orderControllers.js:119-127 | 404 for an unknown id with nothing changed; otherwise the order, its items and its payments are removed; the totals invariant is preserved |
| OrderLedger.Assign | backend/src/controllers/orderControllers.js:77-94 | the six field assignments give the patched order |
| OrderLedger.ComputeTotalIsSum | backend/src/controllers/orderControllers.js:5-7 | `computeTotal` equals the plain sum of price times quantity, which is 0 for no lines |
| OrderLedger.ComputeTotalAppend | backend/src/controllers/orderControllers.js:5-7 | the total of two line lists put together is the sum of their totals |
| OrderLedger.OrderTotalItemsFor | backend/src/controllers/orderControllers.js:53-60 | the items made for an order sum to that order's computed total, and contribute nothing to any other order |
| OrderLedger.OrderTotalWithout | backend/src/controllers/orderControllers.js:98 | removing an order's items leaves that order with nothing and every other order's sum unchanged |
| OrderLedger.ComputeTotalNonNegative | backend/src/controllers/orderControllers.js:5-7 | lines with no negative price or quantity never total below 0 |
| OrderLedger.AddOrderKeepsTotals | backend/src/controllers/orderControllers.js:41-60 | storing a new order with the items of its lines keeps every total equal to the sum over its items |
| OrderLedger.UpdateKeepsTotals | backend/src/controllers/orderControllers.js:96-111 | a successful update keeps every total equal to the sum over its items |
| OrderLedger.DeleteKeepsTotals | backend/src/controllers/orderControllers.js:121-125 | deleting an order with its items keeps every remaining total consistent |
| OrderLedger.CreatedOrderShape | backend/src/controllers/orderControllers.js:41-44 | the total is the sum over the lines whatever the body says; without a status the order is valid iff it has a user and a total of at least 0 |
| OrderLedger.CreateRejectedIff | backend/src/controllers/orderControllers.js:36-39 | `createOrder` refuses iff neither `req.userId` nor `body.user` is truthy, or `items` is absent or empty |
| OrderLedger.PatchLaws | backend/src/controllers/orderControllers.js:77-109 | an empty body changes nothing, and applying the same patch twice is the same as once |
| OrderLedger.PatchFalsyRules | backend/src/controllers/orderControllers.js:77-94 | falsy `user`, `status` and `paymentMethod` are ignored, while an empty `email` or `shippingAddress` and a zero `shippingFee` are written |
| OrderLedger.AnyStatusFollowsAny | backend/src/models/Order.js:14-17 | only membership in the enum is checked, so any status may follow any other |
| OrderLedger.UpdateItemsSpec | backend/src/controllers/orderControllers.js:96-109 | with items, the order's items become exactly the new lines; other orders' items are untouched; without items nothing changes |
| OrderLedger.DeleteCascade | backend/src/controllers/orderControllers.js:121-126 | after a delete, no item or payment of the order is left, and every other one is |
| OrderLedger.RejectedUpdateBreaksTotals | backend/src/controllers/orderControllers.js:97-111 | a concrete update with an invalid status that the as-written handler leaves with a stored total that no longer matches the stored items |
| ProductCatalog.CreateRefusal | backend/src/controllers/productControllers.js:57-68 | `createProduct` refuses unless the category is present, is a valid object id, and exists |
| ProductCatalog.UpdateRefusal | backend/src/controllers/productControllers.js:106-119 | `updateProduct` checks the category only when it is truthy, and then as `createProduct` does |
| ProductCatalog.IndexOfId | backend/src/controllers/productControllers.js:121-140 | the index found is the first product with that id; when nothing is found, no product has it |
| ProductCatalog.Limit | backend/src/controllers/productControllers.js:172 | the limit is never 0 |
| ProductCatalog.SoldProducts | backend/src/controllers/productControllers.js:176-181 | the grouped product ids hold no repeats |
| ProductCatalog.AttachProducts | backend/src/controllers/productControllers.js:210-221 | the join gives no more entries than there are ranked ids |
| ProductCatalog.FillSoldMap | backend/src/controllers/productControllers.js:199-202 | the `forEach` fills the map that SoldMap specifies |
| ProductCatalog.ProductStore.constructor | backend/src/controllers/productControllers.js:43-82 | the store starts with no products and the given categories |
| ProductCatalog.ProductStore.CreateProduct | backend/src/controllers/productControllers.js:43-82 | a refused category gives 400 and creates nothing; otherwise the product is appended, with the body's fields, `averageRating` included |
| ProductCatalog.ProductStore.UpdateProduct | backend/src/controllers/productControllers.js:92-142 | a refused category gives 400 and an unknown id gives 404, both changing nothing; otherwise the first product with the id is replaced by its update |
| ProductCatalog.ProductStore.BestSellers | backend/src/controllers/productControllers.js:170-223 | the answer is the one BestSellersResult specifies |
| ProductCatalog.UpdateLaws | backend/src/controllers/productControllers.js:121-135 | an empty body leaves a product as it was, updating twice is the same as once, and a given `averageRating` is copied |
| ProductCatalog.CategoryChecks | backend/src/controllers/productControllers.js:57-61 | a missing, empty or malformed category is refused on create; on update an empty one is not refused |
| ProductCatalog.LimitCases | backend/src/controllers/productControllers.js:172 | an absent or unreadable limit, or 0, becomes 20; a number is read as itself |
| ProductCatalog.LimitFallbacks | backend/src/controllers/productControllers.js:172 | an absent limit, an empty one and one that is not a number all become 20 |
| ProductCatalog.BySoldIsOrder | backend/src/controllers/productControllers.js:182 | sorting on descending `totalSold` is a total, transitive ranking |
| ProductCatalog.ByRatingIsOrder | backend/src/controllers/productControllers.js:190 | sorting on descending rating and then newest is a total, transitive ranking |
| ProductCatalog.SoldProductsSpec | backend/src/controllers/productControllers.js:176-181 | the grouped products are exactly the products that occur in the items |
| ProductCatalog.GroupedSpec | backend/src/controllers/productControllers.js:176-181 | each group is a product's summed quantity; every sold product has exactly one group |
| ProductCatalog.SoldDataOrdered | backend/src/controllers/productControllers.js:182-183 | the aggregation has at most `limit` entries, in descending `totalSold` |
| ProductCatalog.SoldDataEntries | backend/src/controllers/productControllers.js:175-184 | each aggregated entry carries its product's summed quantity, and no product appears twice |
| ProductCatalog.SoldDataTop | backend/src/controllers/productControllers.js:182-183 | every product that the limit cuts off sold no more than any product kept |
| ProductCatalog.SoldDataEmpty | backend/src/controllers/productControllers.js:175-187 | with at least one slot, the aggregation is empty exactly when there are no order items |
| ProductCatalog.SoldMapSpec | backend/src/controllers/productControllers.js:199-202 | the map sends each ranked product to its count, and its keys are the ranked ids |
| ProductCatalog.AttachEntries | backend/src/controllers/productControllers.js:210-221 | each joined entry is a fetched product whose id was ranked, carrying that id's count |
| ProductCatalog.AttachIds | backend/src/controllers/productControllers.js:210-221 | the join keeps, in ranking order, exactly the ranked ids that have a fetched product |
| ProductCatalog.AttachSorted | backend/src/controllers/productControllers.js:210-221 | ranked ids in descending count give joined entries in descending `totalSold` |
| ProductCatalog.FetchedIffStocked | backend/src/controllers/productControllers.js:204-215 | a ranked id is found among the fetched products exactly when the store holds it |
| ProductCatalog.BestSellersRanked | backend/src/controllers/productControllers.js:175-221 | with sales on record, the answer lists at most `limit` stored products, in descending `totalSold`, each with its summed quantity; it drops exactly the ranked ids with no stored product |
| ProductCatalog.BestSellersFallback | backend/src/controllers/productControllers.js:186-195 | with no sales, the answer is the stored products by rating and then newest, capped at the limit, each with 0 sold |
| ProductCatalog.BestSellersNegativeLimit | backend/src/controllers/productControllers.js:172-184 | a limit that reads as a negative number makes the `$limit` stage fail with the 500 answer |
| Sorting.Insert | backend/src/controllers/productControllers.js:182 | insertion adds exactly one element and keeps the others |
| Sorting.Sort | backend/src/controllers/productControllers.js:182 | sorting gives a permutation of its input |
| Sorting.Take | backend/src/controllers/productControllers.js:183 | `$limit` keeps the first n elements, or all of them when there are fewer |
| Sorting.InsertSorted | backend/src/controllers/productControllers.js:182 | inserting into a sorted sequence keeps it sorted |
| Sorting.SortSorted | backend/src/controllers/productControllers.js:182 | for a total, transitive ranking, the sort puts the elements in ranking order |
| Sorting.TakeKeepsTop | backend/src/controllers/productControllers.js:183 | every element kept by the limit ranks at least as high as every element it drops |
| UserSchema.ValidationErrors | backend/src/models/User.js:5-48 | a path has an error iff its validator fails, and only the five validated paths can have one |
| UserSchema.Build | backend/src/models/User.js:44-48 | a new document always has a role, "user" when none is given; a given password counts as modified |
| UserSchema.Collect | backend/src/models/User.js:5-48 | a path is in the error map iff its validator gave an error, and nothing else is |
| UserSchema.UserDocument.constructor | backend/src/models/User.js:5-48 | a new document holds the input through the schema's setters and defaults |
| UserSchema.UserDocument.SetPassword | backend/src/models/User.js:27-32 | assigning a password stores it and marks it modified when it differs from the stored value; a path already modified stays modified |
| UserSchema.UserDocument.SetEmail | backend/src/models/User.js:19-26 | an assigned email passes through the trim setter and then the lower-case one |
| UserSchema.UserDocument.PreValidate | backend/src/models/User.js:53-58 | the hook defaults the name and changes nothing else |
| UserSchema.UserDocument.Save | backend/src/models/User.js:53-66 | `save()` gives the errors and the new document that SaveState specifies |
| UserSchema.NameDefault | backend/src/models/User.js:53-58 | a truthy name is kept; an absent or empty one takes a truthy username; the name stays falsy iff both were |
| UserSchema.DefaultedNameValid | backend/src/models/User.js:10-17 | a username that passes its validators also passes as the defaulted name |
| UserSchema.EmailSetterLaws | backend/src/models/User.js:23-24 | the email setters are idempotent, and lower-casing before trimming gives the same result |
| UserSchema.ToLowerIdempotent | backend/src/models/User.js:24 | lower-casing twice is the same as once |
| UserSchema.LowerAccepted | backend/src/models/User.js:24-25 | lower-casing an address neither makes nor breaks the schema's pattern: a string matches after lower-casing iff it matched before |
| UserSchema.PaddedEmailAccepted | backend/src/models/User.js:23-25 | any address the schema's pattern accepts, padded with any white space on either side and in any case, is stored trimmed and lower-cased and passes the validator, since the setters run first |
| UserSchema.DefaultRoleValid | backend/src/models/User.js:44-48 | a document built without a role passes the role validator |
| UserSchema.RejectedSaveKeepsPassword | backend/src/models/User.js:53-66 | a rejected save changes nothing except the name default; the password and its modified flag stay |
| UserSchema.SaveHashesIffModified | backend/src/models/User.js:60-66 | a successful save hashes the password iff it was modified, and clears the flag |
| UserSchema.SaveIdempotent | backend/src/models/User.js:60-66 | saving a saved document again succeeds and changes nothing; a password is never hashed twice |
| JsStrings.Trim | backend/src/models/User.js:9 | the result is empty iff the input is all white space; it neither starts nor ends with white space |
| JsStrings.TrimStart | backend/src/models/User.js:9 | only leading white space is dropped, and the result does not start with white space |
| JsStrings.TrimEnd | backend/src/models/User.js:9 | only trailing white space is dropped, and the result does not end with white space |
| JsStrings.TrimIdempotent | backend/src/models/User.js:9 | trimming twice is the same as once |
| JsStrings.ToLower | backend/src/models/User.js:24 | lower-casing keeps the length and maps each character on its own |
| JsStrings.NonEmpty | frontend/pages/Detail-card/Detailcard.jsx:49-54 | `filter(Boolean)` keeps exactly the non-empty entries, and adds none |
| JsStrings.TrimAll | frontend/pages/admin/ProductManagement.jsx:68-69 | `map(x => x.trim())` trims every entry, in place |
| JsStrings.NatToString | frontend/pages/admin/ProductManagement.jsx:96 | a whole number prints as a non-empty string of digits |
| JsStrings.TrimLowerCommute | backend/src/models/User.js:23-24 | trimming and ASCII lower-casing commute |
| JsStrings.SplitOn | frontend/pages/admin/ProductManagement.jsx:68-69 | `split(',')` gives at least one piece, no piece holds the separator, and joining the pieces gives the input back |
| JsStrings.SplitOnJoin | frontend/pages/admin/ProductManagement.jsx:68 | splitting a join gives the pieces back when none holds the separator |
| JsStrings.SplitSizeRuns | frontend/pages/Detail-card/Detailcard.jsx:53 | `split(/[,\s]+/)` gives at least one piece, and no piece holds a comma or white space |
| JsStrings.SplitSizeRunsCover | frontend/pages/Detail-card/Detailcard.jsx:53 | the pieces together are the input with every comma and white space removed, so no character is lost |
| JsStrings.SplitSizeRunsInterleave | frontend/pages/Detail-card/Detailcard.jsx:53 | the cuts fall exactly at the maximal runs of commas and white space: separator-free pieces joined by such runs split back into those pieces, with an empty first or last piece when the text starts or ends with a run |
| JsStrings.ParseIntOfNatToString | frontend/pages/admin/ProductManagement.jsx:67 | `parseInt` reads back any printed whole number |
| JsStrings.ParseIntOfDigits | frontend/pages/admin/ProductManagement.jsx:67 | `parseInt` of a string of digits is the number those digits spell |
| Patterns.StrictIsSchema | frontend/pages/auth/AuthPage.jsx:40 | every address the strict pattern accepts passes the schema pattern |
| Patterns.SchemaIsLoose | frontend/pages/LoginPage.jsx:39 | every address the schema pattern accepts passes the unanchored pattern |
| Patterns.SchemaNotStrict | frontend/pages/auth/AuthPage.jsx:40 | a second `@` passes the schema pattern but not the strict one |
| Patterns.LooseInContext | frontend/pages/LoginPage.jsx:39 | the unanchored pattern still matches an address with any text before and after it |
| Patterns.SchemaRejectsPrefix | backend/src/models/User.js:23-25 | the anchored schema pattern refuses any word, a space and an address, even after its lower-casing and trimming |
| Patterns.PaddedNotStrict | frontend/pages/auth/AuthPage.jsx:40 | white space at either end makes the strict pattern fail |
| Forms.Edit | frontend/pages/auth/AuthPage.jsx:46-49 | the edited field takes the value and every other field keeps its own |
| Forms.ClearOnlyThatField | frontend/pages/auth/AuthPage.jsx:52-57 | typing clears the error of the field typed into and leaves every other error as it was |
| AuthContext.AuthProvider.constructor | frontend/src/context/AuthContext.jsx:7-9 | the provider starts loading, with no user and not authenticated, over the saved storage |
| AuthContext.AuthProvider.InitAuth | frontend/src/context/AuthContext.jsx:13-30 | mounting gives the state that InitState specifies |
| AuthContext.AuthProvider.Answer | frontend/src/context/AuthContext.jsx:42-60 | the state after an answer and the result returned to the page, as AfterAnswer and ResultOf specify |
| AuthContext.AuthProvider.Login | frontend/src/context/AuthContext.jsx:36-61 | `login` updates the state by its answer and returns its result with the login fallback |
| AuthContext.AuthProvider.Register | frontend/src/context/AuthContext.jsx:64-89 | `register` posts its body, updates the state by its answer, and returns its result with the sign-up fallback |
| AuthContext.AuthProvider.Logout | frontend/src/context/AuthContext.jsx:92-97 | signing out gives the state that LogoutState specifies |
| AuthContext.InitAuthenticatesIff | frontend/src/context/AuthContext.jsx:14-29 | the session is authenticated after mount iff both keys are set and the saved user parses, and then it holds that user; loading ends on every branch |
| AuthContext.InitDropsUnparseable | frontend/src/context/AuthContext.jsx:22-27 | a saved user that does not parse removes both keys, keeps every other key, and leaves the session signed out |
| AuthContext.SuccessSignsIn | frontend/src/context/AuthContext.jsx:42-52 | a successful answer stores the token and the serialised user and signs the user in; the page gets success and the server's message |
| AuthContext.FailureChangesNothing | frontend/src/context/AuthContext.jsx:53-60 | a failed or thrown request changes neither storage nor state; the page gets failure with the server's message, or the fallback |
| AuthContext.LogoutLaws | frontend/src/context/AuthContext.jsx:92-97 | signing out removes both keys and clears the session from any state; doing it twice is the same as once |
| AuthContext.LogoutThenReload | frontend/src/context/AuthContext.jsx:14-29 | after signing out, a reload starts signed out |
| AuthContext.SignInSurvivesReload | frontend/src/context/AuthContext.jsx:14-21 | when parsing undoes serialising, a stored sign-in is restored by a reload |
| AuthPage.SignUpNameAsUsername | frontend/pages/auth/AuthPage.jsx:138-142 | the typed name is posted as `username`; of the names the page accepts (2 or more characters once trimmed), the user schema keeps exactly those of 3 to 30 trimmed characters, so a two-character name passes the page and is refused with "Username must be at least 3 characters" |
| AuthPage.LoginErrors | frontend/pages/auth/AuthPage.jsx:84-96 | the login error map has an entry for a field iff that field's check fails, and no other entries |
| AuthPage.RegisterErrors | frontend/pages/auth/AuthPage.jsx:136-160 | the sign-up error map has an entry for a field iff that field's check fails, and no other entries |
| AuthPage.FourErrors | frontend/pages/auth/AuthPage.jsx:136-160 | the map holds an entry for exactly the fields whose check gave a message |
| AuthPage.AuthPageState.constructor | frontend/pages/auth/AuthPage.jsx:10-36 | the page starts on the sign-up form iff the path is `/register`, with every field and error empty |
| AuthPage.AuthPageState.LoginChange | frontend/pages/auth/AuthPage.jsx:44-58 | typing writes the value and clears that field's login error; everything else stays |
| AuthPage.AuthPageState.RegisterChange | frontend/pages/auth/AuthPage.jsx:60-74 | typing writes the value and clears that field's sign-up error; everything else stays |
| AuthPage.AuthPageState.LoginSubmit | frontend/pages/auth/AuthPage.jsx:76-126 | the submit does nothing while loading or navigating; it refuses a failing form with its errors; otherwise it calls `login` with the typed values and shows the answer's toast, staying in the loading state only on success |
| AuthPage.AuthPageState.RegisterSubmit | frontend/pages/auth/AuthPage.jsx:128-202 | the sign-up submit changes the page as RegisterStep specifies |
| AuthPage.AuthPageState.RegisterAnswered | frontend/pages/auth/AuthPage.jsx:176-201 | the sign-up page after `register` answers, as RegisterAnswer specifies |
| AuthPage.EmailRules | frontend/pages/auth/AuthPage.jsx:86-90 | only a blank email is "empty"; a non-blank one is accepted iff it passes `validateEmail` |
| AuthPage.PaddedEmailRefused | frontend/pages/auth/AuthPage.jsx:86-90 | the untrimmed value is checked, so a valid address with a leading space is refused as invalid |
| AuthPage.PasswordRule | frontend/pages/auth/AuthPage.jsx:92-96 | a password is accepted iff it has at least 6 characters |
| AuthPage.NameRule | frontend/pages/auth/AuthPage.jsx:138-142 | a name is accepted iff its trimmed length is at least 2 |
| AuthPage.PhoneRule | frontend/pages/auth/AuthPage.jsx:150-154 | a phone is accepted iff it is 10 or 11 digits as typed; a padded one is refused as invalid |
| AuthPage.LoginAcceptedIff | frontend/pages/auth/AuthPage.jsx:98-102 | the login form is accepted iff both of its fields pass |
| AuthPage.RegisterAcceptedIff | frontend/pages/auth/AuthPage.jsx:162-166 | the sign-up form is accepted iff all four of its fields pass |
| AuthPage.RegisterStepLaws | frontend/pages/auth/AuthPage.jsx:128-202 | `register` is called, with the typed values, iff no submit or navigation is under way and all four fields pass; a refused form keeps its data and shows its errors; only a successful call empties the form or shows a success toast |
| LoginPage.Validate | frontend/pages/LoginPage.jsx:34-51 | the error map has an entry for a field iff that field's check fails, and no other entries |
| LoginPage.LoginPageState.constructor | frontend/pages/LoginPage.jsx:9-15 | the page starts with empty fields and no errors |
| LoginPage.LoginPageState.Change | frontend/pages/LoginPage.jsx:17-32 | typing writes the value, clears that field's error, and clears any submit error |
| LoginPage.LoginPageState.Submit | frontend/pages/LoginPage.jsx:53-71 | `login` is called iff the form passes; the page navigates iff the call succeeds; a failure shows the result's message, or the fallback |
| LoginPage.ValidateIff | frontend/pages/LoginPage.jsx:49-50 | the form is accepted iff both fields pass |
| LoginPage.LooseAccepted | frontend/pages/LoginPage.jsx:37-41 | whatever the unanchored pattern finds is accepted |
| LoginPage.AcceptsTextAround | frontend/pages/LoginPage.jsx:39 | any text around an address the loose pattern finds is accepted as an email |
| LoginPage.StrictAccepted | frontend/pages/LoginPage.jsx:37-41 | every address the strict pattern accepts is accepted here too |
| RegisterPage.Validate | frontend/pages/RegisterPage.jsx:33-64 | the error map has an entry for a field iff that field's check fails, and no other entries |
| RegisterPage.RegisterPageState.constructor | frontend/pages/RegisterPage.jsx:9-16 | the page starts with empty fields, no errors and not loading |
| RegisterPage.RegisterPageState.Change | frontend/pages/RegisterPage.jsx:18-31 | typing writes the value and clears that field's error only |
| RegisterPage.RegisterPageState.Submit | frontend/pages/RegisterPage.jsx:66-84 | a body is posted iff the form passes, and it is the as-written body, with the password in the phone's place; the page navigates iff the call succeeds |
| RegisterPage.RegisterPageState.SubmitIntended | frontend/pages/RegisterPage.jsx:66-84 | with the intended call, the same submit posts the typed password as the password and no phone |
| RegisterPage.ValidateIff | frontend/pages/RegisterPage.jsx:36-63 | the form is accepted iff the username, email, password and confirmation all pass |
| RegisterPage.AcceptedPassword | frontend/pages/RegisterPage.jsx:50-60 | an accepted form has a password of at least 6 characters, equal to its confirmation |
| RegisterPage.AsWrittenLosesPassword | frontend/pages/RegisterPage.jsx:74-78 | as written, the call posts no password and sends the password as the phone, and the user schema refuses the record |
| RegisterPage.IntendedPostsPassword | frontend/pages/RegisterPage.jsx:74-78 | with the intended call, an accepted form posts its own password, which passes the user schema |
| DetailCard.StringsOf | frontend/pages/Detail-card/Detailcard.jsx:49 | each element becomes its string, or the empty string when it is not one |
| DetailCard.DetailCardPage.constructor | frontend/pages/Detail-card/Detailcard.jsx:16-17 | the page starts with no size selected, quantity 1 and no cart call |
| DetailCard.NormalizeSizes | frontend/pages/Detail-card/Detailcard.jsx:45-56 | a falsy input, or one that is neither an array nor a string, gives no sizes |
| DetailCard.DetailCardPage.ClickSize | frontend/pages/Detail-card/Detailcard.jsx:188 | a click toggles the selection |
| DetailCard.DetailCardPage.AddToCartClick | frontend/pages/Detail-card/Detailcard.jsx:58-70 | the item is added iff a non-blank size is selected; the page changes as AddToCart specifies |
| DetailCard.DetailCardPage.BuyNowClick | frontend/pages/Detail-card/Detailcard.jsx:72-80 | the page moves on iff a non-blank size is selected; the page changes as BuyNow specifies |
| DetailCard.ArrayInOrder | frontend/pages/Detail-card/Detailcard.jsx:47-51 | for arrays, normalising a concatenation concatenates the results, so input order is kept |
| DetailCard.ArrayElement | frontend/pages/Detail-card/Detailcard.jsx:47-51 | one element gives its trimmed value when it is a string that does not trim to empty, and nothing otherwise |
| DetailCard.ArrayMembers | frontend/pages/Detail-card/Detailcard.jsx:47-51 | a size is listed iff it is non-empty and some string element trims to it |
| DetailCard.StringPieces | frontend/pages/Detail-card/Detailcard.jsx:52-54 | for a string, every size is non-empty and holds no comma or white space, and the sizes together are the input without its separators |
| DetailCard.StringOfSizes | frontend/pages/Detail-card/Detailcard.jsx:52-54 | sizes written with a run of commas or white space of any length between each two come back one by one, in order |
| DetailCard.StringSizes | frontend/pages/Detail-card/Detailcard.jsx:52-54 | a string's sizes are the non-empty pieces of its split, untouched by the trim |
| DetailCard.NormalizedClean | frontend/pages/Detail-card/Detailcard.jsx:45-56 | no output entry is empty or changed by a trim, whatever the input |
| DetailCard.CleanFixed | frontend/pages/Detail-card/Detailcard.jsx:47-51 | a list of clean sizes passed back in as an array comes out unchanged |
| DetailCard.NormalizeIdempotent | frontend/pages/Detail-card/Detailcard.jsx:45-56 | `normalizeSizes` is idempotent on its own output |
| DetailCard.ToggleLaws | frontend/pages/Detail-card/Detailcard.jsx:188 | clicking a size twice from no selection deselects it again; clicking never touches the cart |
| DetailCard.RefusedWithoutSize | frontend/pages/Detail-card/Detailcard.jsx:61-64 | without a size, neither button touches the cart or the page |
| DetailCard.AddedWithSize | frontend/pages/Detail-card/Detailcard.jsx:67-78 | with a size, "add to cart" records one call of quantity 1 and clears the size, and "buy now" records one call of the chosen quantity |
| DetailCard.BuyNowFromFreshPage | frontend/pages/Detail-card/Detailcard.jsx:17 | the page never changes its quantity, so "buy now" from a fresh page adds one item |
| QuickView.NonBlank | frontend/src/components/QuickViewModal.jsx:20 | the filter keeps exactly the non-blank pieces |
| QuickView.Decrement | frontend/src/components/QuickViewModal.jsx:183 | the minus button never goes below 1 and otherwise subtracts 1 |
| QuickView.QuickViewModal.constructor | frontend/src/components/QuickViewModal.jsx:10-11 | the modal starts on size `XS` with quantity 1 |
| QuickView.QuickViewModal.ClickSize | frontend/src/components/QuickViewModal.jsx:167 | a click selects that size |
| QuickView.QuickViewModal.Minus | frontend/src/components/QuickViewModal.jsx:183 | the stepper takes its decremented value |
| QuickView.QuickViewModal.Plus | frontend/src/components/QuickViewModal.jsx:195 | the stepper takes its incremented value |
| QuickView.QuickViewModal.ClickAddToCart | frontend/src/components/QuickViewModal.jsx:33-39 | the modal changes as AddToCart specifies |
| QuickView.NonBlankPieces | frontend/src/components/QuickViewModal.jsx:20 | on separator-free pieces, the non-blank filter drops exactly the empty ones |
| QuickView.SameSizesAsDetailPage | frontend/src/components/QuickViewModal.jsx:19-21 | the modal lists the same sizes as the product page does for a string field |
| QuickView.AvailableSizesPieces | frontend/src/components/QuickViewModal.jsx:19-21 | its sizes are non-empty and separator-free, and together they are the field without its separators |
| QuickView.AvailableSizesOfSizes | frontend/src/components/QuickViewModal.jsx:19-21 | sizes written with a run of commas or white space between each two come back one by one, in order |
| QuickView.StepperLaws | frontend/src/components/QuickViewModal.jsx:183-195 | the stepper shows at least 1, and plus then minus gives back any value of at least 1 |
| QuickView.StepperStaysPositive | frontend/src/components/QuickViewModal.jsx:183-195 | from at least 1, any sequence of clicks keeps the stepper at least 1 |
| QuickView.AddToCartLaws | frontend/src/components/QuickViewModal.jsx:23-39 | the button works iff the stock is positive, adding one item of the selected size, whatever the stepper shows, and closing the modal; out of stock nothing changes |
| QuickView.DefaultSizeAdded | frontend/src/components/QuickViewModal.jsx:10-36 | without a size click, the size added is the default `XS` |
| UserManagement.Without | frontend/pages/admin/UserManagement.jsx:160 | the filter removes the id and keeps every other id |
| UserManagement.ToggleRole | frontend/pages/admin/UserManagement.jsx:157-164 | the toggled id is present afterwards iff it was absent; every other id is kept |
| UserManagement.DataOf | frontend/pages/admin/UserManagement.jsx:107-117 | the payload carries the password iff one was typed |
| UserManagement.UserManagementPage.constructor | frontend/pages/admin/UserManagement.jsx:13-26 | the page starts with an empty form, no user being edited and the modal closed |
| UserManagement.UserManagementPage.OpenAdd | frontend/pages/admin/UserManagement.jsx:60-72 | the add modal opens with an empty form and no user being edited |
| UserManagement.UserManagementPage.OpenEdit | frontend/pages/admin/UserManagement.jsx:74-86 | the edit modal opens with the user's prefilled form |
| UserManagement.UserManagementPage.RoleChange | frontend/pages/admin/UserManagement.jsx:157-164 | a click toggles that role id and changes nothing else |
| UserManagement.UserManagementPage.HandleSubmit | frontend/pages/admin/UserManagement.jsx:93-143 | the calls made and the new state are the ones Submit specifies |
| UserManagement.ToggleTwice | frontend/pages/admin/UserManagement.jsx:157-164 | ticking the same role twice gives back the same set of roles |
| UserManagement.ToggleNewTwice | frontend/pages/admin/UserManagement.jsx:157-164 | ticking a new id and then unticking it gives back the very same list |
| UserManagement.RoleNamesLaws | frontend/pages/admin/UserManagement.jsx:166-169 | the column shows "User" without roles and the single name for one role; for several, names with no comma or outer white space can be read back by splitting |
| UserManagement.MissingFieldRefused | frontend/pages/admin/UserManagement.jsx:96-99 | an empty username, name or email refuses the submit, and no call is made |
| UserManagement.PasswordRules | frontend/pages/admin/UserManagement.jsx:101-117 | a new user needs a password and an edit does not; the password is sent iff one was typed |
| UserManagement.RolesAssigned | frontend/pages/admin/UserManagement.jsx:119-132 | roles are assigned iff some are ticked and, for a create, the new user has an id; the edited user's id or that new id is used; the first call is an update iff a user is being edited |
| UserManagement.PrefillLaws | frontend/pages/admin/UserManagement.jsx:74-85 | the edit form copies the user's role ids in order and leaves the password blank, so an unchanged submit keeps the stored password |
| UserManagement.ModalClosesIff | frontend/pages/admin/UserManagement.jsx:93-142 | the modal closes iff the submit passes its checks and no call throws; the form is kept |
| ProductForm.SplitList | frontend/pages/admin/ProductManagement.jsx:68-69 | the split gives at least one entry, and every entry is trimmed and holds no comma |
| ProductForm.Prefill | frontend/pages/admin/ProductManagement.jsx:89-99 | the edit form shows the joined lists and the printed price and stock |
| ProductForm.RequestOf | frontend/pages/admin/ProductManagement.jsx:72-78 | the submit updates iff a product is being edited, and sends the parsed form |
| ProductForm.ProductManagementPage.constructor | frontend/pages/admin/ProductManagement.jsx:14-24 | the page starts with an empty form, no product being edited and the modal closed |
| ProductForm.ProductManagementPage.Edit | frontend/pages/admin/ProductManagement.jsx:89-101 | opening a product for editing gives the state OpenEdit specifies |
| ProductForm.ProductManagementPage.ResetForm | frontend/pages/admin/ProductManagement.jsx:116-127 | the reset gives the state Reset specifies |
| ProductForm.ProductManagementPage.Submit | frontend/pages/admin/ProductManagement.jsx:61-87 | the request sent is RequestOf's, and the new state is AfterSubmit's |
| ProductForm.EmptyFieldIsOneEmptyEntry | frontend/pages/admin/ProductManagement.jsx:68-69 | an empty field is sent as a list of one empty string |
| ProductForm.SplitJoinRoundTrip | frontend/pages/admin/ProductManagement.jsx:68-98 | splitting the joined text gives the list back when it is non-empty and no entry holds a comma or has white space at an end |
| ProductForm.EmptyListDoesNotRoundTrip | frontend/pages/admin/ProductManagement.jsx:68-98 | an empty list comes back as one empty entry |
| ProductForm.EditUnchangedKeepsLists | frontend/pages/admin/ProductManagement.jsx:68-98 | opening a product with clean lists and submitting unchanged sends the same lists back, as an update of that product |
| ProductForm.EditUnchangedKeepsStock | frontend/pages/admin/ProductManagement.jsx:67-96 | opening a product and submitting unchanged sends its stock back when it is not negative |
| ProductForm.SubmitOutcome | frontend/pages/admin/ProductManagement.jsx:80-86 | a successful submit empties every field and forgets the product being edited; a failed one leaves the form as it was |
| Payment.PaymentPage.CouponChange | frontend/pages/payment/Payment.jsx:350-351 | typing a code stores it and changes nothing else, the discount included, until the button is clicked |
| Payment.PaymentPage.constructor | frontend/pages/payment/Payment.jsx:10-21 | the page starts with an empty form, no code, and no discount |
| Payment.PaymentPage.InputChange | frontend/pages/payment/Payment.jsx:33-39 | typing writes that field and changes nothing else |
| Payment.PaymentPage.ApplyCouponClick | frontend/pages/payment/Payment.jsx:41-47 | the click gives the state ApplyCoupon specifies |
| Payment.PaymentPage.Submit | frontend/pages/payment/Payment.jsx:49-69 | an order is placed iff the four required fields are filled; the state changes as PlaceOrder specifies |
| Payment.TotalCanBeNegative | frontend/pages/payment/Payment.jsx:71-72 | nothing clamps the total: once a coupon is applied, the amount shown is negative exactly when the subtotal is below the 50000 discount |
| Payment.CouponLaws | frontend/pages/payment/Payment.jsx:41-47 | a non-empty code sets the discount to 50000 and an empty one changes nothing; applying twice is the same as once |
| Payment.DiscountStaysValid | frontend/pages/payment/Payment.jsx:11-68 | every step of the page keeps the discount at 0 or 50000 |
| Payment.TotalOfValidDiscount | frontend/pages/payment/Payment.jsx:71-72 | the total is therefore the subtotal or 50000 less |
| Payment.PlaceOrderLaws | frontend/pages/payment/Payment.jsx:53-68 | an order missing its email, name, phone or address is refused and the cart kept; a complete one clears the cart, and the empty state follows |
| Payment.FreshFormIncomplete | frontend/pages/payment/Payment.jsx:12-21 | the fresh form is never complete |
| ManagerDashboard.MonthNameLaws | frontend/pages/manager/ManagerDashboard.jsx:70-73 | a month in 1..12 gets its own three-letter name and any other number gets none |
| ManagerDashboard.StatusColorLaws | frontend/pages/manager/ManagerDashboard.jsx:75-84 | each of the five statuses gets its own badge class and anything else the gray one |
| ManagerDashboard.StatusTextLaws | frontend/pages/manager/ManagerDashboard.jsx:86-95 | a known status is shown capitalised and lower-cases back to itself; an unknown one is shown as it is |
| ManagerDashboard.ChartColorLaws | frontend/pages/manager/ManagerDashboard.jsx:106-115 | each known status gets its own chart colour and anything else `#6b7280` |
| ManagerDashboard.RevenueLabelOfMonth | frontend/pages/manager/ManagerDashboard.jsx:98-100 | a revenue label is the month name, a space and the year |
| ManagerDashboard.ChartsParallel | frontend/pages/manager/ManagerDashboard.jsx:98-115 | without data every series is empty; with data there is one revenue point per month entry, labelled with its month and year and valued at its revenue, and one status slice per status entry, in order, with its label, count and colour |
| VnpayReturn.BuildParams | frontend/pages/payment/VnpayReturn.jsx:5-12 | the loop fills the object that ParamsOf specifies |
| VnpayReturn.VnpayReturnPage.constructor | frontend/pages/payment/VnpayReturn.jsx:19-23 | the page starts loading, with no error and no answer |
| VnpayReturn.VnpayReturnPage.Effect | frontend/pages/payment/VnpayReturn.jsx:25-37 | the mount effect gives the state and the call that Mount specifies |
| VnpayReturn.VnpayReturnPage.Answered | frontend/pages/payment/VnpayReturn.jsx:38-47 | the page state once the call answers, as Resolve specifies |
| VnpayReturn.ParamsKeys | frontend/pages/payment/VnpayReturn.jsx:5-12 | the object's keys are exactly the parameters' keys |
| VnpayReturn.LastValueWins | frontend/pages/payment/VnpayReturn.jsx:8-10 | for a key given more than once, the last value wins |
| VnpayReturn.MountLaws | frontend/pages/payment/VnpayReturn.jsx:26-37 | without parameters the page stops with the missing-parameter error and makes no call; with some, it calls with them and keeps loading |
| VnpayReturn.FailureShowsError | frontend/pages/payment/VnpayReturn.jsx:42-46 | a failed call shows an error: the server's message when it is a non-empty string, the fallback otherwise |
| VnpayReturn.SuccessIff | frontend/pages/payment/VnpayReturn.jsx:54 | the payment succeeded iff the answer is both verified and successful |
| VnpayReturn.TitleAndLink | frontend/pages/payment/VnpayReturn.jsx:55-112 | the title is chosen by loading, then a truthy error, then success; the link goes to `/order` iff the payment succeeded |
| VnpayReturn.AnsweredTitleMatchesLink | frontend/pages/payment/VnpayReturn.jsx:54-112 | once answered, the success title and the orders link go together |

## Left out

- The Mongoose, MongoDB and HTTP plumbing is not modelled.
  - The database is a set of in-memory collections.
  - `res.status().json()` becomes a response value.
  - The catch-all 500 branches are modelled only where the model can reach them: a rejected order save, and a negative best-seller limit.
  - Cast errors on malformed ids, unique indexes, `populate` and `timestamps` are left out.
- The item replacement in `updateOrder` is modelled as its two steps in sequence. All-or-nothing behaviour is not claimed, because there is no transaction.
- ProductCatalog.UpdateRefusal: an empty `category` in an update body skips the check and is written to the product as it is. The database would refuse it as a malformed id, and that refusal is not modelled.
- bcrypt is an opaque function passed to `save`. `comparePassword` is not modelled.
- Lengths count Unicode characters, not UTF-16 code units. JavaScript's `length` and Mongoose's `minlength`/`maxlength` count a character outside the Basic Multilingual Plane twice; the model counts it once. So a username of two emoji (length 4 in JavaScript) is refused by the model and accepted by the source. This applies to the members below.
  - UserSchema.UsernameError, UserSchema.NameError and UserSchema.PasswordError: the schema's length bounds.
  - AuthPage.PasswordError and AuthPage.NameError: the sign-in page's length checks.
  - LoginPage.PasswordError: the login page's length check, which RegisterPage also uses.
  - RegisterPage.UsernameError: the sign-up page's 3..30 check.
- Lower-casing is ASCII only. `toLowerCase`'s Unicode mapping is not modelled.
- `server.js` is not part of this model. This includes the outer `requireAdmin` it mounts in front of the routers; only the route-level gates are modelled.
- `getMyOrders` is imported by the order router (backend/src/routes/orderRoutes.js:2-9) but is not exported by backend/src/controllers/orderControllers.js, whose exports are at lines 9, 19, 33, 69 and 119.
  - Under ES modules that import is a link error, so as written the order router, and the server that imports it, never load.
  - Routes.MyOrdersFirst, Routes.OrderGates and the dispatch lemmas over the order table describe the table as declared: what it does once the export exists. There is no handler for `GET /my` to model.
- `reviewControllers.js`, `aiRecommendationControllers.js`, their routes and `seedAdmin.js` are plain CRUD or setup, and are not part of this model.
- `Order.js` declares no contact, shipping or payment fields, and `User.js` declares no `roles` field. The model keeps those fields as the handlers use them and proves nothing about whether they persist. The attached roles are an input to the gate.
- Floating point is left out. Prices, quantities and the limit are integers. `parseFloat` of a price is not modelled; the price is sent as typed.
- `NaN` is left out, and `Intl.NumberFormat` formatting and star rendering are not modelled.
- Sorting.Sort: ties in the database sort are broken by input order. The database does not promise an order for ties, and no lemma depends on it.
- JSX rendering, toasts (except where a handler's outcome is only a toast), navigation, `console` logging and chart.js setup are left out.
- The `setTimeout` delays of the sign-in page are left out. This includes the delayed switch back to the sign-in form after a sign-up.
- VnpayReturn.VnpayReturnPage.Effect: the `isActive` cancellation flag of the effect is left out. `URLSearchParams` decoding is not modelled either; the page is given the decoded parameters as a list.
- AuthContext.InitState: the saved user is taken either to parse to a user object or to fail. A saved `"null"` parses in the source to a null user with the session still marked authenticated; that case is not modelled.
- UserManagement.Prefill: the user's `address` is treated as text. The user schema declares it as an object of five strings, which the form's prefill would put into a text field; that mismatch is not modelled.
- Object keys are plain strings. Keys inherited from `Object.prototype` are not modelled.
- QuickView: a `size` field that is truthy but not a string makes `split` throw in the source. The model takes the field to be a string or absent.
- The cart context is not part of this model. The product pages record their `addToCart` calls, and the checkout page takes the cart's items and subtotal as inputs.
- ProductForm.Prefill: a populated category is assumed to have an `_id`. A populated category with a falsy `_id` would fall back to the object itself; that case is left out.
- The admin dashboard with mock data, the cart display, the home page, the app router and the axios wrappers in `api.js` are not part of this model.
- frontend/src/services/api.js has no `vnpayAPI.verifyReturn`; its `vnpayAPI` (line 134) offers only `create`.
  - As written, the call at frontend/pages/payment/VnpayReturn.jsx:36-37 throws a TypeError, so the return page never gets an answer.
  - VnpayReturn.VnpayReturnPage.Answered, VnpayReturn.Resolve and the lemmas about them describe the page as it would be with that endpoint.
- frontend/src/services/api.js exports no `userAPI`, `roleAPI` or `statsAPI`, which frontend/pages/admin/UserManagement.jsx:4 and frontend/pages/manager/ManagerDashboard.jsx:4 import.
  - As written, those two pages cannot make their calls.
  - The model takes the calls' answers as inputs, as they would be with those wrappers.
- ProductCatalog.IsValidObjectId: `ObjectId.isValid` is modelled as exactly 24 hexadecimal digits. Some versions of the bson library also accept any 12-character string; that case is not modelled.
- ProductCatalog.Merge: `findByIdAndUpdate` is modelled as leaving out a field whose value is undefined, as current Mongoose does, and overwriting with any other value, `""` included.

## Findings

| source | as written | input that shows it | evidently intended | confidence | as-written member | corrected member |
|---|---|---|---|---|---|---|
| frontend/pages/RegisterPage.jsx:74-78 | `register(username, email, password)` is called against `register(name, email, phone, password)` (frontend/src/context/AuthContext.jsx:64), so the password is posted as the phone and no password is sent | any accepted form, e.g. username `abc`, email `a@b.c`, password and confirmation `secret1` | post the typed password as the password, with no phone | not executed | RegisterPage.AsWrittenLosesPassword, RegisterPage.RegisterPageState.Submit | RegisterPage.IntendedPostsPassword, RegisterPage.RegisterPageState.SubmitIntended |
| backend/src/controllers/orderControllers.js:97-111 | `updateOrder` deletes and reinserts the items and only then saves the order, so a save the validators reject leaves the new items under the old total | order 0 with total 100 and one item of 1 × 100; update with status `delivered` and items `[2 × 100]` | validate before writing, so a rejected update changes nothing | not executed | OrderLedger.RejectedUpdateBreaksTotals | OrderLedger.UpdateKeepsTotals |

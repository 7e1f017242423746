# FarmApp inventory core, modelled in Dafny

FarmApp is a small pharmacy inventory web application: an Express server over
a MySQL database, Handlebars pages, and browser scripts. Its behaviour
decides who may do what and what the tables look like after each request.
This project models that behaviour and proves properties of it. One Dafny
module stands for each source file:

- **Server gates and sign-in.** `AuthMiddleware` covers `middleware/auth.js`.
  It models the session fast path, the `Bearer` token checked by a JSON Web
  Token verifier (RFC 7519), the session backfill, the 401/redirect choice,
  and the role gates. `AuthController` covers `controllers/authController.js`.
  `ApiRoutes` covers `routes/api.js`: login, check and logout, and the
  low-stock and recent-sales selections.
- **Routers.** `ProductRoutes` models `routes/products.js` as a layer chain
  registered in source order and walked by each request, so the order of
  registration decides which gates guard which handler. `IndexRoutes`
  models the page router of `routes/index.js`.
- **Tables.** `Tables` holds the `categories` and `products` tables in
  memory. `CategoryController` and `ProductController` model the guarded
  reads and writes of the two controllers, each twice:
  - as a function from the tables to the reply and the new tables;
  - as a method of the database object that updates its table fields in
    place, proved equal to that function.
- **Helpers.**
  - `HbsHelpers`: the deciding template helpers.
  - `SetupDb`: the SQL script splitter and the per-statement import loop of
    `setup-db.js`.
  - `FileUpload`: the upload filter, stored names, path and URL rewriting,
    and error replies of `utils/fileUpload.js`.
  - `Start`: `normalizePort` and the listen-error handler of `start.js`.
- **Browser scripts.**
  - `ClientProducts`: `public/js/products.js`.
  - `ClientCategories`: `public/js/categories.js`.
  - `ClientMain`: `public/js/main.js`.
  - Pages and elements whose state the scripts change become classes. Their
    methods loop over rows and cards as the scripts do.
- **Shared modules.**
  - `Web`: requests, responses, and the connection with its session and
    cookies.
  - `ClientValues`: JavaScript values, truthiness, `String(v)` and `||`.
  - `Text`: `includes`, `toLowerCase`, `trim`, `split` and `parseInt`.
  - `Seqs`: `filter`, `ORDER BY` and `ORDER BY ... LIMIT`.
  - `Wrappers`: `Option` and a `Try` outcome.

Some outside services become parameters of the operations that use them:
- the token verifier and signer, and the password comparison;
- the database's answers and the clock;
- the random and uuid suffixes;
- the localized date formatting.

A database failure is a `fault` parameter:
- Most handlers take a flag raised before any write.
- The category create and update take one of three points: no failure, a
  failure at or before the write, or a failure in the `SELECT` that follows
  a committed write. The last answers 500 and keeps the change.
- The product add and update take one of three as well: no failure, a
  failure of the write, or a failure of the write and of the catch block's
  `SELECT`s that reload the form's choices. The last sends no reply at all.

The model keeps several quirks of the code as it is written:
- The token cookie set at login carries no `Bearer ` prefix. The gate
  therefore never accepts it.
- The middleware `isAdmin` reads `req.user`, which nothing sets. Every
  request reaching that gate is therefore refused with 403.
- The path-less gates of `routes/products.js` stand in front of every
  later request through that router, including requests meant for the
  `/api` routers mounted after it.
- The two low-stock endpoints read the columns `stock` and
  `min_stock_level`/`min_stock`, while `productController.js` writes
  `stock_quantity` and `min_stock_level`. The endpoints are modelled over
  their own projection of the products table (`Inventory`).
  - `routes/api.js` compares with `<=`.
  - `routes/products.js` compares with `<` and lists rows without a stock
    first.
- A category create or update whose write has committed can still answer
  500, when the `SELECT` after it throws. The change stays, so retrying a
  create is refused as a duplicate name.
- The catch blocks of `addProduct` and `updateProduct` reload the
  categories and suppliers outside any `try`. When those `SELECT`s throw
  too, the handler's promise rejects and no reply is sent; `start.js`
  then closes the server and exits with status 1
  (`ProductController.Unanswered`).
- The category handlers read and write a `status` column that none of the
  schemas shown (`config/setup-database.js`, `config/database.js`,
  `init-db.js`) declares. The model follows the controllers' columns. Under
  those schemas every category create and update would fail with 500.
- `addProduct` binds the barcode as submitted, without `|| null`. A second
  product saved with a blank barcode collides with the first on the
  `UNIQUE` key and gets the error form.

## Model

| member | source | states |
|---|---|---|
| AuthMiddleware.VerifyToken | farmapp/middleware/auth.js:5-12 | succeeds exactly when the verifier accepts the token, returning its claims; otherwise the fixed "Token inválido o expirado" error |
| AuthMiddleware.TokenSource | farmapp/middleware/auth.js:22 | a non-empty `Authorization` header is the token and wins over the cookie; otherwise the `token` cookie, when there is one |
| AuthMiddleware.BearerCredential | farmapp/middleware/auth.js:24-25 | a credential exists exactly when the token starts with `Bearer `, and it is the token with that 7-character prefix removed |
| AuthMiddleware.Unauthenticated | farmapp/middleware/auth.js:38-43 | 401 with `{error: 'Unauthorized'}` exactly for XHR or JSON-accepting requests, else a redirect to `/auth/login` |
| AuthMiddleware.Authenticate | farmapp/middleware/auth.js:15-43 | a session user passes and is kept; otherwise the request passes exactly when the bearer credential verifies, and the session then holds its claims; every rejection leaves the session empty |
| AuthMiddleware.IsAuthenticated | farmapp/middleware/auth.js:15-43 | the gate decision and the new session user are exactly those of `Authenticate` on the old session |
| AuthMiddleware.FastPathIgnoresCredentials | farmapp/middleware/auth.js:17-19 | with a session user, neither credentials nor verifier affect the outcome |
| AuthMiddleware.BackfillThenFastPath | farmapp/middleware/auth.js:27-30 | a verified token fills the session, so a later request on the same session passes without a token |
| AuthMiddleware.LoginCookieNeverAccepted | farmapp/middleware/auth.js:22-25 | with no header, a `token` cookie holding a compact JWS (no space, so never `Bearer `-prefixed) is always rejected |
| AuthMiddleware.NoCredentialsRejected | farmapp/middleware/auth.js:22-43 | without a session user, a header or a cookie, the request is answered as unauthenticated |
| AuthMiddleware.IsAdmin | farmapp/middleware/auth.js:60-68 | passes exactly when `req.user` exists with role `admin`; otherwise the 403 page |
| AuthMiddleware.HasRole | farmapp/middleware/auth.js:71-86 | no `req.user` redirects to login; an empty role list admits every user; otherwise exactly the listed roles pass and the rest get 403 |
| AuthMiddleware.IsOwnerOrAdmin | farmapp/middleware/auth.js:89-121 | admins pass without a lookup; a missing row gives 404; another owner's row gives 403; a failed lookup or a missing `req.user` gives 500; the owner passes |
| AuthController.Attempt | farmapp/controllers/authController.js:15-73 | unknown user, wrong password, success and crash each hold under exactly their conditions; a success carries the first matching row's snapshot as identity and token claims |
| AuthController.SignIn | farmapp/controllers/authController.js:15-58 | its outcome is `Attempt`'s; only a success writes the session user and the `token` cookie; every other outcome changes neither |
| AuthController.Login | farmapp/controllers/authController.js:15-73 | the reply is the outcome's page: a redirect for bad credentials or a role landing, the 500 error page for an exception |
| AuthController.BadCredentialsIndistinguishable | farmapp/controllers/authController.js:23-31 | an unknown user and a wrong password get the same redirect |
| AuthController.LoginLanding | farmapp/controllers/authController.js:61-65 | after a successful login, admins go to `/dashboard` and every other role goes to `/sales/pos` |
| AuthController.LoginCrashPage | farmapp/controllers/authController.js:66-72 | exactly a crashed attempt is answered with the 500 error page |
| AuthController.Logout | farmapp/controllers/authController.js:76-85 | a failed destroy redirects home and changes nothing; otherwise the session is gone, `connect.sid` is cleared and the client goes to login |
| AuthController.IsAuthenticated | farmapp/controllers/authController.js:88-93 | passes exactly when the session holds a user; otherwise a redirect to login |
| AuthController.IsAdmin | farmapp/controllers/authController.js:96-104 | passes exactly when the session user is an admin; otherwise the 403 page |
| Inventory.StockOrderTotal | farmapp/routes/api.js:139 | `ORDER BY stock ASC` (NULL first) orders any two rows and is transitive |
| Inventory.LowestStock | farmapp/routes/api.js:137-140 | `WHERE keep ORDER BY stock ASC LIMIT 10`: exactly min(10, number of kept rows) rows, all drawn from the kept rows |
| Inventory.LowestStockKept | farmapp/routes/api.js:138 | every listed row satisfies the `WHERE` condition |
| Inventory.LowestStockOrdered | farmapp/routes/api.js:139 | consecutive listed rows are in `stock ASC` order, NULL first |
| Inventory.LowestStockLowest | farmapp/routes/api.js:139-140 | no kept row that was left out comes before a listed one in that order |
| ApiRoutes.LoginReply | farmapp/routes/api.js:16-30 | 401 with one fixed message for an unknown user and for a wrong password; 200 with `{success: true, user}` on success; 500 with `Error del servidor` when anything throws |
| ApiRoutes.Login | farmapp/routes/api.js:8-75 | the reply is `LoginReply` of the sign-in attempt; a success stores the user in the session and sets the `token` cookie; a failure changes neither |
| ApiRoutes.Check | farmapp/routes/api.js:78-89 | 401 `{isAuthenticated: false}` exactly when the session has no user; otherwise 200 with `isAuthenticated: true` and that user |
| ApiRoutes.Logout | farmapp/routes/api.js:92-109 | a failed destroy answers 500 and changes nothing; otherwise the session user is gone, the `token` and `farmapp.sid` cookies are cleared and the answer is `{success: true}` |
| ApiRoutes.LoginCheckLogoutCheck | farmapp/routes/api.js:8-109 | after a successful login the check reports the user the login reply carried; after a successful logout the check answers 401 and no token cookie is left |
| ApiRoutes.LowStock | farmapp/routes/api.js:133-143 | min(10, number of qualifying rows) rows, drawn from the table, each with `stock <= min_stock` and neither of them NULL |
| ApiRoutes.LowStockAscending | farmapp/routes/api.js:139 | every listed row has a stock, and the stocks ascend |
| ApiRoutes.LowStockLowest | farmapp/routes/api.js:139-140 | no qualifying row that was left out has less stock than a listed one |
| ApiRoutes.CustomerName | farmapp/routes/api.js:117 | `LEFT JOIN`: NULL only when no customer has the id; otherwise the name of a customer with that id |
| ApiRoutes.NewerTotal | farmapp/routes/api.js:118 | `ORDER BY created_at DESC` orders any two sales and is transitive |
| ApiRoutes.NewestSales | farmapp/routes/api.js:118-119 | min(10, number of sales) sales drawn from the table, newest first; no sale left out is newer than a listed one |
| ApiRoutes.RecentSales | farmapp/routes/api.js:112-122 | the ten newest sales in descending date, each with its id, total, date and joined customer name |
| ProductRoutes.MatchPath | farmapp/routes/products.js:56-60 | a path matches a pattern exactly when it has as many segments, literals equal and `:id` non-empty; a match binds every parameter |
| ProductRoutes.Router.Get | farmapp/routes/products.js:8 | `router.get` appends one route layer and nothing else |
| ProductRoutes.Router.Post | farmapp/routes/products.js:53 | `router.post` appends one route layer and nothing else |
| ProductRoutes.Router.Use | farmapp/routes/products.js:42 | `router.use` appends one gate layer and nothing else |
| ProductRoutes.Router.Handle | farmapp/routes/products.js:1-62 | the layer-by-layer walk ends where `Dispatch` says, and leaves the session as the gates on the way left it |
| ProductRoutes.BuildRouter | farmapp/routes/products.js:8-60 | the registrations produce the public listings, the login gate, the two web routes, the admin gate and the five admin routes, in that order |
| ProductRoutes.DispatchConcat | farmapp/routes/products.js:42-49 | walking two stretches of layers is walking the first, then the second with the session the first left, unless the first took the request |
| ProductRoutes.RoutesOnly | farmapp/routes/products.js:45-46 | a stretch of routes without a gate leaves the session alone and either hands the request to one of its own handlers or passes it on |
| ProductRoutes.AdminStage | farmapp/routes/products.js:49-60 | past line 49 a request without an admin `req.user` gets 403; any other goes on to the admin routes |
| ProductRoutes.WebStage | farmapp/routes/products.js:45-49 | past the login gate: a web route if one matches, else the admin stage |
| ProductRoutes.LoginStage | farmapp/routes/products.js:42 | the login gate either answers the request or passes it on, with the session it leaves |
| ProductRoutes.ChainStages | farmapp/routes/products.js:8-60 | the listings never touch the session; a web handler is reached only past the login gate; an admin handler, or falling through, only past both gates |
| ProductRoutes.PastPublic | farmapp/routes/products.js:42-60 | past the listings, a request reaches a web or admin handler only through the login gate, and an admin handler only through the admin gate |
| ProductRoutes.PublicHandlersOnly | farmapp/routes/products.js:8-39 | the two listings are neither web nor admin handlers |
| ProductRoutes.WebHandlersOnly | farmapp/routes/products.js:45-46 | the routes of lines 45-46 are the web handlers |
| ProductRoutes.AdminHandlersOnly | farmapp/routes/products.js:52-60 | the routes of lines 52-60 are the admin handlers |
| ProductRoutes.PublicListingsOpen | farmapp/routes/products.js:8-42 | `GET /products` and `GET /products/low-stock` are answered without any credential and leave the session as it was |
| ProductRoutes.AdminGateRefusesEveryone | farmapp/routes/products.js:49 | with `req.user` unset no admin route is reached and nothing falls through; a request past the login gate and not handled gets 403 |
| ProductRoutes.LaterApiRoutersUnreachable | farmapp/routes/products.js:42 | a JSON login without credentials sent to `/api` is answered by this router's login gate, before the API router mounted after it |
| ProductRoutes.LowStockListing | farmapp/routes/products.js:24-34 | min(10, number of qualifying rows) rows drawn from the table, each with `stock < min_stock_level` or no stock, in `stock ASC` order |
| ProductRoutes.NullStockFirst | farmapp/routes/products.js:30-31 | rows without a stock come before the others |
| ProductRoutes.LowStockListingLowest | farmapp/routes/products.js:31-32 | no qualifying row left out comes before a listed one |
| ProductRoutes.AtLevelListedOnlyByApi | farmapp/routes/products.js:30 | a row whose stock equals its level is listed by the API's rule (`<=`) but not by this router's (`<`) |
| ProductController.Stored | farmapp/controllers/productController.js:64-65 | `category_id`, `supplier_id` and `expiration_date` become NULL exactly when empty or missing; the other seven fields are stored as submitted |
| ProductController.CategoryNameOf | farmapp/controllers/productController.js:10 | `LEFT JOIN`: NULL only when no category has the id referred to; otherwise the name of a category with that id |
| ProductController.ByNameTotal | farmapp/controllers/productController.js:11 | `ORDER BY p.name` (NULL first) orders any two listings and is transitive |
| ProductController.Listings | farmapp/controllers/productController.js:7-12 | one listing per row, sorted by name; each is a row with its joined category name, and every row appears |
| ProductController.ByCategoryNameTotal | farmapp/controllers/productController.js:31 | `ORDER BY name` orders any two categories and is transitive |
| ProductController.Choices | farmapp/controllers/productController.js:31 | `SELECT * FROM categories ORDER BY name` for the forms: the same rows, sorted by name |
| ProductController.List | farmapp/controllers/productController.js:5-26 | the product list page with those listings, or the 500 error page when the query throws |
| ProductController.ShowAddForm | farmapp/controllers/productController.js:29-48 | the blank add form with the categories sorted by name, or the 500 error page |
| ProductController.ShowEditForm | farmapp/controllers/productController.js:89-117 | the stored fields of the row with the id and the categories sorted by name; 404 when no row has the id; 500 when a query throws |
| ProductController.Add | farmapp/controllers/productController.js:51-86 | an insert that commits appends one row under the next id with the stored fields and redirects with a flash; a barcode some row already holds, or a failed insert, keeps the table and shows the form again with the submitted body, the categories sorted by name and 500; when reloading the choices throws as well, the table is kept and no reply is sent |
| ProductController.Overwrite | farmapp/controllers/productController.js:128-133 | `UPDATE ... WHERE id = ?`: rows with that id get the new fields and keep their id; the others are untouched |
| ProductController.Update | farmapp/controllers/productController.js:120-157 | an update that commits overwrites the rows with the id and redirects with a flash; a barcode another row holds, for an id that exists, or a failed update keeps the table and shows the edit form again with the body, the id, the categories sorted by name and 500; when reloading the choices throws as well, the table is kept and no reply is sent |
| ProductController.Delete | farmapp/controllers/productController.js:160-170 | always redirects to `/products`; success removes the rows with the id and flashes success; a failure keeps the table and flashes the error |
| ProductController.AddKeepsKeys | farmapp/controllers/productController.js:59-66 | an add keeps product ids and non-NULL barcodes unique and ids below the counter, and the counter moves only when the insert commits |
| ProductController.SameBarcodeTwiceRefused | farmapp/config/setup-database.js:63 | a second add with a non-NULL barcode some row holds, the blank `''` included, is refused with the 500 form and stores nothing |
| ProductController.AddThenEdit | farmapp/controllers/productController.js:59-117 | for a barcode no row holds, the edit form of a just-added product shows the stored fields under the new id, with the category choices |
| ProductController.UpdateKeepsKeys | farmapp/controllers/productController.js:128-137 | an update keeps product ids and non-NULL barcodes unique and ids below the counter |
| ProductController.UpdateUnknownId | farmapp/controllers/productController.js:128-140 | an update of an id no row has changes nothing and still flashes success |
| ProductController.UpdateThenEdit | farmapp/controllers/productController.js:89-137 | after an update with a barcode no other row holds, the edit form of that product shows the stored fields of the body, with the category choices |
| ProductController.DeleteExactlyOne | farmapp/controllers/productController.js:162 | with unique ids a delete removes exactly the row with that id, or nothing, and keeps the ids unique |
| ProductController.Search | farmapp/controllers/productController.js:173-191 | the JSON hits, or the 500 `{error}` reply when the query throws |
| ProductController.SearchOnlyHits | farmapp/controllers/productController.js:177-184 | each listed product is a row matching `name LIKE %q% OR barcode = q`, with its own category name, sorted by name |
| ProductController.SearchAllHits | farmapp/controllers/productController.js:181 | every row that matches is listed |
| ProductController.SearchTermEdgeCases | farmapp/controllers/productController.js:183 | without `q` the pattern is `%undefined%` and no barcode matches; an empty `q` matches every named product |
| ProductController.AddProduct | farmapp/controllers/productController.js:51-86 | on the database: the page and new table of `Add` over the stored categories, the crash path included, with the id counter advanced exactly when the insert commits and the key invariant kept |
| ProductController.UpdateProduct | farmapp/controllers/productController.js:120-157 | on the database: the page and new table of `Update` over the stored categories, the crash path included, with the key invariant kept |
| ProductController.DeleteProduct | farmapp/controllers/productController.js:160-170 | on the database: the page and new table of `Delete`, with the key invariant kept |
| CategoryController.ByNameTotal | farmapp/controllers/categoryController.js:44 | `ORDER BY c.name` orders any two categories and is transitive |
| CategoryController.Listed | farmapp/controllers/categoryController.js:39-51 | one entry per category, sorted by name; each is a row with `status === 1` and its own product count, and every row appears |
| CategoryController.GetAll | farmapp/controllers/categoryController.js:37-58 | the listing of every category, or 500 with `Error al cargar las categorías` when the query throws |
| CategoryController.Search | farmapp/controllers/categoryController.js:5-35 | a missing or empty term is refused with 400 before any query; a failing query gives 500; otherwise the listing of the matching categories |
| CategoryController.SearchOnlyMatches | farmapp/controllers/categoryController.js:13-18 | each listed category matches `name LIKE %q% OR description LIKE %q%` and carries its own count |
| CategoryController.SearchAllMatches | farmapp/controllers/categoryController.js:18 | every matching category is listed |
| CategoryController.StoredStatus | farmapp/controllers/categoryController.js:71 | `status ? 1 : 0`: 1 exactly for a truthy status, else 0 |
| CategoryController.Create | farmapp/controllers/categoryController.js:61-92 | 400 for an empty name, 500 for a failure at the insert, 400 for a name already taken; otherwise the row is appended under the next id, and reported with 201, its status as a boolean and a count of 0, or answered 500 when the read-back fails; the table changes exactly when the insert commits |
| CategoryController.CreateKeepsKeys | farmapp/controllers/categoryController.js:69-72 | a create keeps ids and names unique and every id below the counter, which moves exactly when the insert commits |
| CategoryController.CreateTwiceRefused | farmapp/controllers/categoryController.js:69-88 | after a create whose insert committed, even one answered 500, the same name again is refused with 400 and changes nothing |
| CategoryController.Update | farmapp/controllers/categoryController.js:95-148 | 400 for an empty name, 500 for a failure before the write, 404 for an unknown id, 400 for a name another row holds; otherwise the row is rewritten, and reported with its product count, or answered 500 when a later query fails; the table changes exactly when the update commits |
| CategoryController.UpdateKeepsKeys | farmapp/controllers/categoryController.js:111-124 | an update keeps ids and names unique and every id below the counter |
| CategoryController.ReplaceKeepsUnique | farmapp/controllers/categoryController.js:121-124 | overwriting a row with its own id and a name no other row holds keeps the keys unique |
| CategoryController.KeepOwnName | farmapp/controllers/categoryController.js:111-118 | keeping a category's own name is not a duplicate: the update goes through |
| CategoryController.Delete | farmapp/controllers/categoryController.js:151-185 | 500 for a failing query, 404 for an unknown id, 400 when a product refers to the category; otherwise the rows with the id are deleted; only a success changes the table |
| CategoryController.DeleteExactlyOne | farmapp/controllers/categoryController.js:175 | with unique ids a successful delete removes exactly the target row and keeps the rest in order, with the keys still unique |
| CategoryController.DeletedIsGone | farmapp/controllers/categoryController.js:156-175 | after a delete, deleting the same id answers 404, and so does updating it unless a query fails first |
| CategoryController.CreateCategory | farmapp/controllers/categoryController.js:61-92 | on the database: the reply and new table of `Create`, the counter advanced exactly when the insert commits, the key invariant kept |
| CategoryController.UpdateCategory | farmapp/controllers/categoryController.js:95-148 | on the database: the reply and new table of `Update`, the key invariant kept |
| CategoryController.DeleteCategory | farmapp/controllers/categoryController.js:151-185 | on the database: the reply and new table of `Delete`, the key invariant kept |
| Tables.OrNull | farmapp/controllers/productController.js:64-65 | `v \|\| null`: NULL exactly for missing or empty text, otherwise the text itself |
| Tables.FindBy | farmapp/controllers/categoryController.js:105-106 | `SELECT ... WHERE id = ?`: -1 when no row has the id, otherwise the first row that has it |
| Tables.Purge | farmapp/controllers/categoryController.js:175 | `DELETE ... WHERE id = ?`: no row with the id is left, every other row stays, nothing is added |
| Tables.PurgeSingle | farmapp/controllers/productController.js:162 | when one row alone holds the id, the delete removes exactly that row |
| Tables.PurgeMissing | farmapp/controllers/productController.js:162 | when no row holds the id, the delete changes nothing |
| Tables.ProductCount | farmapp/controllers/categoryController.js:162-167 | `COUNT(*) ... WHERE category_id = ?` is zero exactly when no product refers to the category |
| Seqs.OrderedImage | farmapp/controllers/categoryController.js:39-45 | the sorted projection is a permutation of the rows' images, sorted under the order |
| SetupDb.NormalizeNewlines | farmapp/setup-db.js:35 | never longer than the input, and text without `\r` is left as it is |
| SetupDb.NormalizeKeepsOtherChars | farmapp/setup-db.js:35 | only the `\r` of `\r\n` pairs is dropped: the other characters survive, in order |
| SetupDb.TrimAll | farmapp/setup-db.js:37 | one trimmed chunk per chunk, in order |
| SetupDb.TrimmedSliceHasNoSemicolon | farmapp/setup-db.js:36-37 | trimming a chunk free of `;` leaves it free of `;` |
| SetupDb.StatementsWellFormed | farmapp/setup-db.js:34-38 | every statement is free of `;`, not empty, without white space at either end, and opens with neither comment marker |
| SetupDb.StatementWellFormed | farmapp/setup-db.js:34-38 | the same for one statement |
| SetupDb.TrimmedStatement | farmapp/setup-db.js:37-38 | a chunk free of `;` that passes the filter after trimming gives a well-formed statement |
| SetupDb.StatementsInOrder | farmapp/setup-db.js:38 | the statements keep the order of the chunks they come from |
| SetupDb.StatementsExact | farmapp/setup-db.js:38 | a trimmed chunk is kept exactly when it is not empty and opens with no comment marker |
| SetupDb.Excerpt | farmapp/setup-db.js:48 | a statement of at most 100 characters is logged whole; a longer one as its first 100 characters and `...` |
| SetupDb.Connection.Query | farmapp/setup-db.js:44 | the statement is added to what was sent; it succeeds as the connection's answer for that history says |
| SetupDb.Failures | farmapp/setup-db.js:46-49 | at most one log entry per statement |
| SetupDb.RunAll | farmapp/setup-db.js:41-51 | every non-empty statement is sent once, in order; the log holds the excerpt of each failing one, and a failure does not stop the rest |
| SetupDb.RunOne | farmapp/setup-db.js:42-50 | a non-empty statement is sent, and logged when it fails; an empty one is skipped |
| SetupDb.SentStep | farmapp/setup-db.js:41-45 | the sent-statements invariant of the loop survives one pass |
| SetupDb.LogStep | farmapp/setup-db.js:41-50 | the log invariant of the loop survives one pass |
| SetupDb.RetainStep | farmapp/setup-db.js:43 | the non-empty statements from a position on are the one there, if not empty, then the rest |
| SetupDb.FailuresStep | farmapp/setup-db.js:42-50 | one statement's contribution to the log, then the rest after it |
| SetupDb.NoFailureNoLog | farmapp/setup-db.js:46-49 | when the connection accepts everything, nothing is logged |
| SetupDb.Import | farmapp/setup-db.js:26-69 | checks off, every statement, checks on; a failure of the first `SET` ends with code 1 and sends nothing else; otherwise the code is 0 exactly when the last `SET` succeeds |
| SetupDb.StatementsAllSent | farmapp/setup-db.js:38-45 | every statement that survives the filter is sent |
| Start.NormalizePort | farmapp/start.js:33-47 | text that does not parse is returned as a pipe name; a parse of 0 or more is the port; a negative one is `false` |
| Start.PortSetting | farmapp/start.js:17 | an unset or empty `PORT` falls back to `'3000'`, any other is used as it is |
| Start.NormalizeDecimal | farmapp/start.js:34-43 | a decimal port followed by any non-digit text is read back as that number |
| Start.NormalizeNegative | farmapp/start.js:41-46 | a minus sign before a positive number gives `false` |
| Start.SignedDigits | farmapp/start.js:34 | `parseInt` of a minus sign and digits is the negated value of the digits |
| Start.NormalizePipe | farmapp/start.js:36-39 | text opening with anything but white space, a sign or a digit is a pipe name |
| Start.DefaultPort | farmapp/start.js:17 | with no `PORT` the server listens on port 3000 |
| Start.Bind | farmapp/start.js:57-59 | `Pipe ` and the name for a pipe, `Port ` and the number otherwise, `Port false` for a refused port |
| Start.BindNamesKind | farmapp/start.js:57-59 | the message opens with `Pipe ` exactly for a pipe |
| Start.BindTellsNumbersApart | farmapp/start.js:59 | two different port numbers give two different messages |
| Start.OnError | farmapp/start.js:52-74 | only a failed `listen` with `EACCES` or `EADDRINUSE` exits, with status 1 and its own message; every other error is thrown again |
| Start.ExitMessagesDiffer | farmapp/start.js:63-70 | the two exits can be told apart |
| IndexRoutes.PageOf | farmapp/routes/index.js:7-119 | only a `GET` reaches a named route; every other request falls to the 404 handler |
| IndexRoutes.HomeRedirect | farmapp/routes/index.js:7-12 | redirect to `/dashboard` exactly when the session holds a user, to the login page exactly when it does not |
| IndexRoutes.HomeRule | farmapp/routes/index.js:7-12 | `GET /` has no gate: the redirect follows the session and leaves it alone |
| IndexRoutes.LoginOnlyPages | farmapp/routes/index.js:15-94 | `/dashboard` and `/profile` render exactly when `isAuthenticated` lets the request through, and its refusal is the answer otherwise |
| IndexRoutes.SettingsGates | farmapp/routes/index.js:102-107 | `/settings` renders exactly when both gates pass; a refusal by the login gate or by the admin gate is the answer |
| IndexRoutes.StatusOpen | farmapp/routes/index.js:110-116 | `GET /api/status` needs no credential and answers `ok`, the time and version `1.0.0` |
| IndexRoutes.FallbackIsNotFound | farmapp/routes/index.js:119-124 | any other request gets the 404 page and leaves the session alone |
| FileUpload.StripTrailingSlashesSpec | farmapp/utils/fileUpload.js:67 | what `basename` first drops is exactly the run of slashes at the end |
| FileUpload.Basename | farmapp/utils/fileUpload.js:67 | `path.basename` never contains a slash |
| FileUpload.BasenameIsLastSegment | farmapp/utils/fileUpload.js:67 | the base name ends the path, leaving out only trailing slashes, with a slash right before it when it is not the whole path |
| FileUpload.ExtName | farmapp/utils/fileUpload.js:19-27 | `path.extname` is empty or a dot with no dot or slash after it, ends the base name, and is empty exactly when the base name has no extension |
| FileUpload.ExtNameOfStem | farmapp/utils/fileUpload.js:19 | a plain stem followed by an extension gives that extension back |
| FileUpload.BasenameOfSegment | farmapp/utils/fileUpload.js:67 | a path of one segment is its own base name |
| FileUpload.LastDotOfStem | farmapp/utils/fileUpload.js:19 | behind a stem without dots, the last dot opens the extension |
| FileUpload.FileFilter | farmapp/utils/fileUpload.js:25-35 | a file is taken exactly when both its lower-cased extension and its MIME type contain `jpeg`, `jpg`, `png` or `gif`; otherwise it is refused with the fixed message |
| FileUpload.ImageTypeAnywhere | farmapp/utils/fileUpload.js:26 | the pattern has no anchors: a type name anywhere in the text matches |
| FileUpload.NoLowerNoImageType | farmapp/utils/fileUpload.js:26 | text without small letters matches none of the type names |
| FileUpload.FilterAcceptsImages | farmapp/utils/fileUpload.js:27-31 | an extension holding a type name, in any letter case and with anything around it, together with an image MIME type, is accepted |
| FileUpload.ExtensionNamesImage | farmapp/utils/fileUpload.js:27 | such an extension passes the extension half of the filter |
| FileUpload.FilterIgnoresExtensionCase | farmapp/utils/fileUpload.js:27 | the letter case of the extension does not change the verdict |
| FileUpload.FilterRefusesCapitalMime | farmapp/utils/fileUpload.js:28 | the MIME type is not lower-cased: one without small letters, such as `IMAGE/PNG`, is refused |
| FileUpload.UniqueSuffix | farmapp/utils/fileUpload.js:18 | the time and the random number joined by a dash, with no dot or slash |
| FileUpload.StoredFilename | farmapp/utils/fileUpload.js:17-21 | the stored name opens with the field name, a dash and the suffix, and ends with the lower-cased extension |
| FileUpload.StoredFilenameKeepsExtension | farmapp/utils/fileUpload.js:19-20 | the stored file's extension is the original's, lower-cased |
| FileUpload.UniqueFilename | farmapp/utils/fileUpload.js:121-124 | opens with the uuid and ends with the lower-cased extension |
| FileUpload.UniqueFilenameKeepsExtension | farmapp/utils/fileUpload.js:121-124 | the generated name's extension is the original's, lower-cased |
| FileUpload.NormalizedPath | farmapp/utils/fileUpload.js:66 | every backslash becomes a slash and nothing else changes |
| FileUpload.NormalizedPathIdempotent | farmapp/utils/fileUpload.js:66 | normalising twice is normalising once |
| FileUpload.UploadUrl | farmapp/utils/fileUpload.js:67 | opens with `/uploads/` and has no slash after it |
| FileUpload.UploadUrlOfStoredFile | farmapp/utils/fileUpload.js:66-67 | a file stored under a Windows-style directory gets the URL of its own name |
| FileUpload.NormalizedJoin | farmapp/utils/fileUpload.js:66 | a backslash separator becomes a slash and the name stays |
| FileUpload.BasenameAfterSlash | farmapp/utils/fileUpload.js:67 | after a slash, a plain name is the base name |
| FileUpload.UploadedFile.Normalize | farmapp/utils/fileUpload.js:66-67 | the path becomes the normalised path and the URL the one of its last segment |
| FileUpload.AfterUploadAgain | farmapp/utils/fileUpload.js:66-67 | normalising an already normalised file changes neither path nor URL |
| FileUpload.ErrorReply | farmapp/utils/fileUpload.js:50-62 | `next()` exactly when there is no error; a Multer error answers 400 with its message; any other error 500 with the fixed text |
| FileUpload.UploadSingle | farmapp/utils/fileUpload.js:47-73 | the reply follows the error; with no error the stored file, if any, gets its normalised path and URL; otherwise the file is untouched |
| FileUpload.UploadMultiple | farmapp/utils/fileUpload.js:76-103 | the reply follows the error; `req.files` is the same files in the same order; with no error every file gets its normalised path and URL, otherwise none changes |
| FileUpload.DeleteOutcomeOf | farmapp/utils/fileUpload.js:106-118 | resolves exactly when there is no error or the file was missing (`ENOENT`); otherwise rejects with that error |
| HbsHelpers.Eq | farmapp/config/hbs-helpers.js:5-7 | the main branch exactly when the two values are strictly equal |
| HbsHelpers.Threshold | farmapp/config/hbs-helpers.js:27-44 | `minStock \|\| 10`: a missing or zero minimum counts as 10, any other is used as it is |
| HbsHelpers.IsLowStock | farmapp/config/hbs-helpers.js:27-29 | the main branch exactly when the stock is at or below the threshold |
| HbsHelpers.GetStockStatus | farmapp/config/hbs-helpers.js:40-44 | `danger` exactly at or below 0, `warning` exactly above 0 and at or below the threshold, `success` exactly above both |
| HbsHelpers.SuccessIsNotLow | farmapp/config/hbs-helpers.js:27-44 | the status is `success` exactly when the stock is positive and `isLowStock` renders its inverse branch |
| HbsHelpers.ZeroMinimumFallsBack | farmapp/config/hbs-helpers.js:27-44 | a minimum of 0 behaves as no minimum at all, that is as 10 |
| HbsHelpers.Truncate | farmapp/config/hbs-helpers.js:53-62 | a string no longer than `len`, or empty, is returned as it is; a longer one becomes a prefix of at most `len` characters, cut before the last space in that window or at `len` when there is none after the first character, followed by `...` |
| HbsHelpers.TruncateBound | farmapp/config/hbs-helpers.js:53-62 | a truncated string is at most `len` characters plus the three dots |
| HbsHelpers.InArray | farmapp/config/hbs-helpers.js:88-93 | the main branch exactly when an array is given and holds the value; without one, the inverse |
| ClientValues.ToText | farmapp/public/js/products.js:100 | `String(v)`: a string is its own text; any other value, and any truthy value, gives non-empty text |
| ClientValues.Or | farmapp/public/js/main.js:94-102 | `a \|\| b`: `a` when truthy, `b` otherwise; the result is truthy exactly when one of them is |
| ClientValues.BoolTextRoundTrip | farmapp/public/js/categories.js:65-101 | a boolean written into `data-status` reads back as `'true'` exactly when it was true; a number never does |
| ClientValues.NumberOf | farmapp/public/js/products.js:96 | `Number(v)`: NaN exactly for a missing field, 0 for `null`, the number otherwise |
| ClientValues.NumLeCases | farmapp/public/js/products.js:96 | `<=` on fields: numbers compare as numbers, a missing field never compares, `null` compares as 0 |
| ClientMain.ValidatedForm.OnSubmit | farmapp/public/js/main.js:27-33 | submission is prevented and the event stopped exactly for an invalid form; the form always gains `was-validated` |
| ClientMain.FormatDate | farmapp/public/js/main.js:55-65 | a falsy argument gives the empty string; any other is handed to the locale formatting |
| ClientMain.FormatDateOfNothing | farmapp/public/js/main.js:56 | a missing date, `null` and the empty string all give the empty string |
| ClientMain.AjaxEffectOf | farmapp/public/js/main.js:89-106 | a truthy `redirect` navigates there; a truthy `success` shows a success toast and resets or reloads exactly as the form's data attributes say; otherwise an error toast with the reply's message or the fallback; a throw shows the fixed error message |
| ClientMain.ToastMessageNeverEmpty | farmapp/public/js/main.js:94-106 | a toast never shows an empty message |
| ClientMain.RedirectWins | farmapp/public/js/main.js:91-92 | with a truthy `redirect`, `success`, `message` and the data attributes make no difference |
| ClientMain.SubmitButton.Submit | farmapp/public/js/main.js:68-112 | whatever the reply, the button ends enabled with its original label, and the effect is `AjaxEffectOf` of the reply |
| ClientMain.DigitsOnly | farmapp/public/js/main.js:207 | only digits are left, and the text never grows |
| ClientMain.DigitsOnlyCounts | farmapp/public/js/main.js:207 | every digit survives as often as it occurs, and nothing else survives |
| ClientMain.DigitsOnlyInOrder | farmapp/public/js/main.js:207 | the digits keep their order |
| ClientMain.DigitsOnlyIdempotent | farmapp/public/js/main.js:207 | filtering twice is filtering once; digits-only text is left as it is |
| ClientMain.NumericInput.OnInput | farmapp/public/js/main.js:205-208 | the value becomes its digits |
| ClientMain.AttributeNumber | farmapp/public/js/main.js:213 | `parseInt` with no radix: a missing attribute is NaN; a present one is `parseInt` of its text, in base 16 after `0x` |
| Text.ParseIntAuto | farmapp/public/js/main.js:213-214 | `parseInt` with no radix reads a text without the `0x` prefix exactly as with radix 10 |
| Text.ParseIntAutoOfHex | farmapp/public/js/main.js:213-214 | `0x` or `0X` and hexadecimal digits read in base 16 with no radix, where radix 10 reads 0 |
| ClientMain.MinimumOf | farmapp/public/js/main.js:214 | `parseInt(min) \|\| 0`: NaN gives 0, a number is itself |
| ClientMain.LevelOf | farmapp/public/js/main.js:216-222 | danger exactly for a current stock at or below 0, warning exactly above 0 and at or below the minimum, success otherwise, including a NaN stock |
| ClientMain.LevelClasses | farmapp/public/js/main.js:217-221 | each level adds its colour class, and `fw-bold` exactly for danger and warning |
| ClientMain.NoMinimumNoWarning | farmapp/public/js/main.js:214-218 | a missing, unparseable or non-positive minimum never gives the warning colour |
| ClientMain.OneColour | farmapp/public/js/main.js:216-222 | exactly one colour class is added |
| ClientMain.MarkStockLevels | farmapp/public/js/main.js:212-223 | every indicator gains the classes of its own level and keeps the ones it had |
| ClientProducts.Scheme | farmapp/public/js/products.js:41-45 | plain `http:` on a host containing `localhost` or `127.0.0.1`, the page's protocol otherwise |
| ClientProducts.ApiBaseUrl | farmapp/public/js/products.js:38-46 | `http://host` on a development host, `protocol//host` otherwise |
| ClientProducts.ProductsListUrl | farmapp/public/js/products.js:52 | the list address is the base address followed by `/api/products` |
| ClientProducts.SaveRequestOf | farmapp/public/js/products.js:209-212 | an empty `productId` posts to `/api/products`; any other puts to `/api/products/` and the id; the body is sent as built |
| ClientProducts.SaveUrlsTellIdsApart | farmapp/public/js/products.js:211 | two different product ids are saved to two different addresses |
| ClientProducts.CreateAddressIsListAddress | farmapp/public/js/products.js:209-212 | a create posts to the address the list is loaded from, without its scheme |
| ClientProducts.ValueOr | farmapp/public/js/products.js:198 | `field?.value \|\| ''`: the fallback for a missing or empty field, the value otherwise |
| ClientProducts.BodyOf | farmapp/public/js/products.js:194-207 | text fields are copied; `stock` is `parseInt` with no radix of its field; a blank minimum is 0; a missing or blank maximum is `null`; `status` is 1 exactly for the option `'1'` |
| ClientProducts.FormNumbersRoundTrip | farmapp/public/js/products.js:202-203 | a stock and a minimum typed as decimal numbers reach the server as those numbers |
| Text.ParseIntAutoOfDecimal | farmapp/public/js/products.js:202-205 | a decimal rendering followed by neither a digit nor an `x` reads back as its number with no radix |
| ClientProducts.FormDefaults | farmapp/public/js/products.js:203-206 | a blank minimum is sent as 0, a missing maximum as `null`, and a missing status as inactive |
| ClientProducts.EscapeChar | farmapp/public/js/products.js:366-371 | every character is written as non-empty text, and any character other than `&`, `<`, `>` and the no-break space as itself |
| ClientProducts.EscapeText | farmapp/public/js/products.js:366-371 | the escaped text is never shorter and holds no `<`, `>` or no-break space |
| ClientProducts.EscapeHtml | farmapp/public/js/products.js:366-371 | a string is escaped; any other value is returned unchanged |
| ClientProducts.NoEntityAt | farmapp/public/js/products.js:366-371 | text not opening with `&` reads back its first character as it is |
| ClientProducts.EntityAt | farmapp/public/js/products.js:366-371 | each of the four entities reads back as its character |
| ClientProducts.UnescapeChar | farmapp/public/js/products.js:366-371 | one escaped character reads back as that character |
| ClientProducts.UnescapeEscape | farmapp/public/js/products.js:366-371 | escaping loses nothing: reading the escaped text as HTML gives the original text |
| ClientProducts.EscapePlain | farmapp/public/js/products.js:366-371 | text with none of the four characters is left as it is |
| ClientProducts.NumericText | farmapp/public/js/products.js:100 | a number is written in decimal |
| ClientProducts.RowOf | farmapp/public/js/products.js:91-116 | every product gives a table row, never the placeholder |
| ClientProducts.Lines | farmapp/public/js/products.js:91-127 | one row per product, in the list's order |
| ClientProducts.LinesSnoc | farmapp/public/js/products.js:126 | drawing one more product appends its row |
| ClientProducts.RowsShape | farmapp/public/js/products.js:82-127 | an empty list gives the placeholder row alone; any other gives exactly one row per product, in order, and no placeholder |
| ClientProducts.LowStockMark | farmapp/public/js/products.js:99 | `badge-error` exactly for a stock at or below the minimum; `null` counts as 0 and a missing value is never flagged |
| ClientProducts.CategoryCell | farmapp/public/js/products.js:96 | a missing or empty category shows `Sin categoría`; any other is shown as it is |
| ClientProducts.Filtered | farmapp/public/js/products.js:131-148 | the filtered list is never longer than the list |
| ClientProducts.FilterEmptyShowsAll | farmapp/public/js/products.js:134-137 | an empty search shows the whole list |
| ClientProducts.FilterKeepsMatches | farmapp/public/js/products.js:139-145 | with a term, a product is shown exactly when its code, name or category name contains the lower-cased term |
| ClientProducts.FilterShowsOnlyMatches | farmapp/public/js/products.js:139-145 | every product shown matches the term |
| ClientProducts.FilterKeepsOrder | farmapp/public/js/products.js:139 | the products shown keep the order of the list |
| ClientProducts.EmptyFieldsNeverMatch | farmapp/public/js/products.js:141-143 | a product whose code, name and category are all empty or missing matches no term |
| ClientProducts.FilterIgnoresCase | farmapp/public/js/products.js:132 | the search ignores the letter case of the term |
| ClientProducts.FailureText | farmapp/public/js/products.js:60-69 | a refusal shows its message when it is truthy, the fallback otherwise, and never an empty text |
| ClientProducts.ThrownText | farmapp/public/js/products.js:67-69 | a thrown error shows its message, or the fallback for an empty one |
| ClientProducts.SavedText | farmapp/public/js/products.js:236-239 | the reply's message when it is truthy, otherwise `Producto creado correctamente` or `Producto actualizado correctamente` |
| ClientProducts.ProductsPage.RenderProducts | farmapp/public/js/products.js:76-128 | the rows become those of the list: the placeholder alone for an empty list, one row per product otherwise |
| ClientProducts.ProductsPage.FilterProducts | farmapp/public/js/products.js:131-148 | the rows become those of the filtered list |
| ClientProducts.ProductsPage.LoadProducts | farmapp/public/js/products.js:49-73 | a list replaces the products and is drawn and adds no alert; a refusal or a thrown error leaves both and adds one danger alert with its text (`LoadAlerts`) |
| ClientProducts.ProductsPage.HandleFormSubmit | farmapp/public/js/products.js:184-255 | an invalid form is only marked `was-validated`; otherwise the request of the form is sent; a success reloads the list, adds the reload's alerts and then the success alert, and clears the mark; a refusal or a throw adds one danger alert and changes nothing else |
| ClientCategories.CardOf | farmapp/public/js/categories.js:46-76 | the title is the name; the badge reads `Activa` exactly for a truthy status and `Inactiva` otherwise; the description or `Sin descripción`; the edit button carries the status's text |
| ClientCategories.MissingCountIsZero | farmapp/public/js/categories.js:58 | a category without a product count shows `0 productos` |
| ClientCategories.StatusFilterFollowsStatus | farmapp/public/js/categories.js:238-247 | `''` shows every card, `active` exactly the truthy statuses, `inactive` exactly the others, and any other choice none |
| ClientCategories.EmptySearchShowsAll | farmapp/public/js/categories.js:218-225 | an empty search shows every card |
| ClientCategories.SearchFindsPlaceholder | farmapp/public/js/categories.js:217-231 | the `Sin descripción` placeholder is searched like a description: `sin` finds every category without one |
| ClientCategories.EditStatusOfCard | farmapp/public/js/categories.js:101 | the dialog's checkbox is checked exactly for the status `true`; a numeric status, even 1, leaves it unchecked |
| ClientCategories.RequestOf | farmapp/public/js/categories.js:128-214 | a create posts to `/api/categories`, an edit puts and a delete deletes `/api/categories/` and the id; only create and edit carry a body, whose status is 1 exactly when the box is checked |
| ClientCategories.RequestAddresses | farmapp/public/js/categories.js:172-197 | editing and deleting a category address the same resource; different ids address different ones |
| ClientCategories.ErrorText | farmapp/public/js/categories.js:152-207 | every action has a non-empty fallback error text |
| ClientCategories.OutcomeOf | farmapp/public/js/categories.js:145-213 | a truthy `success` shows the action's success toast, closes the dialog and reloads, and only a create resets its form; otherwise a `danger` toast with the reply's message or the fallback, never empty |
| ClientCategories.OnlySuccessReloads | farmapp/public/js/categories.js:146-202 | whether a reply reloads, and the kind of its toast, do not depend on the action |
| ClientCategories.ViewsOf | farmapp/public/js/categories.js:43-78 | one card per category, in the list's order |
| ClientCategories.DrawCards | farmapp/public/js/categories.js:43-78 | one new, distinct, displayed card per view, in order |
| ClientCategories.CategoriesPage.LoadCategories | farmapp/public/js/categories.js:27-93 | an empty list shows the placeholder alone; a list gets one new displayed card per category and no toast; a value that is not a list clears the container and shows the error toast; a failed fetch only shows the error toast; the filter inputs keep their values |
| ClientCategories.CategoriesPage.Search | farmapp/public/js/categories.js:217-231 | each card is displayed exactly when its lowercased title or description contains the lowercased input; nothing else changes |
| ClientCategories.CategoriesPage.FilterStatus | farmapp/public/js/categories.js:234-249 | each card is displayed exactly when its badge fits the chosen status; nothing else changes |
| ClientCategories.CategoriesPage.ResetFilters | farmapp/public/js/categories.js:252-260 | both inputs are cleared and every card is displayed |
| ClientCategories.CategoriesPage.Answer | farmapp/public/js/categories.js:145-213 | the earlier toasts stay and the outcome's toast follows them; a failure changes nothing else; a success loads the cards again, with that load's cards, placeholder and error toast exactly as `LoadCategories` leaves them |

## Left out

- **Cryptography.**
  - Password hashing (bcryptjs) and token signing and verification
    (jsonwebtoken) are function parameters.
  - The signature and `exp` rules of RFC 7519 are not modelled.
- **Storage and Express internals.**
  - express-session, cookie-parser and Express routing internals are
    reduced to a session field, a cookie map and an ordered layer list.
  - Asynchronous handlers are straight-line methods with no interleaving.
- **SQL.**
  - SQL text, connection pools and MySQL collation are not modelled.
  - Names are ordered by code point, not by the server's collation.
  - `LIKE '%q%'` is modelled as case-sensitive substring containment.
    The server's case-insensitive collation is not modelled, and neither
    are `%` and `_` inside `q`.
  - The `UNIQUE` keys on `categories.name` and `products.barcode` compare
    by exact equality. Under the schema's `utf8mb4_unicode_ci` collation,
    names that differ only in case or trailing spaces would collide too.
  - Of the schema's constraints, only the primary keys and those two
    `UNIQUE` keys are modelled. A `NOT NULL` column, a foreign key or a
    column type can also make an insert or an update throw. The model
    shows that only through the `fault` parameter.
  - `AUTO_INCREMENT` counters move only when a row is stored. InnoDB may
    also use up a value on a failed insert. Ids stay unique either way.
- **Ids as text.** The route's `:id` arrives as path text, and MySQL casts
  it when comparing with the integer column: `'1abc'` finds id 1 and
  `'abc'` finds id 0. That cast is not modelled. The controllers take the
  id as an integer that has already been read:
  - `ProductController.ShowEditForm`, `ProductController.Update` and
    `ProductController.Delete`;
  - `CategoryController.Update` and `CategoryController.Delete`;
  - their database methods.
- **Dashboard aggregates.** The aggregates of `routes/index.js:16-90` use
  `CURDATE`, date intervals and `SUM`. Only that page's gate and render are
  modelled.
- **500 replies of read-only selections.** A failed dashboard query, or a
  failed low-stock or recent-sales query of `routes/api.js`, answers 500.
  These replies are not modelled; only the selections are.
- **`GET /products` in `routes/products.js:8-21`.** This JSON listing runs
  the same join as `ProductController.Listings`. The router model only
  records that it is reached without credentials. Its reply is not
  modelled separately.
- **fileUpload internals.**
  - Creating the upload directory (`utils/fileUpload.js:7-10`) is left out.
  - The multer limits on size and file count are left out.
  - The `path.join` of `deleteFile` is left out. Only its error rule is
    modelled.
- **Float, locale and clock helpers.** These are `formatDate`,
  `formatCurrency`, `isExpired`, `formatDateForInput`, `formatDateTime`,
  `timeAgo`, `multiply`, `add`, `subtract` and `toJSON` in
  `config/hbs-helpers.js`. They rest on floating point, `Intl`, moment and
  the clock.
- **main.js page plumbing.** This covers:
  - tooltips, popovers and the auto-hiding alerts;
  - the `data-confirm` dialogs;
  - `formatCurrency`, and the toast's DOM;
  - the print helper;
  - the currency input, which divides by 100 in floating point.
- **products.js features outside the listed behaviour.** This covers:
  - the category drop-down (`loadCategories`), `loadProductData`,
    `deleteProduct` and the delete confirmation;
  - the price column with `formatCurrency` (floating point);
  - the `purchase_price` and `sale_price` fields that `handleFormSubmit`
    reads with `parseFloat` (`products.js:200-201`), which
    `ClientProducts.ProductBody` and `ClientProducts.BodyOf` leave out
    because they are floating point;
  - the loading spinner and the modal.
- **categories.js plumbing.** Tooltips, modals, the toast's timing and the
  delete button's listener cloning are DOM work and are not modelled.
- **I/O.** This covers:
  - console logging;
  - `process.exit` (`Start.OnError` returns the exit code instead);
  - reading `setup-db.js`'s script file;
  - the server's listen and event wiring in `start.js`;
  - the steps of `setup-db.js` before `SetupDb.Import` starts: opening
    the connection, `CREATE DATABASE` and `changeUser`
    (`setup-db.js:8-23`). When any of them throws, the catch block
    (`setup-db.js:63-69`) exits with status 1.
- **Text scope.**
  - `Text.Lower` lower-cases ASCII letters only.
  - JavaScript's full Unicode case mapping is not modelled.
  - `HbsHelpers.Truncate` and `SetupDb.Excerpt` count characters.
    JavaScript's `length` and `substring` count UTF-16 code units, so text
    with characters outside the Basic Multilingual Plane is cut elsewhere.
  - `Text.ParseIntAuto` and `Text.ParseInt` return exact integers.
    JavaScript's `parseInt` returns a double, which loses precision beyond
    2^53.
- **Typed values.**
  - `ClientProducts.RowOf` takes `name` and `category_name` as strings or
    `null`. The `TypeError` that `toLowerCase` would throw on another type
    is not modelled.
  - `ClientProducts.Filtered` assumes the same value types.
- **Rendered text.**
  - `ClientCategories.CardOf` assumes a card's `textContent` equals the
    text inserted into its template. Markup inside a category name would
    be parsed by the browser, and the model does not do that.
  - `ClientCategories.CategoriesPage.LoadCategories` does not model
    what a reply that is not an array but has a `length` of 0 leaves
    behind. Such a reply draws the placeholder, so it is taken to be the
    empty list.
- **Product form choices.** Every product form is also rendered with
  `SELECT * FROM suppliers ORDER BY name`. The suppliers table is not
  modelled, so neither is that list. A failure of that `SELECT` is the
  same `fault` as a failure of the categories `SELECT` beside it.
- ShowAddForm, in `ProductController`: the form's suppliers list is not
  modelled.
- ShowEditForm, in `ProductController`: the form's suppliers list is not
  modelled.
- Add, in `ProductController`: the error form's suppliers list is not
  modelled.
- AddProduct, in `ProductController`: the error form's suppliers list is
  not modelled.
- Update, in `ProductController`: the error form's suppliers list is not
  modelled.
- UpdateProduct, in `ProductController`: the error form's suppliers list
  is not modelled.
- **Typed columns.** The products table holds each field as the text the
  query binds. The `DECIMAL(10, 2)`, `INT` and `DATE` columns
  (`config/setup-database.js:58-74`) store a converted value instead, and
  read back a price of `5` as `5.00` and a stock of `007` as 7. Column
  typing and read-back formatting are not modelled.
- ShowEditForm, in `ProductController`: shows the fields as bound, not as
  the typed columns give them back.
- AddThenEdit, in `ProductController`: the round trip holds for the text
  as bound, not for the values the typed columns give back.
- UpdateThenEdit, in `ProductController`: the round trip holds for the text
  as bound, not for the values the typed columns give back.
- Listings, in `ProductController`: lists the fields as bound, not as the
  typed columns give them back.
- Search, in `ProductController`: lists the fields as bound, not as the
  typed columns give them back.
- BodyOf, in `ClientProducts`: leaves out `purchase_price` and
  `sale_price`, read with `parseFloat`, because they are floating point.

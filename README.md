# SleepWell storefront: store, API handlers and client cart

This project models the core of the SleepWell (TrimSleep) storefront in Dafny:

- the shared data model: the three closed enumerations, each entity's stored record and its insert shape, and the column defaults;
- the in-memory store behind the HTTP API. It has eight insertion-ordered tables, each with its own id counter, seeded with the catalogue, articles, testimonials and FAQs;
- the HTTP handlers for products, articles, testimonials, FAQs, registration, carts, orders and the newsletter, reduced to the status, the body and the effect on the store;
- the browser-side cart provider:
  - it joins the stored cart lines with the catalogue and computes the total and item count;
  - it rewrites the line list on add, remove, quantity change and clear, and sends it back to the store;
- the checkout page's validation bounds, shipping rule and order construction;
- the client text and rating helpers (`truncateText`, `ratingToArray`);
- the sleep quiz's step machine;
- the header's active-link rule and cart badge.

Each source file maps to one module:

| source | module | file |
|---|---|---|
| `shared/schema.ts` | `Schema` | `schema.dfy` |
| `server/storage.ts` | `Tables` and `Storage` | `tables.dfy` and `storage.dfy` |
| `server/routes.ts` | `Routes` | `routes.dfy` |
| `client/src/context/CartContext.tsx` | `CartContext` | `cart_context.dfy` |
| `client/src/pages/CheckoutPage.tsx` | `Checkout` | `checkout.dfy` |
| `client/src/lib/utils.ts` | `Utils` | `utils.dfy` |
| `client/src/pages/SleepQuizPage.tsx` | `SleepQuiz` | `sleep_quiz.dfy` |
| `client/src/components/layout/Header.tsx` | `Header` | `header.dfy` |

`Wrappers` holds `Option` and `Result`.

The store and the cart provider are objects whose fields change in place. They are Dafny classes:

- `Storage.MemStorage` keeps one `seq` field per JavaScript `Map`, in insertion order, plus the counters.
- `CartContext.CartProvider` keeps the React state (`cartData`, `products`, `cart`).

Each class's methods name what they may modify. The quiz page's three state hooks are the class `SleepQuiz.QuizPage`. It is proved to follow the step function `SleepQuiz.Next`.

Everything else is pure and is modelled as functions with lemmas.

The store's invariant `MemStorage.Valid` covers its eight tables:

- Seven tables are only ever appended to. Each holds the ids 1..n in insertion order, and its counter is n + 1.
- The carts table, which can shrink, keeps ascending ids in [1, counter).

Every writing method and handler preserves `Valid`.

Values the program takes from the outside world are parameters:

- the current time is a `now: Time`;
- the outcome of a zod `parse` is a `Result<Insert…, string>` whose failure carries the rendered error message;
- the "is this an email" check of the checkout form is a function parameter `isEmail`.

Money is integer cents, as in the source. Quantities and prices are unbounded integers.

### Notes on the source

In both places below the model follows what the code does:

- The newsletter handler (`server/routes.ts:324-343`) checks only that `email` is a non-empty string. It does not check that the address is well formed.
- The testimonial `rating` column is declared as an integer (`shared/schema.ts:151`), but the seed data stores 4.5 and `ratingToArray` handles fractional ratings. The model keeps `rating` a `real`.

## Model

| member | source | states |
|---|---|---|
| Schema.ParseProductCategory | SleepWellSolutions_Vercel/shared/schema.ts:26 | accepts exactly "supplements", "bundles" and "accessories", and the accepted category's name is the input |
| Schema.ProductCategoryRoundTrip | SleepWellSolutions_Vercel/shared/schema.ts:26 | every product category's name parses back to that category |
| Schema.ParseArticleCategory | SleepWellSolutions_Vercel/shared/schema.ts:53-58 | accepts exactly the four article category names, and the accepted category's name is the input |
| Schema.ArticleCategoryRoundTrip | SleepWellSolutions_Vercel/shared/schema.ts:53-58 | every article category's name parses back to that category |
| Schema.ParseOrderStatus | SleepWellSolutions_Vercel/shared/schema.ts:81-87 | accepts exactly the five order status names, and the accepted status's name is the input |
| Schema.OrderStatusRoundTrip | SleepWellSolutions_Vercel/shared/schema.ts:81-87 | every order status's name parses back to that status |
| Schema.NewUser | SleepWellSolutions_Vercel/shared/schema.ts:6-23 | a stored user is the picked insert fields plus the id, and projecting it back gives the insert shape |
| Schema.NewProduct | SleepWellSolutions_Vercel/shared/schema.ts:47-50 | a stored product is its insert shape plus exactly the omitted `id` and `createdAt` |
| Schema.ProductWithDefaults | SleepWellSolutions_Vercel/shared/schema.ts:40-43 | missing `featured`/`bestSeller` become false, missing `inStock` becomes true, missing `quantity` becomes 30; given values and every other field are kept |
| Schema.NewArticle | SleepWellSolutions_Vercel/shared/schema.ts:75-78 | a stored article is its insert shape plus exactly `id` and `createdAt` |
| Schema.NewOrder | SleepWellSolutions_Vercel/shared/schema.ts:123-126 | a stored order is its insert shape plus exactly `id` and `createdAt` |
| Schema.OrderWithDefaults | SleepWellSolutions_Vercel/shared/schema.ts:92 | an order without a status gets `pending`; a given status and every other field are kept |
| Schema.NewCart | SleepWellSolutions_Vercel/shared/schema.ts:141-145 | a stored cart is its insert shape plus `id` and the two timestamps, which start equal |
| Schema.NewTestimonial | SleepWellSolutions_Vercel/shared/schema.ts:159-162 | a stored testimonial is its insert shape plus exactly `id` and `createdAt` |
| Schema.NewFaq | SleepWellSolutions_Vercel/shared/schema.ts:173-175 | a stored FAQ is its insert shape plus only the id |
| Tables.FindFirst | SleepWellSolutions_Vercel/server/storage.ts:142-146 | a by-key lookup returns the first record in insertion order that matches; none means no record matches |
| Tables.Filter | SleepWellSolutions_Vercel/server/storage.ts:148-152 | a filtered listing holds exactly the matching records of the table, and no other |
| Tables.FilterAppend | SleepWellSolutions_Vercel/server/storage.ts:148-152 | filtering a table grown by appends equals filtering the old part then the new part, so listings keep insertion order |
| Tables.FindFirstAppend | SleepWellSolutions_Vercel/server/storage.ts:114-118 | once a key has a match, later inserts never change which record a lookup returns |
| Tables.AppendKeepsDense | SleepWellSolutions_Vercel/server/storage.ts:126-131 | creating with the counter as id and bumping it keeps ids 1..n in insertion order and the counter at n + 1 |
| Tables.DenseIndexOfId | SleepWellSolutions_Vercel/server/storage.ts:293-295 | in an append-only table the record with id `id` exists exactly when 1 <= id < counter, and it is the id-th inserted |
| Tables.AppendKeepsIds | SleepWellSolutions_Vercel/server/storage.ts:251-262 | creating a cart keeps the cart ids ascending, at least 1 and below the counter |
| Tables.RemoveKeepsIds | SleepWellSolutions_Vercel/server/storage.ts:278-280 | deleting a cart keeps the cart ids ascending and within range |
| Tables.RemoveAt | SleepWellSolutions_Vercel/server/storage.ts:278-280 | deleting a record drops exactly that record and keeps the order of the others |
| Storage.MergeCart | SleepWellSolutions_Vercel/server/storage.ts:264-276 | each field present in the patch replaces the stored one, absent ones are kept, id and createdAt never change, updatedAt becomes now |
| Storage.MemStorage.constructor | SleepWellSolutions_Vercel/server/storage.ts:83-107 | empty tables, every counter at 1, then 3 products, 3 articles, 3 testimonials and 5 FAQs seeded, with the invariant established |
| Storage.MemStorage.SeedAll | SleepWellSolutions_Vercel/server/storage.ts:103-106 | seeding the four empty tables fills them with 3, 3, 3 and 5 records and keeps the invariant |
| Storage.MemStorage.SeedProductTable | SleepWellSolutions_Vercel/server/storage.ts:394-396 | the i-th seeded product is the i-th seed record with id i + 1 |
| Storage.MemStorage.SeedArticleTable | SleepWellSolutions_Vercel/server/storage.ts:646-648 | the i-th seeded article is the i-th seed record with id i + 1 |
| Storage.MemStorage.SeedTestimonialTable | SleepWellSolutions_Vercel/server/storage.ts:679-681 | the i-th seeded testimonial is the i-th seed record with id i + 1 |
| Storage.MemStorage.SeedFaqTable | SleepWellSolutions_Vercel/server/storage.ts:718-720 | the i-th seeded FAQ is the i-th seed record with id i + 1 |
| Storage.MemStorage.GetUser | SleepWellSolutions_Vercel/server/storage.ts:110-112 | returns a stored user with that id, and none exactly when no user has it |
| Storage.MemStorage.GetUserByUsername | SleepWellSolutions_Vercel/server/storage.ts:114-118 | returns a stored user with that username, and none exactly when no user has it |
| Storage.MemStorage.GetUserByEmail | SleepWellSolutions_Vercel/server/storage.ts:120-124 | returns a stored user with that email, and none exactly when no user has it |
| Storage.MemStorage.CreateUser | SleepWellSolutions_Vercel/server/storage.ts:126-131 | appends the user with the counter's id, bumps the counter and keeps the invariant |
| Storage.MemStorage.GetProduct | SleepWellSolutions_Vercel/server/storage.ts:138-140 | returns a stored product with that id, and none exactly when no product has it |
| Storage.MemStorage.GetProductBySlug | SleepWellSolutions_Vercel/server/storage.ts:142-146 | returns the earliest product with that slug, and none exactly when no product has it |
| Storage.MemStorage.GetFeaturedProducts | SleepWellSolutions_Vercel/server/storage.ts:148-152 | exactly the stored products whose featured flag is true |
| Storage.MemStorage.GetBestSellerProducts | SleepWellSolutions_Vercel/server/storage.ts:154-158 | exactly the stored products whose bestSeller flag is true |
| Storage.MemStorage.GetProductsByCategory | SleepWellSolutions_Vercel/server/storage.ts:160-164 | exactly the products whose category name is the string; a string naming no category gives an empty list |
| Storage.MemStorage.CreateProduct | SleepWellSolutions_Vercel/server/storage.ts:166-172 | appends the product with the counter's id and `now`, bumps the counter and keeps the invariant |
| Storage.MemStorage.GetArticle | SleepWellSolutions_Vercel/server/storage.ts:179-181 | returns a stored article with that id, and none exactly when no article has it |
| Storage.MemStorage.GetArticleBySlug | SleepWellSolutions_Vercel/server/storage.ts:183-187 | returns the earliest article with that slug, and none exactly when no article has it |
| Storage.MemStorage.GetFeaturedArticles | SleepWellSolutions_Vercel/server/storage.ts:189-193 | exactly the stored articles whose featured flag is true |
| Storage.MemStorage.GetArticlesByCategory | SleepWellSolutions_Vercel/server/storage.ts:195-199 | exactly the articles whose category name is the string; a string naming no category gives an empty list |
| Storage.MemStorage.CreateArticle | SleepWellSolutions_Vercel/server/storage.ts:201-207 | appends the article with the counter's id and `now`, bumps the counter and keeps the invariant |
| Storage.MemStorage.GetFeaturedTestimonials | SleepWellSolutions_Vercel/server/storage.ts:214-218 | exactly the stored testimonials whose featured flag is true |
| Storage.MemStorage.CreateTestimonial | SleepWellSolutions_Vercel/server/storage.ts:220-226 | appends the testimonial with the counter's id and `now`, bumps the counter and keeps the invariant |
| Storage.MemStorage.CreateFaq | SleepWellSolutions_Vercel/server/storage.ts:233-238 | appends the FAQ with the counter's id, bumps the counter and keeps the invariant |
| Storage.MemStorage.GetCart | SleepWellSolutions_Vercel/server/storage.ts:241-243 | returns a stored cart with that id, and none exactly when no cart has it |
| Storage.MemStorage.GetCartBySessionId | SleepWellSolutions_Vercel/server/storage.ts:245-249 | returns the earliest cart of that session, and none exactly when no cart carries it |
| Storage.MemStorage.CreateCart | SleepWellSolutions_Vercel/server/storage.ts:251-262 | appends the cart with the counter's id and both timestamps `now`, without checking for an existing session cart |
| Storage.MemStorage.UpdateCart | SleepWellSolutions_Vercel/server/storage.ts:264-276 | a missing id changes nothing and gives none; otherwise the cart is replaced in place by the merge and returned |
| Storage.MemStorage.DeleteCart | SleepWellSolutions_Vercel/server/storage.ts:278-280 | true exactly when the cart existed; that cart alone is removed, and afterwards no cart has the id |
| Storage.MemStorage.GetUserOrders | SleepWellSolutions_Vercel/server/storage.ts:287-291 | exactly the stored orders whose userId is the given user |
| Storage.MemStorage.GetOrder | SleepWellSolutions_Vercel/server/storage.ts:293-295 | returns a stored order with that id, and none exactly when no order has it |
| Storage.MemStorage.CreateOrder | SleepWellSolutions_Vercel/server/storage.ts:297-303 | appends the order with the counter's id and `now`, bumps the counter and keeps the invariant |
| Storage.MemStorage.UpdateOrderStatus | SleepWellSolutions_Vercel/server/storage.ts:305-316 | a missing id changes nothing; otherwise only that order's status changes, in place |
| Storage.MemStorage.IsEmailSubscribed | SleepWellSolutions_Vercel/server/storage.ts:335-339 | true exactly when some newsletter record has the email |
| Storage.MemStorage.SubscribeToNewsletter | SleepWellSolutions_Vercel/server/storage.ts:319-333 | idempotent: a subscribed email returns its earliest record and changes nothing; a new one is appended with the counter's id |
| Routes.WithPassword | SleepWellSolutions_Vercel/server/routes.ts:218-220 | putting the password back on the public user undoes the omission |
| Routes.WithoutPassword | SleepWellSolutions_Vercel/server/routes.ts:218-219 | the public user keeps the id, username, email, names and phone number of the stored user |
| Routes.PasswordIsTheOnlyOmission | SleepWellSolutions_Vercel/server/routes.ts:218-220 | the registration response loses only the password: with it, the stored user is recovered |
| Routes.GetProductBySlug | SleepWellSolutions_Vercel/server/routes.ts:67-80 | 404 "Product not found" exactly when no product has the slug, otherwise 200 with the earliest product carrying it |
| Routes.GetArticleBySlug | SleepWellSolutions_Vercel/server/routes.ts:122-135 | 404 "Article not found" exactly when no article has the slug, otherwise 200 with the earliest article carrying it |
| Routes.PostProduct | SleepWellSolutions_Vercel/server/routes.ts:82-91 | 400 with the validation message and no change, counter included, or 201 with the product just appended under the counter's id and the counter bumped |
| Routes.PostArticle | SleepWellSolutions_Vercel/server/routes.ts:137-146 | 400 with the validation message and no change, counter included, or 201 with the article just appended under the counter's id and the counter bumped |
| Routes.PostTestimonial | SleepWellSolutions_Vercel/server/routes.ts:167-176 | 400 with the validation message and no change, counter included, or 201 with the testimonial just appended under the counter's id and the counter bumped |
| Routes.PostFaq | SleepWellSolutions_Vercel/server/routes.ts:188-197 | 400 with the validation message and no change, counter included, or 201 with the FAQ just appended under the counter's id and the counter bumped |
| Routes.AppendKeepsUnique | SleepWellSolutions_Vercel/shared/schema.ts:8-10 | adding an account whose username and email are both new keeps usernames and emails unique |
| Routes.Register | SleepWellSolutions_Vercel/server/routes.ts:200-225 | a bad body, then a taken username, then a taken email give 400 with no change; otherwise 201 with the new user minus its password; unique accounts stay unique |
| Routes.EmptyCart | SleepWellSolutions_Vercel/server/routes.ts:234 | the answer for a session without a cart has id 0, the session and no lines |
| Routes.GetCart | SleepWellSolutions_Vercel/server/routes.ts:228-242 | always 200 with a cart of the session: the earliest stored one if any, otherwise the empty sentinel |
| Routes.SentinelIsNotStored | SleepWellSolutions_Vercel/server/routes.ts:228-242 | the answered cart has id 0 exactly when the session has no stored cart |
| Routes.PostCart | SleepWellSolutions_Vercel/server/routes.ts:244-253 | 400 with the validation message and no change, or 201 with a new cart appended under the counter's id, even when the session has one, and the counter bumped |
| Routes.PutCart | SleepWellSolutions_Vercel/server/routes.ts:255-269 | 404 "Cart not found" and no change for a missing id; otherwise 200 with the merged cart, which replaces that cart in place and leaves every other cart as it was |
| Routes.DeleteCart | SleepWellSolutions_Vercel/server/routes.ts:271-284 | 204 exactly when the cart existed, and the table is the old one with that cart removed; otherwise 404 "Cart not found" and no change; no cart has the id afterwards |
| Routes.PostOrder | SleepWellSolutions_Vercel/server/routes.ts:287-296 | 400 with the validation message and no change, counter included, or 201 with the order just appended under the counter's id and the counter bumped |
| Routes.GetOrder | SleepWellSolutions_Vercel/server/routes.ts:298-311 | 404 "Order not found" exactly when no order has the id, otherwise 200 with that order |
| Routes.GetOrderFound | SleepWellSolutions_Vercel/server/routes.ts:298-311 | an order id answers 200 exactly when it is at least 1 and below the order counter |
| Routes.GetUserOrders | SleepWellSolutions_Vercel/server/routes.ts:313-321 | always 200 with exactly the orders of that user |
| Routes.Subscribe | SleepWellSolutions_Vercel/server/routes.ts:324-343 | a missing or empty email gives 400 "Email is required"; a subscribed one 200 and no change; a new one 201 and one record appended; unless 400, the email is subscribed afterwards |
| CartContext.Strip | SleepWellSolutions_Vercel/client/src/context/CartContext.tsx:144-146 | dropping the product keeps each line's product id and quantity, position by position |
| CartContext.ProductById | SleepWellSolutions_Vercel/client/src/context/CartContext.tsx:74 | finds a catalogue product with the id, and none exactly when no catalogue product has the id |
| CartContext.Join | SleepWellSolutions_Vercel/client/src/context/CartContext.tsx:68-91 | every joined item carries a catalogue product whose id is the line's, and no line is added |
| CartContext.JoinKeepsKnownLines | SleepWellSolutions_Vercel/client/src/context/CartContext.tsx:73-79 | the join keeps exactly the lines with a known product, in order, unchanged |
| CartContext.JoinStripRoundTrip | SleepWellSolutions_Vercel/client/src/context/CartContext.tsx:73-79 | re-joining the stripped lines of a joined cart gives the same items back |
| CartContext.ToClient | SleepWellSolutions_Vercel/client/src/context/CartContext.tsx:68-91 | the shown cart keeps the server cart's id and owner, and its lines are the server lines with a known product |
| CartContext.UnitPrice | SleepWellSolutions_Vercel/client/src/context/CartContext.tsx:96 | a non-zero sale price is charged, and a missing or zero one falls back to the list price |
| CartContext.Total | SleepWellSolutions_Vercel/client/src/context/CartContext.tsx:94-100 | an empty list totals 0, and a list with no negative price or quantity never totals below 0 |
| CartContext.ItemCount | SleepWellSolutions_Vercel/client/src/context/CartContext.tsx:103-106 | an empty list counts 0 |
| CartContext.CartTotal | SleepWellSolutions_Vercel/client/src/context/CartContext.tsx:94-100 | no cart, or a cart without items, totals 0 |
| CartContext.CartItemCount | SleepWellSolutions_Vercel/client/src/context/CartContext.tsx:103-106 | no cart, or a cart without items, counts 0 |
| CartContext.TotalAppend | SleepWellSolutions_Vercel/client/src/context/CartContext.tsx:94-100 | the total of two item lists joined is the sum of their totals |
| CartContext.ItemCountAppend | SleepWellSolutions_Vercel/client/src/context/CartContext.tsx:103-106 | the item count of two line lists joined is the sum of their counts |
| CartContext.ItemCountAtLeastLines | SleepWellSolutions_Vercel/client/src/context/CartContext.tsx:103-106 | with every quantity at least 1, the item count is at least the number of lines |
| CartContext.Occurrences | SleepWellSolutions_Vercel/client/src/context/CartContext.tsx:134 | zero exactly when no line carries the product |
| CartContext.Bump | SleepWellSolutions_Vercel/client/src/context/CartContext.tsx:138-142 | every line of the product gains the quantity, other lines and the order are untouched |
| CartContext.AddLine | SleepWellSolutions_Vercel/client/src/context/CartContext.tsx:134-157 | an existing product's lines are bumped; a new product is appended as one line |
| CartContext.BumpItemCount | SleepWellSolutions_Vercel/client/src/context/CartContext.tsx:138-142 | bumping adds the quantity once per line of the product to the item count |
| CartContext.DistinctOccursOnce | SleepWellSolutions_Vercel/client/src/context/CartContext.tsx:134 | in a cart without repeated products a present product has exactly one line |
| CartContext.AddLineItemCount | SleepWellSolutions_Vercel/client/src/context/CartContext.tsx:134-157 | with distinct products, adding raises the item count by exactly the quantity and adds a line only for a new product |
| CartContext.AddLineKeepsDistinct | SleepWellSolutions_Vercel/client/src/context/CartContext.tsx:134-157 | adding never creates a second line for a product |
| CartContext.RemoveLines | SleepWellSolutions_Vercel/client/src/context/CartContext.tsx:183 | keeps exactly the lines of other products, and none of the removed product |
| CartContext.RemoveLinesItemCount | SleepWellSolutions_Vercel/client/src/context/CartContext.tsx:183 | the item count drops by exactly the removed product's quantities |
| CartContext.Clamp | SleepWellSolutions_Vercel/client/src/context/CartContext.tsx:211-213 | a quantity below 1 becomes 1, any other is kept |
| CartContext.SetQuantity | SleepWellSolutions_Vercel/client/src/context/CartContext.tsx:216-220 | every line of the product gets the clamped quantity, other lines and the order are untouched |
| CartContext.SetQuantityKeepsPositive | SleepWellSolutions_Vercel/client/src/context/CartContext.tsx:207-236 | setting a quantity keeps every quantity at least 1, and repeating it changes nothing |
| CartContext.CartProvider.constructor | SleepWellSolutions_Vercel/client/src/context/CartContext.tsx:55-64 | the provider starts with no cart data, no catalogue and no shown cart |
| CartContext.CartProvider.Fetched | SleepWellSolutions_Vercel/client/src/context/CartContext.tsx:55-91 | the cart shown after a fetch belongs to the provider's session |
| CartContext.CartProvider.Sync | SleepWellSolutions_Vercel/client/src/context/CartContext.tsx:68-91 | once cart data and catalogue are both present the shown cart is their join; otherwise it is unchanged |
| CartContext.CartProvider.LoadProducts | SleepWellSolutions_Vercel/client/src/context/CartContext.tsx:62-64 | the catalogue becomes the store's products and the shown cart is re-joined |
| CartContext.CartProvider.Refetch | SleepWellSolutions_Vercel/client/src/context/CartContext.tsx:55-59 | the cart data becomes the server's answer for the session, and the shown cart its join |
| CartContext.CartProvider.CreateWithLine | SleepWellSolutions_Vercel/client/src/context/CartContext.tsx:123-131 | appends a cart of the session holding the one line under the counter's id, bumps the counter and re-fetches |
| CartContext.CartProvider.SendLines | SleepWellSolutions_Vercel/client/src/context/CartContext.tsx:144-146 | a missing cart changes neither the carts nor the provider's data; otherwise that cart alone is replaced in place by its merge with the new lines and the cart is re-fetched |
| CartContext.CartProvider.DeleteAndRecreate | SleepWellSolutions_Vercel/client/src/context/CartContext.tsx:243-249 | succeeds exactly when the cart existed; then the table loses that cart and gains an empty cart for the session under the counter's id, otherwise nothing changes |
| CartContext.CartProvider.AddToStoredCart | SleepWellSolutions_Vercel/client/src/context/CartContext.tsx:132-160 | a missing cart changes nothing; otherwise that cart alone is replaced in place by its merge with the added lines and the cart is re-fetched |
| CartContext.CartProvider.AddToCart | SleepWellSolutions_Vercel/client/src/context/CartContext.tsx:109-176 | no catalogue, an unknown product or a vanished cart changes nothing, neither the carts, the cart counter nor the provider's data; with no stored cart a one-line cart for the session is appended under the counter's id and the counter is bumped; otherwise that cart alone is replaced in place by its merge with the added lines, the other carts and the counter are untouched, and the cart is re-fetched |
| CartContext.CartProvider.RemoveFromCart | SleepWellSolutions_Vercel/client/src/context/CartContext.tsx:179-204 | without a stored cart nothing changes, the provider's data included; otherwise that cart alone is replaced in place by its merge with the lines minus the product, the other carts are untouched, and the cart is re-fetched |
| CartContext.CartProvider.UpdateCartItemQuantity | SleepWellSolutions_Vercel/client/src/context/CartContext.tsx:207-236 | without a stored cart nothing changes, the provider's data included; otherwise that cart alone is replaced in place by its merge with the lines carrying the clamped quantity, the other carts are untouched, and the cart is re-fetched |
| CartContext.CartProvider.ClearCart | SleepWellSolutions_Vercel/client/src/context/CartContext.tsx:239-260 | without a stored cart nothing changes, neither the carts, the cart counter nor the provider's data; otherwise the table is the old one minus that cart, plus an empty cart for the session appended under the counter's id |
| Checkout.DefaultForm | SleepWellSolutions_Vercel/client/src/pages/CheckoutPage.tsx:58-78 | the form opens with country "US" and the same-address box ticked, and whatever counts as an email it does not validate |
| Checkout.FormValid | SleepWellSolutions_Vercel/client/src/pages/CheckoutPage.tsx:31-48 | a valid form has a well-formed email, a phone of at least 10 characters, a card number longer than its CVV, and yields a shipping address meeting every minimum length |
| Checkout.Shipping | SleepWellSolutions_Vercel/client/src/pages/CheckoutPage.tsx:500 | shipping is 0 exactly from 5000 cents up, 499 below |
| Checkout.OrderTotal | SleepWellSolutions_Vercel/client/src/pages/CheckoutPage.tsx:94 | the order total is the cart total plus its shipping |
| Checkout.ThresholdExamples | SleepWellSolutions_Vercel/client/src/pages/CheckoutPage.tsx:94 | 4999 cents pay 5498 and 5000 pay 5000: the threshold is inclusive and not monotone |
| Checkout.Snapshot | SleepWellSolutions_Vercel/client/src/pages/CheckoutPage.tsx:95-100 | each order line copies the item's id and quantity and freezes its unit price and product name |
| Checkout.SnapshotTotal | SleepWellSolutions_Vercel/client/src/pages/CheckoutPage.tsx:94-100 | the frozen lines, summed by `LinesTotal` as price times quantity, add up to the cart total |
| Checkout.ShippingAddress | SleepWellSolutions_Vercel/client/src/pages/CheckoutPage.tsx:101-110 | every one of the eight address fields is taken from the matching form field |
| Checkout.BillingAddress | SleepWellSolutions_Vercel/client/src/pages/CheckoutPage.tsx:111-122 | no billing address exactly when "same as billing" is ticked, otherwise a copy of the shipping address |
| Checkout.BuildOrder | SleepWellSolutions_Vercel/client/src/pages/CheckoutPage.tsx:81-123 | no order exactly when there is no cart or it is empty; otherwise an anonymous pending order with the shipped total, the frozen lines, the form's shipping address and its billing address |
| Checkout.OrderChargesLinesPlusShipping | SleepWellSolutions_Vercel/client/src/pages/CheckoutPage.tsx:91-123 | an order charges its lines' sum plus that sum's shipping |
| Checkout.SubmittedAddressesValid | SleepWellSolutions_Vercel/client/src/pages/CheckoutPage.tsx:101-122 | an order built from a valid form carries a shipping address, and a billing address if any, that meet the form's minimum lengths |
| Utils.SliceEnd | SleepWellSolutions_Vercel/client/src/lib/utils.ts:19 | `slice`'s end stays within the text; a negative end counts back from the length |
| Utils.TruncateText | SleepWellSolutions_Vercel/client/src/lib/utils.ts:17-20 | a short text is returned as is; a long one is cut and gets "...", keeping its first maxLength characters |
| Utils.TruncateTwice | SleepWellSolutions_Vercel/client/src/lib/utils.ts:17-20 | truncating twice to the same non-negative length is truncating once |
| Utils.FullStars | SleepWellSolutions_Vercel/client/src/lib/utils.ts:42-48 | the full-star loop runs floor(rating) times, never more than the rating, none for a negative floor |
| Utils.Repeat | SleepWellSolutions_Vercel/client/src/lib/utils.ts:46-58 | n copies of the value |
| Utils.HasHalfStar | SleepWellSolutions_Vercel/client/src/lib/utils.ts:43 | a half star exactly when the rating lies strictly above its floor |
| Utils.Stars | SleepWellSolutions_Vercel/client/src/lib/utils.ts:40-61 | at least five entries, each a full, half or empty star |
| Utils.RatingToArray | SleepWellSolutions_Vercel/client/src/lib/utils.ts:40-61 | the pushing loops produce exactly the star list of the rating |
| Utils.StarsLength | SleepWellSolutions_Vercel/client/src/lib/utils.ts:40-61 | at least five entries, and exactly five for a rating between 0 and 5 |
| Utils.StarsNonIncreasing | SleepWellSolutions_Vercel/client/src/lib/utils.ts:40-61 | for a non-negative rating the entries never increase left to right |
| Utils.StarsHalfStar | SleepWellSolutions_Vercel/client/src/lib/utils.ts:43-53 | a 0.5 entry appears exactly when the rating has a fraction, at most once, right after the full stars |
| SleepQuiz.Next | SleepWellSolutions_Vercel/client/src/pages/SleepQuizPage.tsx:72-108 | steps 0 and 1 advance only with their answers given, step 2 always advances, step 3 stores the answers and shows results only with email and name |
| SleepQuiz.Prev | SleepWellSolutions_Vercel/client/src/pages/SleepQuizPage.tsx:110-112 | one step back, results and answers untouched |
| SleepQuiz.Enabled | SleepWellSolutions_Vercel/client/src/pages/SleepQuizPage.tsx:640-655 | no button is shown once results are, and a shown Previous button never leads below step 0 |
| SleepQuiz.StepKeepsReachable | SleepWellSolutions_Vercel/client/src/pages/SleepQuizPage.tsx:640-655 | a click on a shown button keeps the step in 0..3 and results only on step 3 with contact details |
| SleepQuiz.RunKeepsReachable | SleepWellSolutions_Vercel/client/src/pages/SleepQuizPage.tsx:640-655 | any sequence of clicks keeps those facts |
| SleepQuiz.InitialRunsStayInRange | SleepWellSolutions_Vercel/client/src/pages/SleepQuizPage.tsx:48-50 | from the opening page, no clicks leave steps 0 to 3 |
| SleepQuiz.QuizPage.constructor | SleepWellSolutions_Vercel/client/src/pages/SleepQuizPage.tsx:48-50 | the page opens on step 0 without results or answers |
| SleepQuiz.QuizPage.NextStep | SleepWellSolutions_Vercel/client/src/pages/SleepQuizPage.tsx:72-108 | the state setters leave the page in the state `Next` gives |
| SleepQuiz.QuizPage.PrevStep | SleepWellSolutions_Vercel/client/src/pages/SleepQuizPage.tsx:110-112 | the state setter leaves the page in the state `Prev` gives |
| Header.Split | SleepWellSolutions_Vercel/client/src/components/layout/Header.tsx:22-23 | at least one piece, none containing a slash |
| Header.SplitJoin | SleepWellSolutions_Vercel/client/src/components/layout/Header.tsx:22-23 | joining the pieces with slashes gives the path back |
| Header.SplitSegment | SleepWellSolutions_Vercel/client/src/components/layout/Header.tsx:22-23 | a piece without slashes splits into itself |
| Header.SplitPrefix | SleepWellSolutions_Vercel/client/src/components/layout/Header.tsx:22-23 | a slash-free prefix is glued to the first piece of the rest |
| Header.SecondPiece | SleepWellSolutions_Vercel/client/src/components/layout/Header.tsx:22-23 | a present second piece has no slash |
| Header.Section | SleepWellSolutions_Vercel/client/src/components/layout/Header.tsx:22-23 | the section is "/" exactly for the root path |
| Header.IsActive | SleepWellSolutions_Vercel/client/src/components/layout/Header.tsx:21-25 | a link is active on its own path, and an active link is "/" exactly when the page is |
| Header.HomeActiveOnlyAtRoot | SleepWellSolutions_Vercel/client/src/components/layout/Header.tsx:21-25 | the home link is active exactly on "/" |
| Header.SectionOfSubpath | SleepWellSolutions_Vercel/client/src/components/layout/Header.tsx:21-25 | "/seg" and every path below it fall in section seg |
| Header.SubpathHighlightsSection | SleepWellSolutions_Vercel/client/src/components/layout/Header.tsx:38-49 | a link "/seg" is active on "/seg" and on every page below it |
| Header.SameSectionSameLinks | SleepWellSolutions_Vercel/client/src/components/layout/Header.tsx:21-25 | two pages in the same section highlight the same links |
| Header.BadgeCount | SleepWellSolutions_Vercel/client/src/components/layout/Header.tsx:18 | the badge counts lines: 0 without a cart |
| Header.ShowBadge | SleepWellSolutions_Vercel/client/src/components/layout/Header.tsx:18-56 | the badge shows exactly for a cart with at least one line |
| Header.BadgeAtMostItemCount | SleepWellSolutions_Vercel/client/src/components/layout/Header.tsx:18-56 | the badge never exceeds the cart's item count, and shows exactly for a cart with lines |

## Left out

- Error paths that only a failing store could reach: every `catch` that answers 500, and the 400 answer to an exception thrown while updating a cart (`server/routes.ts:266-268`). The in-memory store never throws.
- The zod schemas' internals: insert-body validation arrives already decided, as a `Result`. The checkout form's email rule is the parameter `isEmail`. The quiz's enum and email rules are left out: the page's `nextStep` checks only that answers are truthy.
- `Number(id)` on route parameters: ids arrive as integers, so a non-numeric id (`NaN`, which matches no record) is not modelled.
- Timestamps: `new Date()` is the parameter `now`. Nothing is proved about clocks.
- The seed records' long Italian texts and image URLs are elided. Names, slugs, prices, flags, categories and counts are kept.
- The list getters without a filter (`getProducts`, `getArticles`, `getTestimonials`, `getFAQs`, `getOrders`) return a whole table. They are the table fields themselves. Their routes, and the featured and category routes that only forward to modelled getters, are not modelled separately.
- Storage.MemStorage.UpdateOrderStatus: takes an `OrderStatus` rather than an arbitrary string. No route calls it.
- Routes.GetProductBySlug and Routes.GetArticleBySlug: modelled without express's route order. The fixed routes `/api/products/featured`, `/api/products/bestsellers` and `/api/articles/featured` (`server/routes.ts:39,48,103`) are registered first, so those three words never reach the slug handlers; the model would look them up as slugs.
- Routes.PutCart: the body is modelled as a `CartPatch` of the three insert fields. Extra fields, including `id`, `createdAt` and `updatedAt`, which the source would spread into the stored record, are not modelled.
- CartContext.CartProvider: the model assumes `apiRequest` throws on any non-2xx status, so the `refetch` after a refused request never runs. The request helper (`lib/queryClient`) is not part of this model.
- CartContext.CartProvider: the client's POST bodies are taken to validate. Request failures, toasts, loading flags, `isInitialized` and the concurrency of overlapping requests are not modelled. Each method runs to completion.
- CartContext.CartProvider.RemoveFromCart and CartContext.CartProvider.UpdateCartItemQuantity: the re-fetched cart is stated only when the catalogue is loaded. Without a catalogue the shown cart is left unspecified.
- String lengths are counted in characters, not UTF-16 code units.
- `formatPrice`, `generateSessionId`, `getSessionId` and `createMarkup` are left out: locale formatting, randomness and browser storage.
- The checkout `onSubmit` side effects (the POST itself, `clearCart`, the toast and navigation) are left out. The order object it posts is `BuildOrder`, and the POST is `Routes.PostOrder`.
- The quiz's `onSubmit`, the progress bar, the results text and the per-step rendering are left out. The quiz state is kept to the step, the results flag and the stored answers.
- Testimonial ratings are `real`: the integer column type is not enforced on the model's records.

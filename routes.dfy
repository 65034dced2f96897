/**
 * The HTTP handlers of the API, reduced to their decisions: which status and
 * which body each request gets, and what it does to the store. A handler that
 * only reads is a function of the store; one that writes is a method whose
 * frame names the tables it may touch.
 *
 * A request body is given already validated: the outcome of the insert
 * schema's `parse` is a `Result`, whose failure carries the message the
 * validation error would be rendered as.
 */
module Routes {
  import opened Wrappers
  import opened Schema
  import opened Tables
  import opened Storage

  /** A user as the registration response shows it: every field but the password. */
  datatype PublicUser = PublicUser(
    id: int, username: string, email: string,
    firstName: Option<string>, lastName: Option<string>, phoneNumber: Option<string>)

  datatype Body =
    | Message(text: string)
    | UserBody(user: PublicUser)
    | ProductBody(product: Product)
    | ArticleBody(article: Article)
    | TestimonialBody(testimonial: Testimonial)
    | FaqBody(faq: Faq)
    | CartBody(cart: Cart)
    | OrderBody(order: Order)
    | OrderList(orders: seq<Order>)
    | NoContent

  datatype Response = Response(status: int, body: Body)

  /** `const { password, ...userWithoutPassword } = user`: every field but the password, unchanged. */
  function WithoutPassword(u: User): (r: PublicUser)
    ensures r.id == u.id && r.username == u.username && r.email == u.email
    ensures r.firstName == u.firstName && r.lastName == u.lastName && r.phoneNumber == u.phoneNumber
  {
    PublicUser(u.id, u.username, u.email, u.firstName, u.lastName, u.phoneNumber)
  }

  /** Puts a password back on a public user; the inverse of `WithoutPassword`. */
  function WithPassword(p: PublicUser, password: string): (r: User)
    ensures WithoutPassword(r) == p && r.password == password
  {
    User(p.id, p.username, password, p.email, p.firstName, p.lastName, p.phoneNumber)
  }

  /** Only the password is dropped: the public user and the password give back the stored user. */
  lemma PasswordIsTheOnlyOmission(u: User)
    ensures WithPassword(WithoutPassword(u), u.password) == u
  {
  }

  /** A 400 response carrying a validation message. */
  function BadRequest(message: string): Response {
    Response(400, Message(message))
  }

  // ---------------------------------------------------------------- catalogue and articles

  /** `GET /api/products/:slug`: the earliest product with the slug, or 404. */
  function GetProductBySlug(store: MemStorage, slug: string): (r: Response)
    reads store
    ensures r.status == 404 <==> forall i :: 0 <= i < |store.products| ==> store.products[i].slug != slug
    ensures r.status == 404 ==> r.body == Message("Product not found")
    ensures r.status != 404 ==> r.status == 200 && r.body.ProductBody? &&
                                r.body.product in store.products && r.body.product.slug == slug
    ensures r.status != 404 ==> exists k :: 0 <= k < |store.products| && store.products[k] == r.body.product &&
                                  forall j :: 0 <= j < k ==> store.products[j].slug != slug
  {
    match store.GetProductBySlug(slug)
    case None => Response(404, Message("Product not found"))
    case Some(p) => Response(200, ProductBody(p))
  }

  /** `GET /api/articles/:slug`: the earliest article with the slug, or 404. */
  function GetArticleBySlug(store: MemStorage, slug: string): (r: Response)
    reads store
    ensures r.status == 404 <==> forall i :: 0 <= i < |store.articles| ==> store.articles[i].slug != slug
    ensures r.status == 404 ==> r.body == Message("Article not found")
    ensures r.status != 404 ==> r.status == 200 && r.body.ArticleBody? &&
                                r.body.article in store.articles && r.body.article.slug == slug
    ensures r.status != 404 ==> exists k :: 0 <= k < |store.articles| && store.articles[k] == r.body.article &&
                                  forall j :: 0 <= j < k ==> store.articles[j].slug != slug
  {
    match store.GetArticleBySlug(slug)
    case None => Response(404, Message("Article not found"))
    case Some(a) => Response(200, ArticleBody(a))
  }

  /** `POST /api/products`: 201 with the stored product, or 400 when the body does not validate. */
  method PostProduct(store: MemStorage, parsed: Result<InsertProduct, string>, now: Time) returns (r: Response)
    requires store.Valid()
    modifies store`products, store`productIdCounter
    ensures store.Valid()
    ensures parsed.Failure? ==> r == BadRequest(parsed.error) && store.products == old(store.products) &&
                                store.productIdCounter == old(store.productIdCounter)
    ensures parsed.Success? ==>
              r == Response(201, ProductBody(NewProduct(parsed.value, old(store.productIdCounter), now))) &&
              store.products == old(store.products) + [r.body.product] && store.productIdCounter == old(store.productIdCounter) + 1
  {
    match parsed
    case Failure(e) =>
      r := BadRequest(e);
    case Success(p) =>
      var product := store.CreateProduct(p, now);
      r := Response(201, ProductBody(product));
  }

  /** `POST /api/articles`: 201 with the stored article, or 400 when the body does not validate. */
  method PostArticle(store: MemStorage, parsed: Result<InsertArticle, string>, now: Time) returns (r: Response)
    requires store.Valid()
    modifies store`articles, store`articleIdCounter
    ensures store.Valid()
    ensures parsed.Failure? ==> r == BadRequest(parsed.error) && store.articles == old(store.articles) &&
                                store.articleIdCounter == old(store.articleIdCounter)
    ensures parsed.Success? ==>
              r == Response(201, ArticleBody(NewArticle(parsed.value, old(store.articleIdCounter), now))) &&
              store.articles == old(store.articles) + [r.body.article] && store.articleIdCounter == old(store.articleIdCounter) + 1
  {
    match parsed
    case Failure(e) =>
      r := BadRequest(e);
    case Success(a) =>
      var article := store.CreateArticle(a, now);
      r := Response(201, ArticleBody(article));
  }

  /** `POST /api/testimonials`: 201 with the stored testimonial, or 400 when the body does not validate. */
  method PostTestimonial(store: MemStorage, parsed: Result<InsertTestimonial, string>, now: Time) returns (r: Response)
    requires store.Valid()
    modifies store`testimonials, store`testimonialIdCounter
    ensures store.Valid()
    ensures parsed.Failure? ==> r == BadRequest(parsed.error) && store.testimonials == old(store.testimonials) &&
                                store.testimonialIdCounter == old(store.testimonialIdCounter)
    ensures parsed.Success? ==>
              r == Response(201, TestimonialBody(NewTestimonial(parsed.value, old(store.testimonialIdCounter), now))) &&
              store.testimonials == old(store.testimonials) + [r.body.testimonial] && store.testimonialIdCounter == old(store.testimonialIdCounter) + 1
  {
    match parsed
    case Failure(e) =>
      r := BadRequest(e);
    case Success(t) =>
      var testimonial := store.CreateTestimonial(t, now);
      r := Response(201, TestimonialBody(testimonial));
  }

  /** `POST /api/faqs`: 201 with the stored FAQ, or 400 when the body does not validate. */
  method PostFaq(store: MemStorage, parsed: Result<InsertFaq, string>) returns (r: Response)
    requires store.Valid()
    modifies store`faqs, store`faqIdCounter
    ensures store.Valid()
    ensures parsed.Failure? ==> r == BadRequest(parsed.error) && store.faqs == old(store.faqs) &&
                                store.faqIdCounter == old(store.faqIdCounter)
    ensures parsed.Success? ==>
              r == Response(201, FaqBody(NewFaq(parsed.value, old(store.faqIdCounter)))) &&
              store.faqs == old(store.faqs) + [r.body.faq] && store.faqIdCounter == old(store.faqIdCounter) + 1
  {
    match parsed
    case Failure(e) =>
      r := BadRequest(e);
    case Success(f) =>
      var faq := store.CreateFaq(f);
      r := Response(201, FaqBody(faq));
  }

  // ---------------------------------------------------------------- users

  /**
   * No two accounts share a username and no two share an email: the unique
   * constraints the schema declares, which only the registration handler enforces.
   */
  ghost predicate UniqueAccounts(users: seq<User>) {
    forall i, j :: 0 <= i < j < |users| ==>
      users[i].username != users[j].username && users[i].email != users[j].email
  }

  /** Appending an account whose username and email are both new keeps the accounts unique. */
  lemma AppendKeepsUnique(users: seq<User>, u: User)
    requires UniqueAccounts(users)
    requires forall i :: 0 <= i < |users| ==> users[i].username != u.username
    requires forall i :: 0 <= i < |users| ==> users[i].email != u.email
    ensures UniqueAccounts(users + [u])
  {
    var r := users + [u];
    forall i, j | 0 <= i < j < |r|
      ensures r[i].username != r[j].username && r[i].email != r[j].email
    {
      assert r[i] == users[i];
      if j < |users| { assert r[j] == users[j]; } else { assert r[j] == u; }
    }
  }

  /**
   * `POST /api/users/register`: a taken username is refused first, then a
   * taken email; otherwise the user is stored and returned without its password.
   */
  method Register(store: MemStorage, parsed: Result<InsertUser, string>) returns (r: Response)
    requires store.Valid()
    modifies store`users, store`userIdCounter
    ensures store.Valid()
    ensures old(UniqueAccounts(store.users)) ==> UniqueAccounts(store.users)
    ensures parsed.Failure? ==> r == BadRequest(parsed.error) && store.users == old(store.users)
    ensures parsed.Success? && old(store.GetUserByUsername(parsed.value.username)).Some? ==>
              r == BadRequest("Username already exists") && store.users == old(store.users)
    ensures parsed.Success? && old(store.GetUserByUsername(parsed.value.username)).None? &&
            old(store.GetUserByEmail(parsed.value.email)).Some? ==>
              r == BadRequest("Email already exists") && store.users == old(store.users)
    ensures parsed.Success? && old(store.GetUserByUsername(parsed.value.username)).None? &&
            old(store.GetUserByEmail(parsed.value.email)).None? ==>
              r == Response(201, UserBody(WithoutPassword(NewUser(parsed.value, old(store.userIdCounter))))) &&
              store.users == old(store.users) + [NewUser(parsed.value, old(store.userIdCounter))]
  {
    match parsed
    case Failure(e) =>
      r := BadRequest(e);
    case Success(u) =>
      if store.GetUserByUsername(u.username).Some? {
        return BadRequest("Username already exists");
      }
      if store.GetUserByEmail(u.email).Some? {
        return BadRequest("Email already exists");
      }
      ghost var before := store.users;
      var user := store.CreateUser(u);
      if UniqueAccounts(before) {
        AppendKeepsUnique(before, user);
      }
      r := Response(201, UserBody(WithoutPassword(user)));
  }

  // ---------------------------------------------------------------- carts

  /** The cart answered for a session that has none: id 0, no items, both timestamps `now`. */
  function EmptyCart(sessionId: string, now: Time): (r: Cart)
    ensures r.id == 0 && r.sessionId == Some(sessionId) && r.items == []
  {
    Cart(0, None, Some(sessionId), [], now, now)
  }

  /**
   * `GET /api/carts/:sessionId`: the session's earliest cart, or the empty
   * sentinel cart; never a 404.
   */
  function GetCart(store: MemStorage, sessionId: string, now: Time): (r: Response)
    reads store
    ensures r.status == 200 && r.body.CartBody? && r.body.cart.sessionId == Some(sessionId)
    ensures store.GetCartBySessionId(sessionId).Some? ==>
              exists k :: 0 <= k < |store.carts| && store.carts[k] == r.body.cart &&
                forall j :: 0 <= j < k ==> store.carts[j].sessionId != Some(sessionId)
    ensures store.GetCartBySessionId(sessionId).None? ==> r.body.cart == EmptyCart(sessionId, now)
  {
    match store.GetCartBySessionId(sessionId)
    case None => Response(200, CartBody(EmptyCart(sessionId, now)))
    case Some(c) => Response(200, CartBody(c))
  }

  /** The sentinel id 0 never names a stored cart, so a client can tell the two apart. */
  lemma SentinelIsNotStored(store: MemStorage, sessionId: string, now: Time)
    requires store.Valid()
    ensures GetCart(store, sessionId, now).body.cart.id == 0 <==> store.GetCartBySessionId(sessionId).None?
  {
    match store.GetCartBySessionId(sessionId)
    case None =>
    case Some(c) =>
      var k :| 0 <= k < |store.carts| && store.carts[k] == c;
      assert CartId(store.carts[k]) >= 1;
  }

  /** `POST /api/carts`: 201 with the new cart, even if the session already has one; 400 on a bad body. */
  method PostCart(store: MemStorage, parsed: Result<InsertCart, string>, now: Time) returns (r: Response)
    requires store.Valid()
    modifies store`carts, store`cartIdCounter
    ensures store.Valid()
    ensures parsed.Failure? ==> r == BadRequest(parsed.error) && store.carts == old(store.carts) &&
                                store.cartIdCounter == old(store.cartIdCounter)
    ensures parsed.Success? ==>
              r == Response(201, CartBody(NewCart(parsed.value, old(store.cartIdCounter), now))) &&
              store.carts == old(store.carts) + [r.body.cart] && store.cartIdCounter == old(store.cartIdCounter) + 1
  {
    match parsed
    case Failure(e) =>
      r := BadRequest(e);
    case Success(c) =>
      var cart := store.CreateCart(c, now);
      r := Response(201, CartBody(cart));
  }

  /** `PUT /api/carts/:id`: 404 and no change for a missing id, otherwise 200 with the merged cart. */
  method PutCart(store: MemStorage, id: int, patch: CartPatch, now: Time) returns (r: Response)
    requires store.Valid()
    modifies store`carts
    ensures store.Valid()
    ensures old(store.GetCart(id)).None? ==> r == Response(404, Message("Cart not found")) && store.carts == old(store.carts)
    ensures old(store.GetCart(id)).Some? ==>
              r == Response(200, CartBody(MergeCart(old(store.GetCart(id)).value, patch, now))) &&
              IndexOfId(old(store.carts), CartId, id).Some? &&
              store.carts == old(store.carts)[IndexOfId(old(store.carts), CartId, id).value := r.body.cart] &&
              store.GetCart(id) == Some(r.body.cart)
  {
    if store.GetCart(id).None? {
      return Response(404, Message("Cart not found"));
    }
    var updated := store.UpdateCart(id, patch, now);
    ghost var k := IndexOfId(old(store.carts), CartId, id).value;
    assert store.carts[k] == updated.value;
    assert IndexOfId(store.carts, CartId, id).Some?;
    r := Response(200, CartBody(updated.value));
  }

  /** `DELETE /api/carts/:id`: 204 when the cart existed and is now gone, 404 otherwise. */
  method DeleteCart(store: MemStorage, id: int) returns (r: Response)
    requires store.Valid()
    modifies store`carts
    ensures store.Valid()
    ensures r.status == 204 <==> old(store.GetCart(id)).Some?
    ensures r.status == 204 ==>
              r.body == NoContent && |store.carts| == |old(store.carts)| - 1 &&
              IndexOfId(old(store.carts), CartId, id).Some? &&
              store.carts == RemoveAt(old(store.carts), IndexOfId(old(store.carts), CartId, id).value)
    ensures r.status != 204 ==> r == Response(404, Message("Cart not found")) && store.carts == old(store.carts)
    ensures store.GetCart(id).None?
  {
    var ok := store.DeleteCart(id);
    if !ok {
      return Response(404, Message("Cart not found"));
    }
    r := Response(204, NoContent);
  }

  // ---------------------------------------------------------------- orders

  /** `POST /api/orders`: 201 with the stored order, or 400 when the body does not validate. */
  method PostOrder(store: MemStorage, parsed: Result<InsertOrder, string>, now: Time) returns (r: Response)
    requires store.Valid()
    modifies store`orders, store`orderIdCounter
    ensures store.Valid()
    ensures parsed.Failure? ==> r == BadRequest(parsed.error) && store.orders == old(store.orders) &&
                                store.orderIdCounter == old(store.orderIdCounter)
    ensures parsed.Success? ==>
              r == Response(201, OrderBody(NewOrder(parsed.value, old(store.orderIdCounter), now))) &&
              store.orders == old(store.orders) + [r.body.order] && store.orderIdCounter == old(store.orderIdCounter) + 1
  {
    match parsed
    case Failure(e) =>
      r := BadRequest(e);
    case Success(o) =>
      var order := store.CreateOrder(o, now);
      r := Response(201, OrderBody(order));
  }

  /** `GET /api/orders/:id`: the order, or 404. */
  function GetOrder(store: MemStorage, id: int): (r: Response)
    reads store
    ensures r.status == 404 <==> forall i :: 0 <= i < |store.orders| ==> store.orders[i].id != id
    ensures r.status == 404 ==> r.body == Message("Order not found")
    ensures r.status != 404 ==> r.status == 200 && r.body.OrderBody? &&
                                r.body.order in store.orders && r.body.order.id == id
  {
    match store.GetOrder(id)
    case None => Response(404, Message("Order not found"))
    case Some(o) => Response(200, OrderBody(o))
  }

  /** In a valid store the order with id `id` exists exactly when `1 <= id` and the id was handed out. */
  lemma GetOrderFound(store: MemStorage, id: int)
    requires store.Valid()
    ensures GetOrder(store, id).status == 200 <==> 1 <= id < store.orderIdCounter
  {
    DenseIndexOfId(store.orders, OrderId, store.orderIdCounter, id);
  }

  /** `GET /api/users/:userId/orders`: the user's orders, possibly none; always 200. */
  function GetUserOrders(store: MemStorage, userId: int): (r: Response)
    reads store
    ensures r.status == 200 && r.body.OrderList?
    ensures forall i :: 0 <= i < |r.body.orders| ==> r.body.orders[i] in store.orders && r.body.orders[i].userId == Some(userId)
    ensures forall i :: 0 <= i < |store.orders| && store.orders[i].userId == Some(userId) ==> store.orders[i] in r.body.orders
  {
    Response(200, OrderList(store.GetUserOrders(userId)))
  }

  // ---------------------------------------------------------------- newsletter

  /**
   * `POST /api/newsletter/subscribe`. `email` is None when the body has no
   * string field `email`. A missing or empty email is refused, an email
   * already on the list is answered 200 with no new record, any other is
   * stored and answered 201.
   */
  method Subscribe(store: MemStorage, email: Option<string>, now: Time) returns (r: Response)
    requires store.Valid()
    modifies store`newsletters, store`newsletterIdCounter
    ensures store.Valid()
    ensures email.None? || email.value == "" ==>
              r == BadRequest("Email is required") && store.newsletters == old(store.newsletters)
    ensures email.Some? && email.value != "" && old(store.IsEmailSubscribed(email.value)) ==>
              r == Response(200, Message("Email already subscribed")) && store.newsletters == old(store.newsletters)
    ensures email.Some? && email.value != "" && !old(store.IsEmailSubscribed(email.value)) ==>
              r == Response(201, Message("Successfully subscribed to newsletter")) &&
              store.newsletters == old(store.newsletters) + [Newsletter(old(store.newsletterIdCounter), email.value, now)]
    ensures r.status != 400 ==> store.IsEmailSubscribed(email.value)
  {
    if email.None? || email.value == "" {
      return BadRequest("Email is required");
    }
    if store.IsEmailSubscribed(email.value) {
      return Response(200, Message("Email already subscribed"));
    }
    var _ := store.SubscribeToNewsletter(email.value, now);
    r := Response(201, Message("Successfully subscribed to newsletter"));
  }
}

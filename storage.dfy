/**
 * The in-memory store behind the HTTP API: eight tables, one per entity, each
 * with its own id counter. Every create takes the counter's value as the new
 * record's id and then bumps the counter; the store itself checks no
 * uniqueness, so duplicate slugs, usernames or session carts are stored as
 * given and every by-key lookup returns the earliest match.
 */
module Storage {
  import opened Wrappers
  import opened Schema
  import opened Tables

  // ---------------------------------------------------------------- lookup keys

  function WithUsername(username: string): User -> bool { (u: User) => u.username == username }
  function WithUserEmail(email: string): User -> bool { (u: User) => u.email == email }
  function WithProductSlug(slug: string): Product -> bool { (p: Product) => p.slug == slug }
  function WithArticleSlug(slug: string): Article -> bool { (a: Article) => a.slug == slug }
  function WithSession(sessionId: string): Cart -> bool { (c: Cart) => c.sessionId == Some(sessionId) }
  function WithNewsletterEmail(email: string): Newsletter -> bool { (n: Newsletter) => n.email == email }

  /**
   * `{ ...cart, ...patch, updatedAt: now }`: every field present in the patch
   * overrides the stored one, the others are kept, and `updatedAt` is refreshed.
   */
  function MergeCart(c: Cart, patch: CartPatch, now: Time): (r: Cart)
    ensures r.id == c.id && r.createdAt == c.createdAt && r.updatedAt == now
    ensures r.userId == patch.userId.GetOr(c.userId)
    ensures r.sessionId == patch.sessionId.GetOr(c.sessionId)
    ensures r.items == patch.items.GetOr(c.items)
    ensures patch == CartPatch(None, None, None) ==> r == c.(updatedAt := now)
  {
    Cart(c.id, patch.userId.GetOr(c.userId), patch.sessionId.GetOr(c.sessionId),
         patch.items.GetOr(c.items), c.createdAt, now)
  }

  // ---------------------------------------------------------------- seed data

  function SeedProducts(): (r: seq<InsertProduct>)
    ensures |r| == 3
  {
    [ InsertProduct("Formula Sonno Trim", "formula-sonno-trim", "", Some(""), 3999, None, Supplements, "",
                    Some(""), [], Some(true), Some(true), Some(true), Some(30)),
      InsertProduct("Sonno Profondo Trim", "sonno-profondo-trim", "", Some(""), 4999, None, Supplements, "",
                    Some(""), [], Some(false), Some(false), Some(true), Some(30)),
      InsertProduct("Bundle Sonno + Relax", "bundle-sonno-relax", "", Some(""), 7499, Some(5999), Bundles, "",
                    Some(""), [], Some(false), Some(false), Some(true), Some(60)) ]
  }

  function SeedArticles(): (r: seq<InsertArticle>)
    ensures |r| == 3
  {
    [ InsertArticle("Comprendere l'Insonnia: Cause e Soluzioni", "comprendere-insonnia-cause-soluzioni", "", "",
                    SleepDisorders, "Dott.ssa Emilia Rossi", Some("Specialista del Sonno, MD, PhD"), "", 8, Some(true)),
      InsertArticle("10 Consigli di Igiene del Sonno per un Riposo Migliore", "consigli-igiene-sonno-riposo-migliore", "", "",
                    SleepTips, "Sara Bianchi", Some("Coach del Sonno"), "", 6, Some(true)),
      InsertArticle("La Scienza Dietro gli Integratori per il Sonno", "scienza-dietro-integratori-sonno", "", "",
                    SupplementArticles, "Dott. Michele Ricci", Some("Farmacologo, PhD"), "", 10, Some(true)) ]
  }

  function SeedTestimonials(): (r: seq<InsertTestimonial>)
    ensures |r| == 3
  {
    [ InsertTestimonial("Sara C.", 5.0, "", Some(""), Some(true), Some(true)),
      InsertTestimonial("Michele T.", 5.0, "", Some(""), Some(true), Some(true)),
      InsertTestimonial("Ginevra R.", 4.5, "", Some(""), Some(true), Some(true)) ]
  }

  function SeedFaqs(): (r: seq<InsertFaq>)
    ensures |r| == 5
  {
    [ InsertFaq("", "", Some("products"), Some(1)),
      InsertFaq("", "", Some("products"), Some(2)),
      InsertFaq("", "", Some("products"), Some(3)),
      InsertFaq("", "", Some("products"), Some(4)),
      InsertFaq("", "", Some("products"), Some(5)) ]
  }

  // ---------------------------------------------------------------- the store

  class MemStorage {
    var users: seq<User>
    var products: seq<Product>
    var articles: seq<Article>
    var testimonials: seq<Testimonial>
    var faqs: seq<Faq>
    var carts: seq<Cart>
    var orders: seq<Order>
    var newsletters: seq<Newsletter>

    var userIdCounter: int
    var productIdCounter: int
    var articleIdCounter: int
    var testimonialIdCounter: int
    var faqIdCounter: int
    var cartIdCounter: int
    var orderIdCounter: int
    var newsletterIdCounter: int

    /**
     * Every table but the carts is only ever appended to, so its records carry
     * the ids 1..n in insertion order and its counter is n + 1; the carts, which
     * can be deleted, keep ids at least 1, below the counter and ascending.
     */
    ghost predicate Valid()
      reads this
    {
      && IdsDense(users, UserId, userIdCounter)
      && IdsDense(products, ProductId, productIdCounter)
      && IdsDense(articles, ArticleId, articleIdCounter)
      && IdsDense(testimonials, TestimonialId, testimonialIdCounter)
      && IdsDense(faqs, FaqId, faqIdCounter)
      && IdsAscending(carts, CartId, cartIdCounter)
      && IdsDense(orders, OrderId, orderIdCounter)
      && IdsDense(newsletters, NewsletterId, newsletterIdCounter)
    }

    /** Empty tables, every counter at 1, then the seed catalogue, articles, testimonials and FAQs. */
    constructor (now: Time)
      ensures Valid()
      ensures users == [] && carts == [] && orders == [] && newsletters == []
      ensures userIdCounter == 1 && cartIdCounter == 1 && orderIdCounter == 1 && newsletterIdCounter == 1
      ensures |products| == 3 && |articles| == 3 && |testimonials| == 3 && |faqs| == 5
    {
      users, products, articles, testimonials := [], [], [], [];
      faqs, carts, orders, newsletters := [], [], [], [];
      userIdCounter, productIdCounter, articleIdCounter, testimonialIdCounter := 1, 1, 1, 1;
      faqIdCounter, cartIdCounter, orderIdCounter, newsletterIdCounter := 1, 1, 1, 1;
      new;
      SeedAll(now);
    }

    /** The four seeding calls of the constructor: the catalogue, the articles, the testimonials and the FAQs, in that order. */
    method SeedAll(now: Time)
      requires Valid()
      requires products == [] && articles == [] && testimonials == [] && faqs == []
      modifies this`products, this`productIdCounter, this`articles, this`articleIdCounter
      modifies this`testimonials, this`testimonialIdCounter, this`faqs, this`faqIdCounter
      ensures Valid()
      ensures |products| == 3 && |articles| == 3 && |testimonials| == 3 && |faqs| == 5
    {
      SeedProductTable(now);
      SeedArticleTable(now);
      SeedTestimonialTable(now);
      SeedFaqTable();
    }

    /** Creates the seed products one by one, so they get the ids 1, 2, 3. */
    method SeedProductTable(now: Time)
      requires Valid() && products == []
      modifies this`products, this`productIdCounter
      ensures Valid()
      ensures |products| == |SeedProducts()|
      ensures forall i :: 0 <= i < |products| ==> products[i] == NewProduct(SeedProducts()[i], i + 1, now)
    {
      var seeds := SeedProducts();
      for i := 0 to |seeds|
        invariant Valid()
        invariant |products| == i
        invariant forall j :: 0 <= j < i ==> products[j] == NewProduct(seeds[j], j + 1, now)
      {
        var _ := CreateProduct(seeds[i], now);
      }
    }

    /** Creates the seed articles one by one, so they get the ids 1, 2, 3. */
    method SeedArticleTable(now: Time)
      requires Valid() && articles == []
      modifies this`articles, this`articleIdCounter
      ensures Valid()
      ensures |articles| == |SeedArticles()|
      ensures forall i :: 0 <= i < |articles| ==> articles[i] == NewArticle(SeedArticles()[i], i + 1, now)
    {
      var seeds := SeedArticles();
      for i := 0 to |seeds|
        invariant Valid()
        invariant |articles| == i
        invariant forall j :: 0 <= j < i ==> articles[j] == NewArticle(seeds[j], j + 1, now)
      {
        var _ := CreateArticle(seeds[i], now);
      }
    }

    /** Creates the seed testimonials one by one, so they get the ids 1, 2, 3. */
    method SeedTestimonialTable(now: Time)
      requires Valid() && testimonials == []
      modifies this`testimonials, this`testimonialIdCounter
      ensures Valid()
      ensures |testimonials| == |SeedTestimonials()|
      ensures forall i :: 0 <= i < |testimonials| ==> testimonials[i] == NewTestimonial(SeedTestimonials()[i], i + 1, now)
    {
      var seeds := SeedTestimonials();
      for i := 0 to |seeds|
        invariant Valid()
        invariant |testimonials| == i
        invariant forall j :: 0 <= j < i ==> testimonials[j] == NewTestimonial(seeds[j], j + 1, now)
      {
        var _ := CreateTestimonial(seeds[i], now);
      }
    }

    /** Creates the seed FAQs one by one, so they get the ids 1 to 5. */
    method SeedFaqTable()
      requires Valid() && faqs == []
      modifies this`faqs, this`faqIdCounter
      ensures Valid()
      ensures |faqs| == |SeedFaqs()|
      ensures forall i :: 0 <= i < |faqs| ==> faqs[i] == NewFaq(SeedFaqs()[i], i + 1)
    {
      var seeds := SeedFaqs();
      for i := 0 to |seeds|
        invariant Valid()
        invariant |faqs| == i
        invariant forall j :: 0 <= j < i ==> faqs[j] == NewFaq(seeds[j], j + 1)
      {
        var _ := CreateFaq(seeds[i]);
      }
    }

    // ------------------------------------------------------------ users

    function GetUser(id: int): (r: Option<User>)
      reads this
      ensures r.Some? ==> r.value in users && r.value.id == id
      ensures r.None? <==> forall i :: 0 <= i < |users| ==> users[i].id != id
    {
      match IndexOfId(users, UserId, id)
      case Some(k) => Some(users[k])
      case None => None
    }

    /** The earliest-registered user with this username. */
    function GetUserByUsername(username: string): (r: Option<User>)
      reads this
      ensures r.Some? ==> r.value in users && r.value.username == username
      ensures r.None? <==> forall i :: 0 <= i < |users| ==> users[i].username != username
    {
      Find(users, WithUsername(username))
    }

    /** The earliest-registered user with this email. */
    function GetUserByEmail(email: string): (r: Option<User>)
      reads this
      ensures r.Some? ==> r.value in users && r.value.email == email
      ensures r.None? <==> forall i :: 0 <= i < |users| ==> users[i].email != email
    {
      Find(users, WithUserEmail(email))
    }

    method CreateUser(u: InsertUser) returns (r: User)
      requires Valid()
      modifies this`users, this`userIdCounter
      ensures Valid()
      ensures r == NewUser(u, old(userIdCounter))
      ensures users == old(users) + [r] && userIdCounter == old(userIdCounter) + 1
    {
      var id := userIdCounter;
      userIdCounter := userIdCounter + 1;
      r := NewUser(u, id);
      AppendKeepsDense(users, UserId, id, r);
      users := users + [r];
    }

    // ------------------------------------------------------------ products

    function GetProduct(id: int): (r: Option<Product>)
      reads this
      ensures r.Some? ==> r.value in products && r.value.id == id
      ensures r.None? <==> forall i :: 0 <= i < |products| ==> products[i].id != id
    {
      match IndexOfId(products, ProductId, id)
      case Some(k) => Some(products[k])
      case None => None
    }

    /** The earliest-inserted product with this slug. */
    function GetProductBySlug(slug: string): (r: Option<Product>)
      reads this
      ensures r.Some? ==> r.value in products && r.value.slug == slug
      ensures r.Some? ==> exists k :: 0 <= k < |products| && products[k] == r.value &&
                            forall j :: 0 <= j < k ==> products[j].slug != slug
      ensures r.None? <==> forall i :: 0 <= i < |products| ==> products[i].slug != slug
    {
      match FindFirst(products, WithProductSlug(slug))
      case Some(k) => Some(products[k])
      case None => None
    }

    /** The products whose `featured` flag is set, in insertion order. */
    function GetFeaturedProducts(): (r: seq<Product>)
      reads this
      ensures forall i :: 0 <= i < |r| ==> r[i] in products && r[i].featured == Some(true)
      ensures forall i :: 0 <= i < |products| && products[i].featured == Some(true) ==> products[i] in r
    {
      Filter(products, (p: Product) => p.featured == Some(true))
    }

    /** The products whose `bestSeller` flag is set, in insertion order. */
    function GetBestSellerProducts(): (r: seq<Product>)
      reads this
      ensures forall i :: 0 <= i < |r| ==> r[i] in products && r[i].bestSeller == Some(true)
      ensures forall i :: 0 <= i < |products| && products[i].bestSeller == Some(true) ==> products[i] in r
    {
      Filter(products, (p: Product) => p.bestSeller == Some(true))
    }

    /** The products whose category's name is the given string, in insertion order. */
    function GetProductsByCategory(category: string): (r: seq<Product>)
      reads this
      ensures forall i :: 0 <= i < |r| ==> r[i] in products && ProductCategoryName(r[i].category) == category
      ensures forall i :: 0 <= i < |products| && ProductCategoryName(products[i].category) == category ==> products[i] in r
      ensures ParseProductCategory(category).None? ==> r == []
    {
      var r := Filter(products, (p: Product) => ProductCategoryName(p.category) == category);
      assert |r| > 0 ==> ParseProductCategory(ProductCategoryName(r[0].category)).Some?;
      r
    }

    method CreateProduct(p: InsertProduct, now: Time) returns (r: Product)
      requires Valid()
      modifies this`products, this`productIdCounter
      ensures Valid()
      ensures r == NewProduct(p, old(productIdCounter), now)
      ensures products == old(products) + [r] && productIdCounter == old(productIdCounter) + 1
    {
      var id := productIdCounter;
      productIdCounter := productIdCounter + 1;
      r := NewProduct(p, id, now);
      AppendKeepsDense(products, ProductId, id, r);
      products := products + [r];
    }

    // ------------------------------------------------------------ articles

    function GetArticle(id: int): (r: Option<Article>)
      reads this
      ensures r.Some? ==> r.value in articles && r.value.id == id
      ensures r.None? <==> forall i :: 0 <= i < |articles| ==> articles[i].id != id
    {
      match IndexOfId(articles, ArticleId, id)
      case Some(k) => Some(articles[k])
      case None => None
    }

    /** The earliest-inserted article with this slug. */
    function GetArticleBySlug(slug: string): (r: Option<Article>)
      reads this
      ensures r.Some? ==> r.value in articles && r.value.slug == slug
      ensures r.Some? ==> exists k :: 0 <= k < |articles| && articles[k] == r.value &&
                            forall j :: 0 <= j < k ==> articles[j].slug != slug
      ensures r.None? <==> forall i :: 0 <= i < |articles| ==> articles[i].slug != slug
    {
      match FindFirst(articles, WithArticleSlug(slug))
      case Some(k) => Some(articles[k])
      case None => None
    }

    /** The articles whose `featured` flag is set, in insertion order. */
    function GetFeaturedArticles(): (r: seq<Article>)
      reads this
      ensures forall i :: 0 <= i < |r| ==> r[i] in articles && r[i].featured == Some(true)
      ensures forall i :: 0 <= i < |articles| && articles[i].featured == Some(true) ==> articles[i] in r
    {
      Filter(articles, (a: Article) => a.featured == Some(true))
    }

    /** The articles whose category's name is the given string, in insertion order. */
    function GetArticlesByCategory(category: string): (r: seq<Article>)
      reads this
      ensures forall i :: 0 <= i < |r| ==> r[i] in articles && ArticleCategoryName(r[i].category) == category
      ensures forall i :: 0 <= i < |articles| && ArticleCategoryName(articles[i].category) == category ==> articles[i] in r
      ensures ParseArticleCategory(category).None? ==> r == []
    {
      var r := Filter(articles, (a: Article) => ArticleCategoryName(a.category) == category);
      assert |r| > 0 ==> ParseArticleCategory(ArticleCategoryName(r[0].category)).Some?;
      r
    }

    method CreateArticle(a: InsertArticle, now: Time) returns (r: Article)
      requires Valid()
      modifies this`articles, this`articleIdCounter
      ensures Valid()
      ensures r == NewArticle(a, old(articleIdCounter), now)
      ensures articles == old(articles) + [r] && articleIdCounter == old(articleIdCounter) + 1
    {
      var id := articleIdCounter;
      articleIdCounter := articleIdCounter + 1;
      r := NewArticle(a, id, now);
      AppendKeepsDense(articles, ArticleId, id, r);
      articles := articles + [r];
    }

    // ------------------------------------------------------------ testimonials

    /** The testimonials whose `featured` flag is set, in insertion order. */
    function GetFeaturedTestimonials(): (r: seq<Testimonial>)
      reads this
      ensures forall i :: 0 <= i < |r| ==> r[i] in testimonials && r[i].featured == Some(true)
      ensures forall i :: 0 <= i < |testimonials| && testimonials[i].featured == Some(true) ==> testimonials[i] in r
    {
      Filter(testimonials, (t: Testimonial) => t.featured == Some(true))
    }

    method CreateTestimonial(t: InsertTestimonial, now: Time) returns (r: Testimonial)
      requires Valid()
      modifies this`testimonials, this`testimonialIdCounter
      ensures Valid()
      ensures r == NewTestimonial(t, old(testimonialIdCounter), now)
      ensures testimonials == old(testimonials) + [r] && testimonialIdCounter == old(testimonialIdCounter) + 1
    {
      var id := testimonialIdCounter;
      testimonialIdCounter := testimonialIdCounter + 1;
      r := NewTestimonial(t, id, now);
      AppendKeepsDense(testimonials, TestimonialId, id, r);
      testimonials := testimonials + [r];
    }

    // ------------------------------------------------------------ FAQs

    method CreateFaq(f: InsertFaq) returns (r: Faq)
      requires Valid()
      modifies this`faqs, this`faqIdCounter
      ensures Valid()
      ensures r == NewFaq(f, old(faqIdCounter))
      ensures faqs == old(faqs) + [r] && faqIdCounter == old(faqIdCounter) + 1
    {
      var id := faqIdCounter;
      faqIdCounter := faqIdCounter + 1;
      r := NewFaq(f, id);
      AppendKeepsDense(faqs, FaqId, id, r);
      faqs := faqs + [r];
    }

    // ------------------------------------------------------------ carts

    function GetCart(id: int): (r: Option<Cart>)
      reads this
      ensures r.Some? ==> r.value in carts && r.value.id == id
      ensures r.None? <==> forall i :: 0 <= i < |carts| ==> carts[i].id != id
    {
      match IndexOfId(carts, CartId, id)
      case Some(k) => Some(carts[k])
      case None => None
    }

    /** The earliest-created cart whose session id is `sessionId`; carts without a session never match. */
    function GetCartBySessionId(sessionId: string): (r: Option<Cart>)
      reads this
      ensures r.Some? ==> r.value in carts && r.value.sessionId == Some(sessionId)
      ensures r.Some? ==> exists k :: 0 <= k < |carts| && carts[k] == r.value &&
                            forall j :: 0 <= j < k ==> carts[j].sessionId != Some(sessionId)
      ensures r.None? <==> forall i :: 0 <= i < |carts| ==> carts[i].sessionId != Some(sessionId)
    {
      match FindFirst(carts, WithSession(sessionId))
      case Some(k) => Some(carts[k])
      case None => None
    }

    /** Stores a new cart without looking for an existing cart of the same session. */
    method CreateCart(c: InsertCart, now: Time) returns (r: Cart)
      requires Valid()
      modifies this`carts, this`cartIdCounter
      ensures Valid()
      ensures r == NewCart(c, old(cartIdCounter), now)
      ensures carts == old(carts) + [r] && cartIdCounter == old(cartIdCounter) + 1
    {
      var id := cartIdCounter;
      cartIdCounter := cartIdCounter + 1;
      r := NewCart(c, id, now);
      AppendKeepsIds(carts, CartId, id, r);
      carts := carts + [r];
    }

    /** Merges the patch into the cart with this id, in place; a missing id changes nothing. */
    method UpdateCart(id: int, patch: CartPatch, now: Time) returns (r: Option<Cart>)
      requires Valid()
      modifies this`carts
      ensures Valid()
      ensures old(GetCart(id)).None? ==> r.None? && carts == old(carts)
      ensures old(GetCart(id)).Some? ==>
                r == Some(MergeCart(old(GetCart(id)).value, patch, now)) &&
                IndexOfId(old(carts), CartId, id).Some? &&
                carts == old(carts)[IndexOfId(old(carts), CartId, id).value := r.value]
    {
      match IndexOfId(carts, CartId, id)
      case None =>
        r := None;
      case Some(k) =>
        var updated := MergeCart(carts[k], patch, now);
        ReplaceKeepsIds(carts, CartId, cartIdCounter, k, updated);
        carts := carts[k := updated];
        r := Some(updated);
    }

    /** Removes the cart with this id; the result says whether it was there. */
    method DeleteCart(id: int) returns (ok: bool)
      requires Valid()
      modifies this`carts
      ensures Valid()
      ensures ok <==> old(GetCart(id)).Some?
      ensures !ok ==> carts == old(carts)
      ensures ok ==> IndexOfId(old(carts), CartId, id).Some? &&
                     carts == RemoveAt(old(carts), IndexOfId(old(carts), CartId, id).value)
      ensures GetCart(id).None?
    {
      match IndexOfId(carts, CartId, id)
      case None =>
        ok := false;
      case Some(k) =>
        RemoveKeepsIds(carts, CartId, cartIdCounter, k);
        forall j | 0 <= j < |carts| - 1
          ensures RemoveAt(carts, k)[j].id != id
        {
          if j < k { assert CartId(carts[j]) < CartId(carts[k]); }
          else { assert CartId(carts[k]) < CartId(carts[j + 1]); }
        }
        carts := RemoveAt(carts, k);
        ok := true;
    }

    // ------------------------------------------------------------ orders

    /** The orders placed by this user, in insertion order; anonymous orders never match. */
    function GetUserOrders(userId: int): (r: seq<Order>)
      reads this
      ensures forall i :: 0 <= i < |r| ==> r[i] in orders && r[i].userId == Some(userId)
      ensures forall i :: 0 <= i < |orders| && orders[i].userId == Some(userId) ==> orders[i] in r
    {
      Filter(orders, (o: Order) => o.userId == Some(userId))
    }

    function GetOrder(id: int): (r: Option<Order>)
      reads this
      ensures r.Some? ==> r.value in orders && r.value.id == id
      ensures r.None? <==> forall i :: 0 <= i < |orders| ==> orders[i].id != id
    {
      match IndexOfId(orders, OrderId, id)
      case Some(k) => Some(orders[k])
      case None => None
    }

    method CreateOrder(o: InsertOrder, now: Time) returns (r: Order)
      requires Valid()
      modifies this`orders, this`orderIdCounter
      ensures Valid()
      ensures r == NewOrder(o, old(orderIdCounter), now)
      ensures orders == old(orders) + [r] && orderIdCounter == old(orderIdCounter) + 1
    {
      var id := orderIdCounter;
      orderIdCounter := orderIdCounter + 1;
      r := NewOrder(o, id, now);
      AppendKeepsDense(orders, OrderId, id, r);
      orders := orders + [r];
    }

    /** Sets the status of the order with this id, in place; a missing id changes nothing. */
    method UpdateOrderStatus(id: int, status: OrderStatus) returns (r: Option<Order>)
      requires Valid()
      modifies this`orders
      ensures Valid()
      ensures old(GetOrder(id)).None? ==> r.None? && orders == old(orders)
      ensures old(GetOrder(id)).Some? ==>
                r == Some(old(GetOrder(id)).value.(status := Some(status))) &&
                IndexOfId(old(orders), OrderId, id).Some? &&
                orders == old(orders)[IndexOfId(old(orders), OrderId, id).value := r.value]
    {
      match IndexOfId(orders, OrderId, id)
      case None =>
        r := None;
      case Some(k) =>
        var updated := orders[k].(status := Some(status));
        ReplaceKeepsDense(orders, OrderId, orderIdCounter, k, updated);
        orders := orders[k := updated];
        r := Some(updated);
    }

    // ------------------------------------------------------------ newsletter

    function IsEmailSubscribed(email: string): (r: bool)
      reads this
      ensures r <==> exists i :: 0 <= i < |newsletters| && newsletters[i].email == email
    {
      Find(newsletters, WithNewsletterEmail(email)).Some?
    }

    /**
     * Idempotent subscribe: an email already present returns its earliest
     * record and touches neither the table nor the counter.
     */
    method SubscribeToNewsletter(email: string, now: Time) returns (r: Newsletter)
      requires Valid()
      modifies this`newsletters, this`newsletterIdCounter
      ensures Valid()
      ensures r.email == email && IsEmailSubscribed(email)
      ensures old(IsEmailSubscribed(email)) ==>
                newsletters == old(newsletters) && newsletterIdCounter == old(newsletterIdCounter) &&
                Find(newsletters, WithNewsletterEmail(email)) == Some(r)
      ensures !old(IsEmailSubscribed(email)) ==>
                r == Newsletter(old(newsletterIdCounter), email, now) &&
                newsletters == old(newsletters) + [r] && newsletterIdCounter == old(newsletterIdCounter) + 1
    {
      var existing := Find(newsletters, WithNewsletterEmail(email));
      if existing.Some? {
        return existing.value;
      }
      var id := newsletterIdCounter;
      newsletterIdCounter := newsletterIdCounter + 1;
      r := Newsletter(id, email, now);
      AppendKeepsDense(newsletters, NewsletterId, id, r);
      newsletters := newsletters + [r];
      assert newsletters[|newsletters| - 1].email == email;
    }
  }
}

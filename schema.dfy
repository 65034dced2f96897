/**
 * The shared data model: the three closed enumerations, the record stored for
 * each entity, and the insert shape each create operation receives.
 *
 * A column declared with a default (`featured`, `status`, ...) is optional in
 * the insert shape and is stored as given: the default belongs to the database
 * table, so it is written out separately as a `...WithDefaults` function.
 */
module Schema {
  import opened Wrappers

  /** An opaque creation or update instant; nothing is proved about clocks. */
  type Time = nat

  // ---------------------------------------------------------------- enums

  datatype ProductCategory = Supplements | Bundles | Accessories

  function ProductCategoryName(c: ProductCategory): (s: string)
    ensures s == "supplements" || s == "bundles" || s == "accessories"
  {
    match c
    case Supplements => "supplements"
    case Bundles => "bundles"
    case Accessories => "accessories"
  }

  /** Accepts exactly the three declared category names. */
  function ParseProductCategory(s: string): (r: Option<ProductCategory>)
    ensures r.Some? <==> s == "supplements" || s == "bundles" || s == "accessories"
    ensures r.Some? ==> ProductCategoryName(r.value) == s
  {
    if s == "supplements" then Some(Supplements)
    else if s == "bundles" then Some(Bundles)
    else if s == "accessories" then Some(Accessories)
    else None
  }

  /** Every category's name parses back to that category. */
  lemma ProductCategoryRoundTrip(c: ProductCategory)
    ensures ParseProductCategory(ProductCategoryName(c)) == Some(c)
  {
  }

  datatype ArticleCategory = SleepDisorders | SleepTips | SupplementArticles | Research

  function ArticleCategoryName(c: ArticleCategory): (s: string)
    ensures s == "sleep_disorders" || s == "sleep_tips" || s == "supplements" || s == "research"
  {
    match c
    case SleepDisorders => "sleep_disorders"
    case SleepTips => "sleep_tips"
    case SupplementArticles => "supplements"
    case Research => "research"
  }

  /** Accepts exactly the four declared article category names. */
  function ParseArticleCategory(s: string): (r: Option<ArticleCategory>)
    ensures r.Some? <==> s == "sleep_disorders" || s == "sleep_tips" || s == "supplements" || s == "research"
    ensures r.Some? ==> ArticleCategoryName(r.value) == s
  {
    if s == "sleep_disorders" then Some(SleepDisorders)
    else if s == "sleep_tips" then Some(SleepTips)
    else if s == "supplements" then Some(SupplementArticles)
    else if s == "research" then Some(Research)
    else None
  }

  /** Every category's name parses back to that category. */
  lemma ArticleCategoryRoundTrip(c: ArticleCategory)
    ensures ParseArticleCategory(ArticleCategoryName(c)) == Some(c)
  {
  }

  datatype OrderStatus = Pending | Processing | Shipped | Delivered | Cancelled

  function OrderStatusName(st: OrderStatus): (s: string)
    ensures s == "pending" || s == "processing" || s == "shipped" || s == "delivered" || s == "cancelled"
  {
    match st
    case Pending => "pending"
    case Processing => "processing"
    case Shipped => "shipped"
    case Delivered => "delivered"
    case Cancelled => "cancelled"
  }

  /** Accepts exactly the five declared order status names. */
  function ParseOrderStatus(s: string): (r: Option<OrderStatus>)
    ensures r.Some? <==> s == "pending" || s == "processing" || s == "shipped" || s == "delivered" || s == "cancelled"
    ensures r.Some? ==> OrderStatusName(r.value) == s
  {
    if s == "pending" then Some(Pending)
    else if s == "processing" then Some(Processing)
    else if s == "shipped" then Some(Shipped)
    else if s == "delivered" then Some(Delivered)
    else if s == "cancelled" then Some(Cancelled)
    else None
  }

  /** Every status's name parses back to that status. */
  lemma OrderStatusRoundTrip(st: OrderStatus)
    ensures ParseOrderStatus(OrderStatusName(st)) == Some(st)
  {
  }

  // ---------------------------------------------------------------- users

  datatype InsertUser = InsertUser(
    username: string, password: string, email: string,
    firstName: Option<string>, lastName: Option<string>, phoneNumber: Option<string>)

  datatype User = User(
    id: int, username: string, password: string, email: string,
    firstName: Option<string>, lastName: Option<string>, phoneNumber: Option<string>)
  {
    function Insert(): InsertUser {
      InsertUser(username, password, email, firstName, lastName, phoneNumber)
    }
  }

  /** The stored user: the insert shape plus the assigned id, nothing else. */
  function NewUser(u: InsertUser, id: int): (r: User)
    ensures r.id == id && r.Insert() == u
  {
    User(id, u.username, u.password, u.email, u.firstName, u.lastName, u.phoneNumber)
  }

  // ---------------------------------------------------------------- products

  datatype InsertProduct = InsertProduct(
    name: string, slug: string, description: string, shortDescription: Option<string>,
    price: int, salePrice: Option<int>, category: ProductCategory, imageUrl: string,
    ingredients: Option<string>, benefits: seq<string>,
    featured: Option<bool>, bestSeller: Option<bool>, inStock: Option<bool>, quantity: Option<int>)

  datatype Product = Product(
    id: int, name: string, slug: string, description: string, shortDescription: Option<string>,
    price: int, salePrice: Option<int>, category: ProductCategory, imageUrl: string,
    ingredients: Option<string>, benefits: seq<string>,
    featured: Option<bool>, bestSeller: Option<bool>, inStock: Option<bool>, quantity: Option<int>,
    createdAt: Time)
  {
    function Insert(): InsertProduct {
      InsertProduct(name, slug, description, shortDescription, price, salePrice, category, imageUrl,
                    ingredients, benefits, featured, bestSeller, inStock, quantity)
    }
  }

  /** The stored product: the insert shape plus id and createdAt. */
  function NewProduct(p: InsertProduct, id: int, now: Time): (r: Product)
    ensures r.id == id && r.createdAt == now && r.Insert() == p
  {
    Product(id, p.name, p.slug, p.description, p.shortDescription, p.price, p.salePrice, p.category,
            p.imageUrl, p.ingredients, p.benefits, p.featured, p.bestSeller, p.inStock, p.quantity, now)
  }

  /** The column defaults of the products table: quantity 30, not featured, not a best seller, in stock. */
  function ProductWithDefaults(p: InsertProduct): (r: InsertProduct)
    ensures r.featured == Some(p.featured.GetOr(false))
    ensures r.bestSeller == Some(p.bestSeller.GetOr(false))
    ensures r.inStock == Some(p.inStock.GetOr(true))
    ensures r.quantity == Some(p.quantity.GetOr(30))
    ensures r.(featured := p.featured, bestSeller := p.bestSeller, inStock := p.inStock, quantity := p.quantity) == p
  {
    p.(featured := Some(p.featured.GetOr(false)),
       bestSeller := Some(p.bestSeller.GetOr(false)),
       inStock := Some(p.inStock.GetOr(true)),
       quantity := Some(p.quantity.GetOr(30)))
  }

  // ---------------------------------------------------------------- articles

  datatype InsertArticle = InsertArticle(
    title: string, slug: string, content: string, summary: string, category: ArticleCategory,
    author: string, authorTitle: Option<string>, imageUrl: string, readTime: int,
    featured: Option<bool>)

  datatype Article = Article(
    id: int, title: string, slug: string, content: string, summary: string, category: ArticleCategory,
    author: string, authorTitle: Option<string>, imageUrl: string, readTime: int,
    createdAt: Time, featured: Option<bool>)
  {
    function Insert(): InsertArticle {
      InsertArticle(title, slug, content, summary, category, author, authorTitle, imageUrl, readTime, featured)
    }
  }

  /** The stored article: the insert shape plus id and createdAt. */
  function NewArticle(a: InsertArticle, id: int, now: Time): (r: Article)
    ensures r.id == id && r.createdAt == now && r.Insert() == a
  {
    Article(id, a.title, a.slug, a.content, a.summary, a.category, a.author, a.authorTitle,
            a.imageUrl, a.readTime, now, a.featured)
  }

  // ---------------------------------------------------------------- orders

  /** An order line snapshots the unit price and the product name beside the cart line's two fields. */
  datatype OrderLine = OrderLine(productId: int, quantity: int, price: int, name: string)

  datatype Address = Address(
    firstName: string, lastName: string, address1: string, address2: Option<string>,
    city: string, state: string, postalCode: string, country: string)

  datatype InsertOrder = InsertOrder(
    userId: Option<int>, status: Option<OrderStatus>, total: int, items: seq<OrderLine>,
    shippingAddress: Address, billingAddress: Option<Address>)

  datatype Order = Order(
    id: int, userId: Option<int>, status: Option<OrderStatus>, total: int, items: seq<OrderLine>,
    shippingAddress: Address, billingAddress: Option<Address>, createdAt: Time)
  {
    function Insert(): InsertOrder {
      InsertOrder(userId, status, total, items, shippingAddress, billingAddress)
    }
  }

  /** The stored order: the insert shape plus id and createdAt. */
  function NewOrder(o: InsertOrder, id: int, now: Time): (r: Order)
    ensures r.id == id && r.createdAt == now && r.Insert() == o
  {
    Order(id, o.userId, o.status, o.total, o.items, o.shippingAddress, o.billingAddress, now)
  }

  /** The status column's default: an order submitted without a status is pending. */
  function OrderWithDefaults(o: InsertOrder): (r: InsertOrder)
    ensures r.status == Some(o.status.GetOr(Pending))
    ensures o.status.None? ==> r.status == Some(Pending)
    ensures r.(status := o.status) == o
  {
    o.(status := Some(o.status.GetOr(Pending)))
  }

  // ---------------------------------------------------------------- carts

  /** A cart line carries only a product id and a quantity. */
  datatype CartLine = CartLine(productId: int, quantity: int)

  datatype InsertCart = InsertCart(userId: Option<int>, sessionId: Option<string>, items: seq<CartLine>)

  datatype Cart = Cart(
    id: int, userId: Option<int>, sessionId: Option<string>, items: seq<CartLine>,
    createdAt: Time, updatedAt: Time)
  {
    function Insert(): InsertCart {
      InsertCart(userId, sessionId, items)
    }
  }

  /**
   * A partial cart update: each field is either absent (None) or present with
   * its new value, `Partial<InsertCart>` in the source.
   */
  datatype CartPatch = CartPatch(
    userId: Option<Option<int>>, sessionId: Option<Option<string>>, items: Option<seq<CartLine>>)

  /** The stored cart: the insert shape plus id and both timestamps, which start equal. */
  function NewCart(c: InsertCart, id: int, now: Time): (r: Cart)
    ensures r.id == id && r.createdAt == now && r.updatedAt == now && r.Insert() == c
  {
    Cart(id, c.userId, c.sessionId, c.items, now, now)
  }

  // ---------------------------------------------------------------- testimonials

  datatype InsertTestimonial = InsertTestimonial(
    customerName: string, rating: real, review: string, imageUrl: Option<string>,
    verified: Option<bool>, featured: Option<bool>)

  datatype Testimonial = Testimonial(
    id: int, customerName: string, rating: real, review: string, imageUrl: Option<string>,
    verified: Option<bool>, featured: Option<bool>, createdAt: Time)
  {
    function Insert(): InsertTestimonial {
      InsertTestimonial(customerName, rating, review, imageUrl, verified, featured)
    }
  }

  /** The stored testimonial: the insert shape plus id and createdAt. */
  function NewTestimonial(t: InsertTestimonial, id: int, now: Time): (r: Testimonial)
    ensures r.id == id && r.createdAt == now && r.Insert() == t
  {
    Testimonial(id, t.customerName, t.rating, t.review, t.imageUrl, t.verified, t.featured, now)
  }

  // ---------------------------------------------------------------- FAQs

  datatype InsertFaq = InsertFaq(question: string, answer: string, category: Option<string>, order: Option<int>)

  /** FAQs have no timestamp: the insert shape omits only the id. */
  datatype Faq = Faq(id: int, question: string, answer: string, category: Option<string>, order: Option<int>)
  {
    function Insert(): InsertFaq {
      InsertFaq(question, answer, category, order)
    }
  }

  function NewFaq(f: InsertFaq, id: int): (r: Faq)
    ensures r.id == id && r.Insert() == f
  {
    Faq(id, f.question, f.answer, f.category, f.order)
  }

  // ---------------------------------------------------------------- newsletter

  datatype Newsletter = Newsletter(id: int, email: string, createdAt: Time)

  // ---------------------------------------------------------------- key accessors

  function UserId(u: User): int { u.id }
  function ProductId(p: Product): int { p.id }
  function ArticleId(a: Article): int { a.id }
  function TestimonialId(t: Testimonial): int { t.id }
  function FaqId(f: Faq): int { f.id }
  function CartId(c: Cart): int { c.id }
  function OrderId(o: Order): int { o.id }
  function NewsletterId(n: Newsletter): int { n.id }
}

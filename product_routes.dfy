/**
 * The catalogue routes: the listing with its filter and clamped pagination, the
 * distinct active categories, lookup by id (inactive products are not found), the
 * soft delete, and adding a review (one per user) with the rating recomputed.
 */
module ProductRoutes {
  import opened Common
  import opened Strings
  import opened ProductModel
  import opened Store

  /**
   * The query of GET /api/products with each parameter already read: "" stands for an
   * absent (or empty) string parameter, None for an absent number. Prices are in
   * cents, the minimum rating in tenths of a star.
   */
  datatype Query = Query(
    category: string,
    minPrice: Option<int>,
    maxPrice: Option<int>,
    minRating: Option<int>,
    isFeatured: string,
    page: int,
    limit: int)

  /** No parameters: page 1, limit 20. */
  const DefaultQuery: Query := Query("", None, None, None, "", 1, 20)

  /** The filter object the handler builds by conditional assignments. */
  datatype Filter = Filter(
    category: Option<string>,
    featuredOnly: bool,
    minPrice: Option<int>,
    maxPrice: Option<int>,
    minRating: Option<int>)

  function BuildFilter(q: Query): (f: Filter)
    ensures f.category.Some? <==> q.category != ""
    ensures f.category.Some? ==> f.category.value == q.category
    ensures f.featuredOnly <==> q.isFeatured == "true"
    ensures f.minPrice == q.minPrice && f.maxPrice == q.maxPrice && f.minRating == q.minRating
  {
    Filter(
      if q.category != "" then Some(q.category) else None,
      q.isFeatured == "true",
      q.minPrice, q.maxPrice, q.minRating)
  }

  /** A product passes the filter: it is active and meets every condition that was set. */
  predicate Matches(p: Product, f: Filter)
  {
    && p.isActive
    && (f.category.Some? ==> CategoryName(p.category) == f.category.value)
    && (f.featuredOnly ==> p.isFeatured)
    && (f.minPrice.Some? ==> p.price >= f.minPrice.value)
    && (f.maxPrice.Some? ==> p.price <= f.maxPrice.value)
    && (f.minRating.Some? ==> p.rating >= f.minRating.value)
  }

  /** The matching products, in catalogue order. */
  function Matching(catalogue: seq<Product>, f: Filter): (r: seq<Product>)
    ensures |r| <= |catalogue|
    ensures forall p :: p in r <==> p in catalogue && Matches(p, f)
  {
    if catalogue == [] then []
    else
      var init := Matching(catalogue[..|catalogue| - 1], f);
      var last := catalogue[|catalogue| - 1];
      assert catalogue == catalogue[..|catalogue| - 1] + [last];
      if Matches(last, f) then init + [last] else init
  }
  /** A single product is kept exactly when it matches. */
  lemma MatchingSingle(p: Product, f: Filter)
    ensures Matching([p], f) == if Matches(p, f) then [p] else []
  {
    assert [p][..0] == [];
  }

  /** Matching keeps catalogue order and multiplicity: it distributes over concatenation. */
  lemma {:induction false} MatchingAppend(a: seq<Product>, b: seq<Product>, f: Filter)
    ensures Matching(a + b, f) == Matching(a, f) + Matching(b, f)
    decreases |b|
  {
    if b == [] {
      assert a + b == a;
    } else {
      var b' := b[..|b| - 1];
      assert (a + b)[..|a + b| - 1] == a + b';
      assert (a + b)[|a + b| - 1] == b[|b| - 1];
      MatchingAppend(a, b', f);
    }
  }


  /** `Math.max(1, page)`. */
  function PageNumber(page: int): (n: int)
    ensures n >= 1 && n >= page
    ensures page >= 1 ==> n == page
  {
    if page >= 1 then page else 1
  }

  /** `Math.min(100, Math.max(1, limit))`. */
  function PageSize(limit: int): (n: int)
    ensures 1 <= n <= 100
    ensures 1 <= limit <= 100 ==> n == limit
    ensures limit < 1 ==> n == 1
    ensures limit > 100 ==> n == 100
  {
    if limit < 1 then 1 else if limit > 100 then 100 else limit
  }

  /** `Math.ceil(total / size)` for a positive size. */
  function PageCount(total: nat, size: nat): (r: nat)
    requires size >= 1
  {
    (total + size - 1) / size
  }

  /** The page count is the least number of pages of `size` that hold `total` items. */
  lemma PageCountIsCeiling(total: nat, size: nat)
    requires size >= 1
    ensures PageCount(total, size) * size >= total
    ensures total > 0 ==> (PageCount(total, size) - 1) * size < total
    ensures PageCount(total, size) == 0 <==> total == 0
  {
    var n := total + size - 1;
    var r := n / size;
    assert n == r * size + n % size;
  }

  /** `skip(skip).limit(size)` over a sequence. */
  function Window<T>(s: seq<T>, skip: nat, size: nat): (r: seq<T>)
    ensures |r| <= size
    ensures skip <= |s| ==> r == s[skip..if skip + size <= |s| then skip + size else |s|]
    ensures skip >= |s| ==> r == []
  {
    if skip >= |s| then [] else if skip + size <= |s| then s[skip..skip + size] else s[skip..]
  }

  datatype Listing = Listing(products: seq<Product>, page: int, pages: nat, total: nat)

  /**
   * GET /api/products over a catalogue already in the requested sort order: the
   * matching products, the page of them asked for, and the counts.
   */
  function ListProducts(catalogue: seq<Product>, q: Query): (l: Listing)
    ensures l.page == PageNumber(q.page)
    ensures l.total == |Matching(catalogue, BuildFilter(q))|
    ensures l.pages == PageCount(l.total, PageSize(q.limit))
    ensures l.products == Window(Matching(catalogue, BuildFilter(q)), (l.page - 1) * PageSize(q.limit), PageSize(q.limit))
  {
    var matching := Matching(catalogue, BuildFilter(q));
    var page := PageNumber(q.page);
    var size := PageSize(q.limit);
    Listing(Window(matching, (page - 1) * size, size), page, PageCount(|matching|, size), |matching|)
  }

  /**
   * Every listed product is active, in the requested category, featured when asked,
   * within the price bounds and at least the minimum rating.
   */
  lemma ListedProductsMatch(catalogue: seq<Product>, q: Query, p: Product)
    requires p in ListProducts(catalogue, q).products
    ensures p in catalogue && p.isActive
    ensures q.category != "" ==> CategoryName(p.category) == q.category
    ensures q.isFeatured == "true" ==> p.isFeatured
    ensures q.minPrice.Some? ==> p.price >= q.minPrice.value
    ensures q.maxPrice.Some? ==> p.price <= q.maxPrice.value
    ensures q.minRating.Some? ==> p.rating >= q.minRating.value
  {
    var m := Matching(catalogue, BuildFilter(q));
    var l := ListProducts(catalogue, q);
    assert forall x :: x in l.products ==> x in m;
  }

  /** A page never holds more products than the clamped page size, so never more than 100. */
  lemma PageAtMostHundred(catalogue: seq<Product>, q: Query)
    ensures |ListProducts(catalogue, q).products| <= 100
    ensures 1 <= q.limit <= 100 ==> |ListProducts(catalogue, q).products| <= q.limit
  {
  }

  /** The i-th matching product is listed on the page whose window covers position i. */
  lemma EveryMatchIsOnAPage(catalogue: seq<Product>, q: Query, i: nat)
    requires i < |Matching(catalogue, BuildFilter(q))|
    requires q.page >= 1
    requires (q.page - 1) * PageSize(q.limit) <= i < (q.page - 1) * PageSize(q.limit) + PageSize(q.limit)
    ensures Matching(catalogue, BuildFilter(q))[i] in ListProducts(catalogue, q).products
  {
    PageContains(Matching(catalogue, BuildFilter(q)), q.page, PageSize(q.limit), i);
  }

  lemma PageContains<T>(s: seq<T>, page: int, size: nat, i: nat)
    requires page >= 1 && (page - 1) * size <= i < (page - 1) * size + size && i < |s|
    ensures s[i] in Window(s, (page - 1) * size, size)
  {
    var before: nat := page - 1;
    var skip: nat := before * size;
    assert Window(s, skip, size)[i - skip] == s[i];
  }

  /** Every position has such a page: page i / size + 1. */
  lemma PageOfPosition(i: nat, size: nat)
    requires size >= 1
    ensures var page := i / size + 1;
      (page - 1) * size <= i < (page - 1) * size + size
  {
  }

  /** Three matching products with limit 2 make two pages, and the second page holds one. */
  lemma ThreeMatchesTwoPerPage(catalogue: seq<Product>, q: Query)
    requires |Matching(catalogue, BuildFilter(q))| == 3 && q.limit == 2
    ensures ListProducts(catalogue, q).pages == 2
    ensures q.page == 2 ==> |ListProducts(catalogue, q).products| == 1
  {
  }

  /** With prices $50 to $80, every listed product costs between 5000 and 8000 cents. */
  lemma PriceRangeListing(catalogue: seq<Product>, p: Product)
    requires p in ListProducts(catalogue, DefaultQuery.(minPrice := Some(5000), maxPrice := Some(8000))).products
    ensures 5000 <= p.price <= 8000
  {
    ListedProductsMatch(catalogue, DefaultQuery.(minPrice := Some(5000), maxPrice := Some(8000)), p);
  }

  /** GET /api/products/categories: the distinct categories of the active products. */
  function Categories(products: map<ProductId, Product>): (r: set<Category>)
    ensures forall c :: c in r <==> exists id :: id in products && products[id].isActive && products[id].category == c
  {
    set id | id in products && products[id].isActive :: products[id].category
  }

  /** GET /api/products/:id: a missing or inactive product is not found (404). */
  function GetProduct(products: map<ProductId, Product>, id: ProductId): (r: Option<Product>)
    ensures r.Some? <==> id in products && products[id].isActive
    ensures r.Some? ==> r.value == products[id]
  {
    if id in products && products[id].isActive then Some(products[id]) else None
  }

  /** DELETE /api/products/:id: mark the product inactive. An unknown id is not an error. */
  method SoftDelete(db: Database, id: ProductId) returns (reply: Reply)
    requires db.Valid()
    modifies db`products
    ensures db.Valid()
    ensures reply == Success(200)
    ensures id in old(db.products) ==> db.products == old(db.products)[id := old(db.products)[id].(isActive := false)]
    ensures id !in old(db.products) ==> db.products == old(db.products)
  {
    if id in db.products {
      db.products := db.products[id := db.products[id].(isActive := false)];
    }
    reply := Success(200);
  }

  /** A deleted product is no longer found by id and no longer listed. */
  lemma DeletedIsHidden(products: map<ProductId, Product>, id: ProductId, catalogue: seq<Product>, q: Query)
    requires id in products
    ensures GetProduct(products[id := products[id].(isActive := false)], id).None?
    ensures products[id].(isActive := false) !in ListProducts(catalogue, q).products
  {
    if products[id].(isActive := false) in ListProducts(catalogue, q).products {
      ListedProductsMatch(catalogue, q, products[id].(isActive := false));
    }
  }

  /** Has this user reviewed the product already? */
  function ReviewedBy(reviews: seq<Review>, user: UserId): (b: bool)
    ensures b <==> exists i :: 0 <= i < |reviews| && reviews[i].user == user
  {
    if reviews == [] then false
    else reviews[|reviews| - 1].user == user || ReviewedBy(reviews[..|reviews| - 1], user)
  }

  /** The two request validators: a whole rating from 1 to 5 and a comment that is not blank. */
  predicate ReviewInputValid(rating: Option<int>, comment: string)
  {
    rating.Some? && 1 <= rating.value <= 5 && Trim(comment) != ""
  }

  const InvalidValue: string := "Invalid value"

  /**
   * POST /api/products/:id/reviews. `rating` is None when the body's rating is not an
   * integer; the stored comment is the trimmed one (the validator sanitises it).
   */
  method AddReview(db: Database, id: ProductId, user: UserId, userName: string, rating: Option<int>, comment: string)
    returns (reply: Reply)
    requires db.Valid()
    modifies db`products
    ensures db.Valid()
    ensures reply != Success(201) ==> db.products == old(db.products)
    ensures !ReviewInputValid(rating, comment) ==> reply == Failure(400, InvalidValue)
    ensures ReviewInputValid(rating, comment) && id !in old(db.products) ==> reply == Failure(404, "Product not found")
    ensures ReviewInputValid(rating, comment) && id in old(db.products) && ReviewedBy(old(db.products)[id].reviews, user)
      ==> reply == Failure(400, "Product already reviewed")
    ensures ReviewInputValid(rating, comment) && id in old(db.products) && !ReviewedBy(old(db.products)[id].reviews, user)
      ==> (var p := old(db.products)[id];
           && reply == Success(201)
           && db.products == old(db.products)[id := UpdateRating(p.(reviews := p.reviews + [Review(user, userName, rating.value, Trim(comment))]))])
  {
    if !ReviewInputValid(rating, comment) {
      return Failure(400, InvalidValue);
    }
    if id !in db.products {
      return Failure(404, "Product not found");
    }
    var p := db.products[id];
    if ReviewedBy(p.reviews, user) {
      return Failure(400, "Product already reviewed");
    }
    p := p.(reviews := p.reviews + [Review(user, userName, rating.value, Trim(comment))]);
    p := UpdateRating(p);
    db.products := db.products[id := p];
    reply := Success(201);
  }

  /** An accepted review appends exactly one entry, and keeps one review per user. */
  lemma AcceptedReviewAppendsOne(p: Product, user: UserId, userName: string, rating: int, comment: string)
    requires !ReviewedBy(p.reviews, user)
    requires forall i, j :: 0 <= i < j < |p.reviews| ==> p.reviews[i].user != p.reviews[j].user
    ensures var q := UpdateRating(p.(reviews := p.reviews + [Review(user, userName, rating, comment)]));
      && |q.reviews| == |p.reviews| + 1 && q.reviews[..|p.reviews|] == p.reviews
      && q.numReviews == |p.reviews| + 1
      && forall i, j :: 0 <= i < j < |q.reviews| ==> q.reviews[i].user != q.reviews[j].user
  {
  }

  /** After an accepted valid review the rating is between 1 and 5 stars. */
  lemma AcceptedReviewRating(p: Product, user: UserId, userName: string, rating: int, comment: string)
    requires ValidProduct(p) && 1 <= rating <= 5
    ensures 10 <= UpdateRating(p.(reviews := p.reviews + [Review(user, userName, rating, comment)])).rating <= 50
  {
    RatingInRange(p.(reviews := p.reviews + [Review(user, userName, rating, comment)]));
  }
}

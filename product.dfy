/**
 * The product record of the catalogue: its field constraints, the nine-value
 * category enumeration, the discounted sale price and the rating recomputed from
 * the reviews. Prices are in cents, ratings in tenths of a star.
 */
module ProductModel {
  import opened Common
  import opened Money

  datatype Category = Electronics | Clothing | Books | HomeAndGarden | Sports | Beauty | Toys | Food | Other

  /** The stored spelling of each category. */
  function CategoryName(c: Category): string
  {
    match c
    case Electronics => "Electronics"
    case Clothing => "Clothing"
    case Books => "Books"
    case HomeAndGarden => "Home & Garden"
    case Sports => "Sports"
    case Beauty => "Beauty"
    case Toys => "Toys"
    case Food => "Food"
    case Other => "Other"
  }

  /** The enum validator: a string is accepted as a category only if it is one of the nine names. */
  function ParseCategory(s: string): (r: Option<Category>)
    ensures r.Some? ==> CategoryName(r.value) == s
  {
    if s == "Electronics" then Some(Electronics)
    else if s == "Clothing" then Some(Clothing)
    else if s == "Books" then Some(Books)
    else if s == "Home & Garden" then Some(HomeAndGarden)
    else if s == "Sports" then Some(Sports)
    else if s == "Beauty" then Some(Beauty)
    else if s == "Toys" then Some(Toys)
    else if s == "Food" then Some(Food)
    else if s == "Other" then Some(Other)
    else None
  }

  /** Every category name is accepted and parses back to its category. */
  lemma ParseCategoryName(c: Category)
    ensures ParseCategory(CategoryName(c)) == Some(c)
  {
  }

  datatype Image = Image(url: string, alt: string)

  datatype Review = Review(user: UserId, name: string, rating: int, comment: string)

  datatype Product = Product(
    name: string,
    slug: string,
    description: string,
    shortDescription: string,
    price: int,                 // cents
    comparePrice: Option<int>,  // cents
    images: seq<Image>,
    category: Category,
    brand: string,
    sku: string,
    stock: int,
    tags: seq<string>,
    reviews: seq<Review>,
    rating: int,                // tenths of a star
    numReviews: int,
    isFeatured: bool,
    isActive: bool,
    discount: int)              // percent

  /** A review's rating is a whole number of stars from 1 to 5. */
  predicate ValidReview(r: Review) { 1 <= r.rating <= 5 }

  /** The schema's numeric constraints on a stored product. */
  predicate ValidProduct(p: Product)
  {
    && p.price >= 0
    && (p.comparePrice.Some? ==> p.comparePrice.value >= 0)
    && p.stock >= 0
    && 0 <= p.discount <= 100
    && forall i :: 0 <= i < |p.reviews| ==> ValidReview(p.reviews[i])
  }

  /**
   * The `salePrice` virtual: the price reduced by the discount percentage, rounded to
   * cents, or the plain price when there is no discount.
   */
  function SalePrice(p: Product): (r: int)
    ensures p.discount <= 0 ==> r == p.price
    ensures ValidProduct(p) ==> 0 <= r <= p.price
  {
    if p.discount <= 0 then p.price
    else if ValidProduct(p) then
      SalePriceBounds(p.price, p.discount);
      Round(p.price * (100 - p.discount), 100)
    else Round(p.price * (100 - p.discount), 100)
  }

  /** A discount in [0, 100] applied to a non-negative price never raises it nor makes it negative. */
  lemma SalePriceBounds(price: int, discount: int)
    requires price >= 0 && 0 <= discount <= 100
    ensures 0 <= Round(price * (100 - discount), 100) <= price
  {
    var n := price * (100 - discount);
    assert 0 <= n <= price * 100;
    RoundHalfUpMonotone(n, price * 100, 100);
    RoundHalfUpExact(price, 100);
  }

  /** A full discount makes the sale price 0. */
  lemma FullDiscountIsFree(p: Product)
    requires p.price >= 0 && p.discount == 100
    ensures SalePrice(p) == 0
  {
  }

  /** The sum of the star ratings of a list of reviews. */
  function RatingSum(reviews: seq<Review>): int
  {
    if reviews == [] then 0 else RatingSum(reviews[..|reviews| - 1]) + reviews[|reviews| - 1].rating
  }

  lemma {:induction false} RatingSumBounds(reviews: seq<Review>)
    requires forall i :: 0 <= i < |reviews| ==> ValidReview(reviews[i])
    ensures |reviews| <= RatingSum(reviews) <= 5 * |reviews|
  {
    if reviews != [] {
      RatingSumBounds(reviews[..|reviews| - 1]);
    }
  }

  /**
   * `updateRating`: numReviews becomes the number of reviews and rating their mean
   * rounded to one decimal (here: to a whole number of tenths); both are 0 with no reviews.
   */
  function UpdateRating(p: Product): (q: Product)
    ensures q == p.(rating := q.rating, numReviews := q.numReviews)
    ensures q.numReviews == |p.reviews|
    ensures p.reviews == [] ==> q.rating == 0
    ensures p.reviews != [] && RatingSum(p.reviews) >= 0 ==>
      -|p.reviews| < 2 * |p.reviews| * q.rating - 20 * RatingSum(p.reviews) <= |p.reviews|
    ensures p.reviews != [] && RatingSum(p.reviews) < 0 ==>
      -|p.reviews| <= 2 * |p.reviews| * q.rating - 20 * RatingSum(p.reviews) < |p.reviews|
  {
    if |p.reviews| == 0 then p.(rating := 0, numReviews := 0)
    else
      var n := |p.reviews|;
      var s := 10 * RatingSum(p.reviews);
      if s >= 0 then
        RoundHalfUpNearest(s, n);
        p.(numReviews := n, rating := Round(s, n))
      else
        RoundHalfUpNearest(-s, n);
        p.(numReviews := n, rating := Round(s, n))
  }

  /**
   * With valid reviews the recomputed rating is between 1 and 5 stars (10 and 50 tenths)
   * whenever there is at least one review.
   */
  lemma RatingInRange(p: Product)
    requires forall i :: 0 <= i < |p.reviews| ==> ValidReview(p.reviews[i])
    requires p.reviews != []
    ensures 10 <= UpdateRating(p).rating <= 50
  {
    var n := |p.reviews|;
    RatingSumBounds(p.reviews);
    var s := RatingSum(p.reviews);
    RoundHalfUpMonotone(10 * n, 10 * s, n);
    RoundHalfUpMonotone(10 * s, 50 * n, n);
    RoundHalfUpExact(10, n);
    RoundHalfUpExact(50, n);
  }
}

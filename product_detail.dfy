/**
 * The product page: the average rating and the rating distribution handed
 * to the review section, the filled stars, the quantity selector and the
 * add-to-cart guard.
 */
module ProductDetail {
  import opened Wrappers
  import opened Schema
  import opened Seqs
  import opened Text
  import Tallies
  import ReviewSection

  function Rating(r: Review): int
  {
    r.rating
  }

  /** `averageRating`: the mean rating, 0 without reviews. */
  function AverageRating(reviews: seq<Review>): (avg: real)
    ensures reviews == [] ==> avg == 0.0
    ensures reviews != [] ==> avg * |reviews| as real == Sum(reviews, Rating) as real
  {
    if |reviews| > 0 then Sum(reviews, Rating) as real / |reviews| as real else 0.0
  }

  ghost predicate RatingsInRange(reviews: seq<Review>)
  {
    forall i :: 0 <= i < |reviews| ==> 1 <= reviews[i].rating <= 5
  }

  /** With ratings from the picker, a non-empty list averages between 1 and 5. */
  lemma AverageInRange(reviews: seq<Review>)
    requires reviews != [] && RatingsInRange(reviews)
    ensures 1.0 <= AverageRating(reviews) <= 5.0
  {
    var total := Sum(reviews, Rating);
    SumWithin(reviews, Rating, 1, 5);
    assert |reviews| as real <= total as real <= 5.0 * |reviews| as real;
    MeanWithin(|reviews|, total as real, AverageRating(reviews), 1.0, 5.0);
  }

  /** The page and the review section fill `⌊averageRating⌋` of the five stars, at least one. */
  lemma StarsShowAverage(reviews: seq<Review>)
    requires reviews != [] && RatingsInRange(reviews)
    ensures ReviewSection.FilledCount(ReviewSection.Stars(AverageRating(reviews))) == AverageRating(reviews).Floor
    ensures 1 <= AverageRating(reviews).Floor <= 5
  {
    AverageInRange(reviews);
    ReviewSection.FilledStarsIsFloor(AverageRating(reviews));
  }

  /** `ratingDistribution`: the number of reviews with each rating. */
  method RatingDistribution(reviews: seq<Review>) returns (distribution: map<int, nat>)
    ensures forall r :: Tallies.CountOr(distribution, r) == Tallies.Occurrences(reviews, Rating, r)
    ensures forall r :: r in distribution <==> Tallies.Occurrences(reviews, Rating, r) > 0
  {
    var order;
    distribution, order := Tallies.Tally(reviews, Rating);
    Tallies.KeysInOrderExact(reviews, Rating);
  }

  function RatingCounts(reviews: seq<Review>): nat
  {
    Tallies.Occurrences(reviews, Rating, 1) + Tallies.Occurrences(reviews, Rating, 2)
      + Tallies.Occurrences(reviews, Rating, 3) + Tallies.Occurrences(reviews, Rating, 4)
      + Tallies.Occurrences(reviews, Rating, 5)
  }

  /** With ratings from the picker, the five counts add up to the number of reviews. */
  lemma {:induction false} CountsCoverReviews(reviews: seq<Review>)
    requires RatingsInRange(reviews)
    ensures RatingCounts(reviews) == |reviews|
  {
    if reviews != [] {
      CountsCoverReviews(reviews[..|reviews| - 1]);
    }
  }

  /** The quantity selector: never below 1. */
  class QuantitySelector {
    var quantity: int

    ghost predicate Valid()
      reads this
    {
      quantity >= 1
    }

    constructor()
      ensures Valid() && quantity == 1
    {
      quantity := 1;
    }

    /** The minus button: `max(1, quantity - 1)`. */
    method Decrement()
      requires Valid()
      modifies this
      ensures Valid()
      ensures old(quantity) > 1 ==> quantity == old(quantity) - 1
      ensures old(quantity) == 1 ==> quantity == 1
    {
      quantity := if quantity - 1 > 1 then quantity - 1 else 1;
    }

    /** The plus button. */
    method Increment()
      requires Valid()
      modifies this
      ensures Valid() && quantity == old(quantity) + 1
    {
      quantity := quantity + 1;
    }

    /** Typing into the field: `max(1, parseInt(text) || 1)`. */
    method Type(text: string)
      modifies this
      ensures Valid() && quantity == TypedQuantity(text)
    {
      quantity := TypedQuantity(text);
    }
  }

  /** `Math.max(1, parseInt(text) || 1)`: NaN and 0 both fall back to 1. */
  function TypedQuantity(text: string): (q: int)
    ensures q >= 1
    ensures ParseIntPrefix(text).None? ==> q == 1
    ensures ParseIntPrefix(text).Some? && ParseIntPrefix(text).value >= 1 ==> q == ParseIntPrefix(text).value
    ensures ParseIntPrefix(text).Some? && ParseIntPrefix(text).value < 1 ==> q == 1
  {
    match ParseIntPrefix(text)
    case None => 1
    case Some(v) => if v == 0 then 1 else if v > 1 then v else 1
  }

  /** Text that does not start with a number selects one. */
  lemma NonNumericQuantityIsOne(text: string)
    requires text != [] && !IsSpace(text[0]) && !IsDigit(text[0]) && text[0] != '-' && text[0] != '+'
    ensures TypedQuantity(text) == 1
  {
    TrimStartNoSpace(text);
    assert DigitRun(text) == [];
  }

  /** What pressing "Add to Cart" does. */
  datatype AddOutcome = SignInRequired | NotLoaded | OutOfStock | AddToCart(productId: Id, quantity: int)

  /** `handleAddToCart`: signed in, product loaded and a stock other than exactly 0. */
  function HandleAddToCart(authenticated: bool, product: Option<Product>, quantity: int): (r: AddOutcome)
    ensures r.AddToCart? <==> authenticated && product.Some? && product.value.stock != 0
    ensures r.AddToCart? ==> r.productId == product.value.id && r.quantity == quantity
    ensures !authenticated ==> r == SignInRequired
    ensures authenticated && product.None? ==> r == NotLoaded
    ensures authenticated && product.Some? && product.value.stock == 0 ==> r == OutOfStock
  {
    if !authenticated then SignInRequired
    else if product.None? then NotLoaded
    else if product.value.stock == 0 then OutOfStock
    else AddToCart(product.value.id, quantity)
  }

  /** The guard tests for exactly 0: a product with negative stock can still be added. */
  lemma NegativeStockStillAdds(p: Product, quantity: int)
    requires p.stock < 0
    ensures HandleAddToCart(true, Some(p), quantity) == AddToCart(p.id, quantity)
  {
  }
}

/**
 * The review section of a product page: the review form with its submit
 * guard, the "time ago" label of a review, the rating bars and the filled
 * stars. The rating distribution and the average come from the product page.
 */
module ReviewSection {
  import opened Wrappers
  import opened Schema
  import opened Text
  import Tallies

  /** The review form: its fields and whether it is shown. */
  class ReviewForm {
    var userName: string
    var rating: int
    var comment: string
    var shown: bool

    /** The rating is always one the picker offers. */
    ghost predicate Valid()
      reads this
    {
      1 <= rating <= 5
    }

    /** The form starts hidden, empty, with five stars picked. */
    constructor()
      ensures Valid() && userName == "" && rating == 5 && comment == "" && !shown
    {
      userName, rating, comment, shown := "", 5, "", false;
    }

    /** "Write a Review" toggles the form. */
    method Toggle()
      modifies this
      ensures shown == !old(shown)
      ensures userName == old(userName) && rating == old(rating) && comment == old(comment)
    {
      shown := !shown;
    }

    /** Clicking star `i` (0 to 4) picks rating `i + 1`. */
    method PickStar(i: nat)
      requires i < 5
      modifies this
      ensures Valid() && rating == i + 1
      ensures userName == old(userName) && comment == old(comment) && shown == old(shown)
    {
      rating := i + 1;
    }

    method SetUserName(name: string)
      requires Valid()
      modifies this
      ensures Valid() && userName == name
      ensures rating == old(rating) && comment == old(comment) && shown == old(shown)
    {
      userName := name;
    }

    method SetComment(text: string)
      requires Valid()
      modifies this
      ensures Valid() && comment == text
      ensures userName == old(userName) && rating == old(rating) && shown == old(shown)
    {
      comment := text;
    }

    /**
     * `handleSubmitReview`: nothing is posted while the name or the comment is
     * empty; otherwise the review is posted unverified, with the picked rating.
     */
    method HandleSubmit(productId: Id) returns (review: Option<NewReview>)
      requires Valid()
      ensures review.None? <==> userName == "" || comment == ""
      ensures review.Some? ==> review.value.productId == productId
      ensures review.Some? ==> review.value.userName == userName && review.value.comment == comment
      ensures review.Some? ==> review.value.isVerified == Some(false)
      ensures review.Some? ==> 1 <= review.value.rating <= 5 && review.value.rating == rating
    {
      if userName == "" || comment == "" {
        review := None;
      } else {
        review := Some(NewReview(productId, userName, rating, comment, Some(false)));
      }
    }

    /** After a successful post the form is hidden and reset. */
    method OnSubmitted()
      modifies this
      ensures Valid() && !shown && userName == "" && rating == 5 && comment == ""
    {
      shown := false;
      userName, rating, comment := "", 5, "";
    }
  }

  /** `Math.floor((now - date) / day)`. */
  function DaysBetween(now: Time, date: Time): int
  {
    (now - date) / DayMillis
  }

  /** `formatTimeAgo` on a whole-day difference. */
  function TimeAgo(days: int): string
  {
    if days == 0 then "Today"
    else if days == 1 then "Yesterday"
    else if days < 7 then IntToString(days) + " days ago"
    else if days < 30 then IntToString(days / 7) + " weeks ago"
    else IntToString(days / 30) + " months ago"
  }

  /** The buckets: days from 2 to 6, weeks (1 to 4) from 7 to 29 days, months from 30 days. */
  lemma TimeAgoBuckets(days: int)
    ensures days == 0 ==> TimeAgo(days) == "Today"
    ensures days == 1 ==> TimeAgo(days) == "Yesterday"
    ensures 2 <= days < 7 ==> TimeAgo(days) == NatToString(days) + " days ago"
    ensures 7 <= days < 30 ==> 1 <= days / 7 <= 4 && TimeAgo(days) == NatToString(days / 7) + " weeks ago"
    ensures days >= 30 ==> days / 30 >= 1 && TimeAgo(days) == NatToString(days / 30) + " months ago"
  {
  }

  /** A date in the future (a negative difference) falls in the "days ago" bucket. */
  lemma FutureDateReadsAsDaysAgo(days: int)
    requires days < 0
    ensures TimeAgo(days) == "-" + NatToString(-days) + " days ago"
  {
  }

  /** A review posted earlier the same day reads "Today". */
  lemma SameDayIsToday(now: Time, date: Time)
    requires date <= now < date + DayMillis
    ensures TimeAgo(DaysBetween(now, date)) == "Today"
  {
  }

  /** `reviews.length ? (count / reviews.length) * 100 : 0`. */
  function Percentage(count: nat, total: nat): (r: real)
    ensures total == 0 ==> r == 0.0
    ensures r >= 0.0
  {
    if total > 0 then (count as real / total as real) * 100.0 else 0.0
  }

  /** A count within the total gives a bar between 0 and 100 percent. */
  lemma PercentageBounded(count: nat, total: nat)
    requires count <= total
    ensures 0.0 <= Percentage(count, total) <= 100.0
  {
    if total > 0 {
      assert count as real / total as real <= 1.0;
    }
  }

  /** The bars, from five stars down to one: each rating's count and its share. */
  function RatingBars(distribution: map<int, nat>, total: nat): (bars: seq<(int, nat, real)>)
    ensures |bars| == 5
    ensures forall i :: 0 <= i < 5 ==>
      bars[i].0 == 5 - i && bars[i].1 == Tallies.CountOr(distribution, 5 - i)
    ensures forall i :: 0 <= i < 5 ==> bars[i].2 == Percentage(bars[i].1, total)
  {
    seq(5, i requires 0 <= i < 5 =>
      var count := Tallies.CountOr(distribution, 5 - i);
      (5 - i, count, Percentage(count, total)))
  }

  /** Without reviews every bar is empty. */
  lemma NoReviewsNoBars(distribution: map<int, nat>)
    ensures forall i :: 0 <= i < 5 ==> RatingBars(distribution, 0)[i].2 == 0.0
  {
  }

  /** `i < Math.floor(averageRating)` for each of the five stars. */
  function Stars(average: real): (filled: seq<bool>)
    ensures |filled| == 5
    ensures forall i :: 0 <= i < 5 ==> (filled[i] <==> i < average.Floor)
  {
    seq(5, i => i < average.Floor)
  }

  /** The number of filled stars. */
  function FilledCount(stars: seq<bool>): nat
  {
    if stars == [] then 0 else (if stars[0] then 1 else 0) + FilledCount(stars[1..])
  }

  /** A run of flags set exactly below a threshold has as many set flags as the run reaches. */
  lemma {:induction false} FilledBelow(s: seq<bool>, start: int, f: int)
    requires forall i :: 0 <= i < |s| ==> (s[i] <==> start + i < f)
    ensures FilledCount(s) == if f - start <= 0 then 0 else if f - start >= |s| then |s| else f - start
  {
    if s != [] {
      FilledBelow(s[1..], start + 1, f);
    }
  }

  /** An average between 0 and 5 fills exactly its floor of stars. */
  lemma FilledStarsIsFloor(average: real)
    requires 0.0 <= average <= 5.0
    ensures FilledCount(Stars(average)) == average.Floor
  {
    FilledBelow(Stars(average), 0, average.Floor);
  }
}

/** The review section of the product page: the fetched reviews, a five-star
    picker, a comment box and the submit button. */
module Review {
  import opened Common

  /** A review as the review endpoints return it. */
  datatype ReviewRecord = ReviewRecord(userName: Option<string>, rating: int, comment: string)

  /** The body of the add-review request. */
  datatype ReviewRequest = ReviewRequest(product: string, rating: int, comment: string)

  /** Why a submission was not sent. */
  datatype Refusal = MissingRatingOrComment | LoginRequired

  /** The checks before submitting, in order: a comment and a star rating
      first, then a session. */
  function SubmitCheck(comment: string, rating: int, token: Option<string>): (r: Option<Refusal>)
    ensures comment == "" || rating == 0 ==> r == Some(MissingRatingOrComment)
    ensures comment != "" && rating != 0 && !Truthy(token) ==> r == Some(LoginRequired)
    ensures r.None? <==> comment != "" && rating != 0 && Truthy(token)
  {
    if comment == "" || rating == 0 then Some(MissingRatingOrComment)
    else if !Truthy(token) then Some(LoginRequired)
    else None
  }

  /** Star `star` (1 to 5) is drawn filled. */
  predicate StarFilled(rating: int, star: int)
  {
    rating >= star
  }

  /** The number of filled stars among stars 1..k. */
  function FilledCount(rating: int, k: nat): (r: nat)
    ensures r <= k
  {
    if k == 0 then 0 else FilledCount(rating, k - 1) + (if StarFilled(rating, k) then 1 else 0)
  }

  /** The filled stars are the first `rating` ones (clamped to 0..k), so a
      rating of 0..5 shows exactly that many filled stars out of five. */
  lemma {:induction false} FilledCountIsRating(rating: int, k: nat)
    ensures FilledCount(rating, k) == if rating <= 0 then 0 else if rating >= k then k else rating
  {
    if k > 0 {
      FilledCountIsRating(rating, k - 1);
    }
  }

  /** Filled stars form a prefix: a filled star has only filled stars
      before it. */
  lemma FilledStarsArePrefix(rating: int, s: int, t: int)
    requires t <= s && StarFilled(rating, s)
    ensures StarFilled(rating, t)
  {
  }

  class ReviewSection {
    const productId: string
    var reviews: seq<ReviewRecord>
    var loading: bool
    var comment: string
    var rating: int
    var submitting: bool

    /** The picker's rating is 0 (nothing picked) or a star value. */
    predicate RatingInRange()
      reads this
    {
      0 <= rating <= 5
    }

    constructor (productId: string)
      ensures this.productId == productId
      ensures reviews == [] && loading && comment == "" && rating == 0 && !submitting
      ensures RatingInRange()
    {
      this.productId := productId;
      reviews, loading, comment, rating, submitting := [], true, "", 0, false;
    }

    /** `fetchReviews`: a success replaces the list with the reply's reviews
        (none when the reply has no data); anything else keeps it. */
    method FetchReviews(reply: Reply<Option<seq<ReviewRecord>>>)
      modifies this`reviews, this`loading
      ensures reply.Success? && reply.data.Some? ==> reviews == reply.data.value
      ensures reply.Success? && reply.data.None? ==> reviews == []
      ensures !reply.Success? ==> reviews == old(reviews)
      ensures !loading
    {
      loading := true;
      if reply.Success? {
        reviews := if reply.data.Some? then reply.data.value else [];
      }
      loading := false;
    }

    method SetComment(text: string)
      modifies this`comment
      ensures comment == text
    {
      comment := text;
    }

    /** Tapping one of the five stars of the picker. */
    method SetRating(star: int)
      requires 1 <= star <= 5
      modifies this`rating
      ensures rating == star && RatingInRange()
    {
      rating := star;
    }

    /** `handleAddReview`. A refused submission sends nothing and changes
        nothing. Otherwise the request carries the product, rating and
        comment; a success appends the returned review and clears the form,
        any other outcome keeps everything; the busy flag is off afterwards. */
    method HandleAddReview(token: Option<string>, reply: Reply<ReviewRecord>) returns (request: Option<ReviewRequest>)
      requires RatingInRange()
      modifies this`reviews, this`comment, this`rating, this`submitting
      ensures RatingInRange()
      ensures SubmitCheck(old(comment), old(rating), token).Some? ==>
        request.None? && reviews == old(reviews) && comment == old(comment) &&
        rating == old(rating) && submitting == old(submitting)
      ensures SubmitCheck(old(comment), old(rating), token).None? ==>
        request == Some(ReviewRequest(productId, old(rating), old(comment))) && !submitting
      ensures SubmitCheck(old(comment), old(rating), token).None? && reply.Success? ==>
        reviews == old(reviews) + [reply.data] && comment == "" && rating == 0
      ensures SubmitCheck(old(comment), old(rating), token).None? && !reply.Success? ==>
        reviews == old(reviews) && comment == old(comment) && rating == old(rating)
    {
      if SubmitCheck(comment, rating, token).Some? {
        return None;
      }
      submitting := true;
      request := Some(ReviewRequest(productId, rating, comment));
      if reply.Success? {
        comment := "";
        rating := 0;
        reviews := reviews + [reply.data];
      }
      submitting := false;
    }
  }
}

/** The star rating (components/star-rating.tsx): five star buttons, a
    hovered star kept as local state, and a click that reports the chosen
    rating to the owner. The rating is a number that may have a fraction;
    it is modelled as an exact real. */
module StarRating {
  import opened JsText

  const StarCount := 5

  /** `readonly ? rating : (hoverRating || rating)` */
  function DisplayRating(readonly: bool, rating: real, hoverRating: int): (d: real)
    ensures readonly ==> d == rating
    ensures !readonly && hoverRating != 0 ==> d == hoverRating as real
    ensures hoverRating == 0 ==> d == rating
  {
    if readonly then rating else if hoverRating != 0 then hoverRating as real else rating
  }

  /** Star `star`, of 1 to 5, is drawn filled. */
  predicate Filled(star: int, display: real): (b: bool)
    ensures b <==> star <= display.Floor
  {
    star as real <= display
  }

  /** How many stars a displayed rating fills: its whole part, kept within 0..5. */
  function LitCount(display: real): (n: nat)
    ensures n <= StarCount
  {
    if display < 1.0 then 0 else if display >= StarCount as real then StarCount else display.Floor
  }

  /** The filled stars are exactly the first `LitCount` of them. */
  lemma FilledStarsArePrefix(display: real, star: int)
    requires 1 <= star <= StarCount
    ensures Filled(star, display) <==> star <= LitCount(display)
  {
  }

  /** One star rating, as rendered for a rating and its owner's options. */
  class Stars {
    const rating: real
    const readonly: bool
    /** Whether the owner passed `onRatingChange`. */
    const hasCallback: bool
    var hoverRating: int

    /** A read-only rating is never hovered; a hovered star is one of the five. */
    predicate Valid()
      reads this
    {
      0 <= hoverRating <= StarCount && (readonly ==> hoverRating == 0)
    }

    constructor (rating: real, readonly: bool, hasCallback: bool)
      ensures Valid() && hoverRating == 0
      ensures this.rating == rating && this.readonly == readonly && this.hasCallback == hasCallback
    {
      this.rating := rating;
      this.readonly := readonly;
      this.hasCallback := hasCallback;
      hoverRating := 0;
    }

    function Display(): real
      reads this
    {
      DisplayRating(readonly, rating, hoverRating)
    }

    /** `handleClick(star)`: the call `onRatingChange(star)` made, if any. */
    function Click(star: int): (call: Option<int>)
      reads this
      ensures call.Some? <==> !readonly && hasCallback
      ensures call.Some? ==> call.value == star
    {
      if !readonly && hasCallback then Some(star) else None
    }

    /** The mouse enters star `star`: an editable rating previews it, so
        exactly the stars up to it are filled. */
    method MouseEnter(star: int)
      requires Valid() && 1 <= star <= StarCount
      modifies this
      ensures Valid()
      ensures hoverRating == if readonly then old(hoverRating) else star
      ensures !readonly ==> forall s :: 1 <= s <= StarCount ==> (Filled(s, Display()) <==> s <= star)
    {
      if !readonly {
        hoverRating := star;
      }
    }

    /** The mouse leaves a star: an editable rating shows the rating again. */
    method MouseLeave()
      requires Valid()
      modifies this
      ensures Valid()
      ensures hoverRating == 0
      ensures Display() == rating
    {
      if !readonly {
        hoverRating := 0;
      }
    }
  }
}

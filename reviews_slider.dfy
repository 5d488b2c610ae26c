/**
 * The reviews carousel (frontend/src/components/ReviewsSlider.jsx): the
 * track holds the reviews with the last three cloned in front and the first
 * three behind, the index moves one card per tick and jumps back by `n` when
 * it reaches the clones at the end, and each card shows a star rating.
 */
module ReviewsSlider {
  import opened Wrappers
  import opened Text

  /** `VISIBLE`: the number of cards in view. */
  const Visible: nat := 3

  /** A review as the endpoint returns it; a rating that is not a number is None. */
  datatype Review = Review(userName: Option<String>, comment: String, rating: Option<real>)

  function Min(a: nat, b: nat): nat {
    if a <= b then a else b
  }

  /** `reviews.slice(-VISIBLE)`: the last three (all of them when fewer). */
  function LastFew<T>(s: seq<T>): (r: seq<T>)
    ensures |r| == Min(Visible, |s|)
    ensures r == s[|s| - |r|..]
  {
    if |s| <= Visible then s else s[|s| - Visible..]
  }

  /** `reviews.slice(0, VISIBLE)`: the first three (all of them when fewer). */
  function FirstFew<T>(s: seq<T>): (r: seq<T>)
    ensures |r| == Min(Visible, |s|)
    ensures r == s[..|r|]
  {
    if |s| <= Visible then s else s[..Visible]
  }

  /** `extended`: the clones in front, the reviews, the clones behind. */
  function Extended<T>(s: seq<T>): (r: seq<T>)
    ensures |r| == |s| + 2 * Min(Visible, |s|)
    ensures forall i :: 0 <= i < |s| ==> r[Min(Visible, |s|) + i] == s[i]
  {
    LastFew(s) + s + FirstFew(s)
  }

  /**
   * The clones make the jump seamless: the cards in view at index
   * `n + m` (where the reset fires) are those in view at index `m`, and the
   * cards just before the first real one are the last real ones.
   */
  lemma ExtendedWraps<T>(s: seq<T>)
    ensures var m := Min(Visible, |s|);
      Extended(s)[|s| + m..|s| + 2 * m] == Extended(s)[m..2 * m] &&
      Extended(s)[..m] == s[|s| - m..]
  {
    var m := Min(Visible, |s|);
    var front, back := LastFew(s), FirstFew(s);
    assert Extended(s) == front + s + back;
    ConcatParts(front, s, back, m);
  }

  /** The three pieces of `a + b + c`, and the first `k` of `b` inside it. */
  lemma ConcatParts<T>(a: seq<T>, b: seq<T>, c: seq<T>, k: nat)
    requires k <= |b|
    ensures (a + b + c)[..|a|] == a
    ensures (a + b + c)[|a| + |b|..] == c
    ensures (a + b + c)[|a|..|a| + k] == b[..k]
  {
    var e := a + b + c;
    assert forall i :: 0 <= i < |a| ==> e[i] == a[i];
    assert forall i :: 0 <= i < |c| ==> e[|a| + |b| + i] == c[i];
    assert forall i :: 0 <= i < k ==> e[|a| + i] == b[i];
  }

  /** `Number(review.rating) || 5`: a missing, non-numeric or zero rating counts as 5. */
  function RatingNumber(rating: Option<real>): (r: real)
    ensures rating.None? ==> r == 5.0
    ensures rating.Some? && rating.value == 0.0 ==> r == 5.0
    ensures rating.Some? && rating.value != 0.0 ==> r == rating.value
  {
    match rating
    case None => 5.0
    case Some(v) => if v == 0.0 then 5.0 else v
  }

  /** The five stars, star `i` filled when `i < ratingNumber`. */
  function Stars(rating: Option<real>): (r: seq<bool>)
    ensures |r| == 5
    ensures forall i :: 0 <= i < 5 ==> (r[i] <==> (i as real) < RatingNumber(rating))
  {
    seq(5, i requires 0 <= i < 5 => (i as real) < RatingNumber(rating))
  }

  function CountFilled(stars: seq<bool>): nat {
    if stars == [] then 0 else (if stars[0] then 1 else 0) + CountFilled(stars[1..])
  }

  /** A row filled exactly below position `k` has `k` filled stars. */
  lemma {:induction false} CountFilledBelow(stars: seq<bool>, k: int)
    requires 0 <= k <= |stars|
    requires forall i :: 0 <= i < |stars| ==> (stars[i] <==> i < k)
    ensures CountFilled(stars) == k
  {
    if stars != [] {
      var k' := if k > 0 then k - 1 else 0;
      forall i | 0 <= i < |stars| - 1
        ensures stars[1..][i] <==> i < k'
      {
        assert stars[1..][i] == stars[i + 1];
      }
      CountFilledBelow(stars[1..], k');
    }
  }

  /** A whole rating from 1 to 5 fills that many stars; a missing one fills all five. */
  lemma StarsForRating(k: int)
    requires 1 <= k <= 5
    ensures CountFilled(Stars(Some(k as real))) == k
    ensures CountFilled(Stars(None)) == 5
  {
    CountFilledBelow(Stars(Some(k as real)), k);
    CountFilledBelow(Stars(None), 5);
  }

  /** The avatar letter: `userName?.[0]?.toUpperCase()`. */
  function AvatarLetter(userName: Option<String>): (r: Option<char>)
    ensures r.None? <==> userName.None? || userName.value == ""
    ensures r.Some? ==> r.value == Upper(userName.value[..1])[0]
  {
    match userName
    case Some(name) => if name != "" then Some(Upper(name[..1])[0]) else None
    case None => None
  }

  /** What the component renders. */
  datatype View = Skeleton | Nothing | Track(cards: seq<Review>, index: int)

  class Slider {
    var reviews: seq<Review>
    var loading: bool
    var index: int

    /** The index stays within the track: at 3 while nothing moves, and between 3 and `n + 3` otherwise. */
    predicate Valid()
      reads this
    {
      if |reviews| <= Visible then index == Visible
      else Visible <= index <= |reviews| + Visible
    }

    /** The index is not on the end clones, so no reset is pending. */
    predicate Settled()
      reads this
    {
      |reviews| <= Visible || index < |reviews| + Visible
    }

    /** Mounting: loading, no reviews, the index at `VISIBLE`. */
    constructor ()
      ensures Valid() && Settled()
      ensures loading && reviews == [] && index == Visible
    {
      reviews := [];
      loading := true;
      index := Visible;
    }

    /** The fetch finished: its reviews (`|| []`) on success, the old list on an error. */
    method Loaded(success: bool, list: Option<seq<Review>>)
      modifies this`reviews, this`loading
      requires Valid() && reviews == []
      ensures success ==> reviews == list.GetOr([])
      ensures !success ==> reviews == old(reviews)
      ensures !loading && Valid() && Settled()
    {
      if success {
        reviews := list.GetOr([]);
      }
      loading := false;
    }

    /**
     * One 4-second tick: the index advances only when there are more
     * reviews than fit. The reset 700 ms after reaching the end always comes
     * before the next tick, so a tick starts from a settled index.
     */
    method Tick()
      modifies this`index
      requires Valid() && Settled()
      ensures |reviews| > Visible ==> index == old(index) + 1
      ensures |reviews| <= Visible ==> index == old(index)
      ensures Valid()
    {
      if |reviews| > Visible {
        index := index + 1;
      }
    }

    /** The reset effect: on the end clones the index jumps back to `VISIBLE`. */
    method Settle()
      modifies this`index
      requires Valid()
      ensures |reviews| > Visible && old(index) == |reviews| + Visible ==> index == Visible
      ensures !(|reviews| > Visible && old(index) == |reviews| + Visible) ==> index == old(index)
      ensures Valid() && Settled()
    {
      if |reviews| > Visible && index == |reviews| + Visible {
        index := Visible;
      }
    }

    function Render(): (v: View)
      reads this
      ensures loading ==> v == Skeleton
      ensures !loading && reviews == [] ==> v == Nothing
      ensures v.Track? ==> v.cards == Extended(reviews) && v.index == index
    {
      if loading then Skeleton
      else if reviews == [] then Nothing
      else Track(Extended(reviews), index)
    }
  }

  /** With five reviews the index walks 3, 4, …, 8 and then comes back to 3. */
  method FullCycle(five: seq<Review>) returns (path: seq<int>)
    requires |five| == 5
    ensures path == [3, 4, 5, 6, 7, 8, 3]
  {
    var s := new Slider();
    s.Loaded(true, Some(five));
    path := [s.index];
    var k := 0;
    while k < 4
      invariant 0 <= k <= 4
      invariant s.reviews == five && s.index == Visible + k && s.Valid() && s.Settled()
      invariant path == seq(k + 1, i => 3 + i)
    {
      s.Tick();
      s.Settle();
      path := path + [s.index];
      k := k + 1;
    }
    s.Tick();
    path := path + [s.index];
    s.Settle();
    path := path + [s.index];
  }
}

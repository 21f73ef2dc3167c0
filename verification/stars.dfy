/** The five-star rating display shared by the review list and the review card. */
module Stars {
  const STAR_COUNT := 5

  /** Star `i`, for `i` from 1 to 5, is lit exactly when `i <= rating`. */
  function Stars(rating: int): (s: seq<bool>)
    ensures |s| == STAR_COUNT
    ensures forall k :: 0 <= k < STAR_COUNT ==> (s[k] <==> k + 1 <= rating)
  {
    seq(STAR_COUNT, k requires 0 <= k < STAR_COUNT => k + 1 <= rating)
  }

  /** The number of lit stars. */
  function CountLit(s: seq<bool>): nat {
    if s == [] then 0 else CountLit(s[..|s| - 1]) + (if s[|s| - 1] then 1 else 0)
  }

  /** `rating` held between `0` and `n`. */
  function Clamp(rating: int, n: nat): nat {
    if rating < 0 then 0 else if rating > n then n else rating
  }

  /** The first `n` stars light `rating` of themselves, held between 0 and `n`. */
  lemma {:induction false} LitPrefix(rating: int, n: nat)
    requires n <= STAR_COUNT
    ensures CountLit(Stars(rating)[..n]) == Clamp(rating, n)
  {
    if n > 0 {
      LitPrefix(rating, n - 1);
      assert Stars(rating)[..n][..n - 1] == Stars(rating)[..n - 1];
    }
  }

  /** An integer rating lights `min(max(rating, 0), 5)` stars. */
  lemma LitCount(rating: int)
    ensures CountLit(Stars(rating)) == Clamp(rating, STAR_COUNT)
  {
    LitPrefix(rating, STAR_COUNT);
    assert Stars(rating)[..STAR_COUNT] == Stars(rating);
  }

  /** `renderStars`: a loop from 1 to 5 that pushes one star per step. */
  method RenderStars(rating: int) returns (stars: seq<bool>)
    ensures stars == Stars(rating)
    ensures CountLit(stars) == Clamp(rating, STAR_COUNT)
  {
    stars := [];
    var i := 1;
    while i <= STAR_COUNT
      invariant 1 <= i <= STAR_COUNT + 1
      invariant stars == Stars(rating)[..i - 1]
    {
      stars := stars + [i <= rating];
      i := i + 1;
    }
    assert stars == Stars(rating);
    LitCount(rating);
  }
}

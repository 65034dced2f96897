/** The client's text and rating helpers. */
module Utils {

  // ---------------------------------------------------------------- truncateText

  /**
   * Where `text.slice(0, end)` stops: a negative end counts back from the
   * length, and either way the cut lies within the text.
   */
  function SliceEnd(length: nat, end: int): (r: nat)
    ensures r <= length
    ensures 0 <= end <= length ==> r == end
    ensures end < 0 ==> r == (if length + end < 0 then 0 else length + end)
  {
    if end < 0 then (if length + end < 0 then 0 else length + end)
    else if end > length then length
    else end
  }

  /**
   * `truncateText`: a text no longer than `maxLength` is returned as it is;
   * a longer one is cut with `slice(0, maxLength)` and gets "..." appended.
   */
  function TruncateText(text: string, maxLength: int): (r: string)
    ensures |text| <= maxLength ==> r == text
    ensures |text| > maxLength ==> r == text[..SliceEnd(|text|, maxLength)] + "..."
    ensures |text| > maxLength >= 0 ==> |r| == maxLength + 3 && r[..maxLength] == text[..maxLength]
  {
    if |text| <= maxLength then text
    else text[..SliceEnd(|text|, maxLength)] + "..."
  }

  /**
   * Truncating an already truncated text to the same non-negative length
   * changes nothing: the cut keeps the same prefix and the ellipsis returns.
   */
  lemma TruncateTwice(text: string, maxLength: int)
    requires maxLength >= 0
    ensures TruncateText(TruncateText(text, maxLength), maxLength) == TruncateText(text, maxLength)
  {
    var once := TruncateText(text, maxLength);
    if |text| > maxLength {
      assert |once| > maxLength;
      assert once[..maxLength] == text[..maxLength];
    }
  }

  // ---------------------------------------------------------------- ratingToArray

  /** `rating % 1 !== 0`: the rating has a fractional part, so it lies strictly above its floor. */
  predicate HasHalfStar(rating: real)
    ensures HasHalfStar(rating) <==> rating.Floor as real < rating
  {
    rating.Floor as real != rating
  }

  /** `Math.floor(rating)`, as the number of times the full-star loop runs (none for a negative floor). */
  function FullStars(rating: real): (r: nat)
    ensures rating >= 0.0 ==> r == rating.Floor
    ensures r as real <= (if rating < 0.0 then 0.0 else rating)
  {
    if rating.Floor < 0 then 0 else rating.Floor
  }

  /** `n` copies of `x`. */
  function Repeat(x: real, n: nat): (r: seq<real>)
    ensures |r| == n && forall i :: 0 <= i < n ==> r[i] == x
  {
    seq(n, _ => x)
  }

  /**
   * The stars for a rating: a 1 per full star, a 0.5 if the rating has a
   * fractional part, then 0s until there are five entries.
   */
  function Stars(rating: real): (r: seq<real>)
    ensures |r| >= 5
    ensures forall i :: 0 <= i < |r| ==> r[i] == 0.0 || r[i] == 0.5 || r[i] == 1.0
  {
    var head := Repeat(1.0, FullStars(rating)) + (if HasHalfStar(rating) then [0.5] else []);
    head + Repeat(0.0, if |head| < 5 then 5 - |head| else 0)
  }

  /** `ratingToArray`: pushes the full stars, then the half star, then the empty stars. */
  method RatingToArray(rating: real) returns (result: seq<real>)
    ensures result == Stars(rating)
  {
    result := [];
    var fullStars := rating.Floor;
    var hasHalfStar := HasHalfStar(rating);
    var i := 0;
    while i < fullStars
      invariant 0 <= i <= FullStars(rating)
      invariant result == Repeat(1.0, i)
      decreases fullStars - i
    {
      result := result + [1.0];
      i := i + 1;
    }
    assert result == Repeat(1.0, FullStars(rating));
    if hasHalfStar {
      result := result + [0.5];
    }
    ghost var head := result;
    assert head == Repeat(1.0, FullStars(rating)) + (if HasHalfStar(rating) then [0.5] else []);
    while |result| < 5
      invariant |head| <= |result|
      invariant result == head + Repeat(0.0, |result| - |head|)
      invariant |head| < 5 ==> |result| <= 5
      invariant |head| >= 5 ==> |result| == |head|
      decreases 5 - |result|
    {
      result := result + [0.0];
    }
    assert |result| - |head| == (if |head| < 5 then 5 - |head| else 0);
  }

  /** A rating between 0 and 5 gives exactly five entries; any rating gives at least five. */
  lemma StarsLength(rating: real)
    ensures |Stars(rating)| >= 5
    ensures 0.0 <= rating <= 5.0 ==> |Stars(rating)| == 5
  {
    if 0.0 <= rating <= 5.0 && HasHalfStar(rating) {
      assert rating.Floor < 5;
    }
  }

  /** For a non-negative rating the entries never increase from left to right. */
  lemma StarsNonIncreasing(rating: real)
    requires rating >= 0.0
    ensures forall i, j :: 0 <= i < j < |Stars(rating)| ==> Stars(rating)[i] >= Stars(rating)[j]
  {
    var s := Stars(rating);
    var full := FullStars(rating);
    forall i, j | 0 <= i < j < |s|
      ensures s[i] >= s[j]
    {
      assert s[i] == (if i < full then 1.0 else if i == full && HasHalfStar(rating) then 0.5 else 0.0);
      assert s[j] == (if j < full then 1.0 else if j == full && HasHalfStar(rating) then 0.5 else 0.0);
    }
  }

  /**
   * There is a 0.5 entry exactly when the rating has a fractional part, and
   * never two: 4.1 and 4.7 both show one half star.
   */
  lemma StarsHalfStar(rating: real)
    ensures HasHalfStar(rating) <==> exists i :: 0 <= i < |Stars(rating)| && Stars(rating)[i] == 0.5
    ensures forall i, j ::
              0 <= i < |Stars(rating)| && 0 <= j < |Stars(rating)| && Stars(rating)[i] == 0.5 && Stars(rating)[j] == 0.5
              ==> i == j
    ensures HasHalfStar(rating) ==> Stars(rating)[FullStars(rating)] == 0.5
  {
    var s := Stars(rating);
    var full := FullStars(rating);
    forall i | 0 <= i < |s|
      ensures s[i] == (if i < full then 1.0 else if i == full && HasHalfStar(rating) then 0.5 else 0.0)
    {
    }
    if HasHalfStar(rating) {
      assert s[full] == 0.5;
    }
  }
}

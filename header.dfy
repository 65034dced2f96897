/**
 * The site header: which navigation link is highlighted for the current
 * location, and the cart badge.
 */
module Header {
  import opened Wrappers
  import opened CartContext

  /** `s.split('/')`: the pieces between slashes, an empty piece where two slashes meet or at either end. */
  function Split(s: string): (r: seq<string>)
    ensures |r| >= 1
    ensures forall i :: 0 <= i < |r| ==> '/' !in r[i]
  {
    if |s| == 0 then [""]
    else
      var rest := Split(s[1..]);
      if s[0] == '/' then [""] + rest
      else [[s[0]] + rest[0]] + rest[1..]
  }

  /** `pieces.join('/')`. */
  function JoinPath(pieces: seq<string>): string
    requires |pieces| >= 1
  {
    if |pieces| == 1 then pieces[0] else pieces[0] + "/" + JoinPath(pieces[1..])
  }

  /** Splitting loses nothing: joining the pieces with slashes gives the path back. */
  lemma {:induction false} SplitJoin(s: string)
    ensures JoinPath(Split(s)) == s
  {
    if |s| > 0 {
      SplitJoin(s[1..]);
      var rest := Split(s[1..]);
      if s[0] == '/' {
        assert ([""] + rest)[1..] == rest;
        assert s == [s[0]] + s[1..];
      } else {
        var r := [[s[0]] + rest[0]] + rest[1..];
        if |rest| == 1 {
          assert s == [s[0]] + rest[0];
        } else {
          assert r[1..] == rest[1..];
          assert JoinPath(rest) == rest[0] + "/" + JoinPath(rest[1..]);
          assert s == [s[0]] + rest[0] + "/" + JoinPath(rest[1..]);
        }
      }
    }
  }

  /** A piece without slashes splits into itself. */
  lemma {:induction false} SplitSegment(seg: string)
    requires '/' !in seg
    ensures Split(seg) == [seg]
  {
    if |seg| > 0 {
      assert '/' !in seg[1..] by {
        forall c | c in seg[1..] ensures c != '/' {
          var k :| 0 <= k < |seg[1..]| && seg[1..][k] == c;
          assert seg[k + 1] == c;
        }
      }
      SplitSegment(seg[1..]);
      assert [seg[0]] + seg[1..] == seg;
    }
  }

  /** A piece without slashes followed by the rest of a path splits as that piece glued to the rest's first piece. */
  lemma {:induction false} SplitPrefix(seg: string, rest: string)
    requires '/' !in seg
    ensures Split(seg + rest) == [seg + Split(rest)[0]] + Split(rest)[1..]
  {
    if |seg| > 0 {
      assert '/' !in seg[1..] by {
        forall c | c in seg[1..] ensures c != '/' {
          var k :| 0 <= k < |seg[1..]| && seg[1..][k] == c;
          assert seg[k + 1] == c;
        }
      }
      assert (seg + rest)[1..] == seg[1..] + rest;
      assert (seg + rest)[0] == seg[0];
      SplitPrefix(seg[1..], rest);
      assert [seg[0]] + (seg[1..] + Split(rest)[0]) == seg + Split(rest)[0];
    } else {
      assert seg + rest == rest;
      assert seg + Split(rest)[0] == Split(rest)[0];
      assert Split(rest) == [Split(rest)[0]] + Split(rest)[1..];
    }
  }

  /** `location.split('/')[1]`, which is `undefined` when there is no second piece. */
  function SecondPiece(s: string): (r: Option<string>)
    ensures r.Some? ==> '/' !in r.value
  {
    var pieces := Split(s);
    if |pieces| > 1 then Some(pieces[1]) else None
  }

  /** What `isActive` compares: "/" for the root, otherwise the first path segment. */
  function Section(path: string): (r: Option<string>)
    ensures path == "/" <==> r == Some("/")
  {
    if path == "/" then Some("/") else SecondPiece(path)
  }

  /**
   * `isActive(path)` at `location`. Two missing segments (`undefined === undefined`)
   * count as equal. A link is always active on its own page, and the root
   * matches only the root.
   */
  function IsActive(location: string, path: string): (r: bool)
    ensures location == path ==> r
    ensures r ==> (location == "/" <==> path == "/")
  {
    Section(location) == Section(path)
  }

  /** The home link is highlighted on the home page and nowhere else. */
  lemma HomeActiveOnlyAtRoot(location: string)
    ensures IsActive(location, "/") <==> location == "/"
  {
    assert Section("/") == Some("/");
    if location != "/" {
      assert Section(location) != Some("/");
    }
  }

  /** `/seg` and every path below it (`/seg/...`) fall in the section `seg`. */
  lemma SectionOfSubpath(seg: string, rest: string)
    requires '/' !in seg && seg != ""
    ensures Section("/" + seg) == Some(seg)
    ensures Section("/" + seg + "/" + rest) == Some(seg)
  {
    SplitSegment(seg);
    assert Split("/" + seg) == [""] + Split(seg) by {
      assert ("/" + seg)[1..] == seg;
    }
    SplitPrefix(seg, "/" + rest);
    assert Split("/" + seg + "/" + rest) == [""] + Split(seg + "/" + rest) by {
      assert ("/" + seg + "/" + rest)[1..] == seg + "/" + rest;
    }
    assert Split("/" + rest)[0] == "" by {
      assert ("/" + rest)[0] == '/';
    }
    assert seg + "/" + rest == seg + ("/" + rest);
    assert seg + "" == seg;
    assert Split("/" + seg + "/" + rest)[1] == seg;
    assert "/" + seg + "/" + rest != "/";
  }

  /** A link `/seg` is highlighted on every page below it: "/products/x" highlights "/products". */
  lemma SubpathHighlightsSection(seg: string, rest: string)
    requires '/' !in seg && seg != ""
    ensures IsActive("/" + seg + "/" + rest, "/" + seg)
    ensures IsActive("/" + seg, "/" + seg)
  {
    SectionOfSubpath(seg, rest);
  }

  /** Two pages in the same section highlight the same links, whatever follows the section. */
  lemma SameSectionSameLinks(seg: string, rest1: string, rest2: string, path: string)
    requires '/' !in seg && seg != ""
    ensures IsActive("/" + seg + "/" + rest1, path) == IsActive("/" + seg + "/" + rest2, path)
  {
    SectionOfSubpath(seg, rest1);
    SectionOfSubpath(seg, rest2);
  }

  /** `cart?.items?.length || 0`: the number of lines, not of units. */
  function BadgeCount(cart: Option<ClientCart>): (r: nat)
    ensures cart.None? ==> r == 0
    ensures cart.Some? ==> r == |cart.value.items|
  {
    if cart.None? then 0 else |cart.value.items|
  }

  /** The badge is rendered only for a positive count: for a cart with at least one line. */
  predicate ShowBadge(cart: Option<ClientCart>)
    ensures ShowBadge(cart) <==> cart.Some? && cart.value.items != []
  {
    BadgeCount(cart) > 0
  }

  /** With every quantity at least 1, the badge never shows more than the cart's item count. */
  lemma BadgeAtMostItemCount(cart: Option<ClientCart>)
    requires cart.Some? ==> PositiveQuantities(Strip(cart.value.items))
    ensures BadgeCount(cart) <= CartItemCount(cart)
    ensures ShowBadge(cart) <==> cart.Some? && cart.value.items != []
  {
    if cart.Some? {
      ItemCountAtLeastLines(Strip(cart.value.items));
    }
  }
}

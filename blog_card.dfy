/**
 * The post card (src/components/BlogCard.jsx): HTML-tag stripping, the
 * 80-character preview, the cover-image fallback, the route a click opens
 * and the hover flag.
 */
module BlogCard {
  import opened Js
  import opened Text
  import opened Seqs
  import opened Records

  const DefaultImage := "https://images.unsplash.com/photo-1499750310107-5fef28a66643?w=500&auto=format&fit=crop&q=60&ixlib=rb-4.0.3&ixid=M3wxMjA3fDB8MHxzZWFyY2h8Mnx8YmxvZ3xlbnwwfHwwfHx8MA%3D%3D"
  const PreviewLimit := 80
  const Ellipsis := "..."

  /** The card's `variant` prop; it defaults to `View`. */
  datatype Variant = View | Manage

  /** `post.image_url || post.image || defaultImage`. */
  function CoverImage(p: Post): (r: string)
    ensures r != ""
    ensures Truthy(p.imageUrl) ==> r == p.imageUrl.value
    ensures !Truthy(p.imageUrl) && Truthy(p.image) ==> r == p.image.value
    ensures !Truthy(p.imageUrl) && !Truthy(p.image) ==> r == DefaultImage
  {
    OrElse(p.imageUrl, OrElse(p.image, DefaultImage))
  }

  // ---------------------------------------------------------------------
  // `html.replace(/<[^>]+>/g, "")`
  // ---------------------------------------------------------------------

  /** The index of the first '>' in `s` at or after `i`, or `|s|` when there is none. */
  function IndexOfGt(s: string, i: nat): (k: nat)
    requires i <= |s|
    ensures i <= k <= |s|
    ensures k < |s| ==> s[k] == '>'
    ensures forall m :: i <= m < k ==> s[m] != '>'
    decreases |s| - i
  {
    if i == |s| then |s| else if s[i] == '>' then i else IndexOfGt(s, i + 1)
  }

  /**
   * The pattern `<[^>]+>` matches at the start of `s`: a '<', at least one
   * character that is not '>', then a '>'. Since `[^>]` cannot cross a '>',
   * the match always ends at the first '>' after the '<'.
   */
  predicate TagAt(s: string) {
    |s| > 0 && s[0] == '<' && 2 <= IndexOfGt(s, 1) < |s|
  }

  /**
   * The global replace scans left to right: a match at the current position
   * is deleted and the scan resumes after it; otherwise one character is
   * kept and the scan moves on by one.
   */
  function StripTags(s: string): (r: string)
    ensures |r| <= |s|
    decreases |s|
  {
    if s == [] then []
    else if TagAt(s) then StripTags(s[IndexOfGt(s, 1) + 1..])
    else [s[0]] + StripTags(s[1..])
  }

  /** `stripAllHtmlTags(html)`: "" for an absent or empty input. */
  function StripAllHtmlTags(html: Field): (r: string)
    ensures !Truthy(html) ==> r == ""
    ensures Truthy(html) ==> IsSubsequence(r, html.value) && |r| <= |html.value|
  {
    if !Truthy(html) then ""
    else
      StripTagsSubsequence(html.value);
      SubsequenceLength(StripTags(html.value), html.value);
      StripTags(html.value)
  }

  /** The stripped text is the input with some characters deleted, in order. */
  lemma {:induction false} StripTagsSubsequence(s: string)
    ensures IsSubsequence(StripTags(s), s)
    decreases |s|
  {
    if s == [] {
    } else if TagAt(s) {
      var k := IndexOfGt(s, 1);
      StripTagsSubsequence(s[k + 1..]);
      SubsequenceOfSuffix(StripTags(s[k + 1..]), s, k + 1);
    } else {
      StripTagsSubsequence(s[1..]);
      assert ([s[0]] + StripTags(s[1..]))[1..] == StripTags(s[1..]);
    }
  }

  /** A string without '<' has no tag to remove. */
  lemma {:induction false} StripTagsNoLt(s: string)
    requires '<' !in s
    ensures StripTags(s) == s
    decreases |s|
  {
    if s != [] {
      assert s[1..] + [] == s[1..];
      assert forall c :: c in s[1..] ==> c in s;
      StripTagsNoLt(s[1..]);
    }
  }

  /** A string without '>' has no tag to remove, so an unclosed '<' survives. */
  lemma {:induction false} StripTagsNoGt(s: string)
    requires '>' !in s
    ensures StripTags(s) == s
    decreases |s|
  {
    if s != [] {
      assert !TagAt(s) by {
        assert forall m :: 0 <= m < |s| ==> s[m] != '>' by {
          forall m | 0 <= m < |s| ensures s[m] != '>' {
            assert s[m] in s;
          }
        }
      }
      assert forall c :: c in s[1..] ==> c in s;
      StripTagsNoGt(s[1..]);
    }
  }

  /** A span '<' t '>' with a non-empty `t` free of '>' is deleted entirely. */
  lemma StripTagsRemovesTag(t: string, u: string)
    requires t != [] && '>' !in t
    ensures StripTags("<" + t + ">" + u) == StripTags(u)
  {
    var s := "<" + t + ">" + u;
    var k := IndexOfGt(s, 1);
    assert s[|t| + 1] == '>';
    forall m | 1 <= m <= |t| ensures s[m] != '>' {
      assert s[m] == t[m - 1];
      assert t[m - 1] in t;
    }
    assert k == |t| + 1;
    assert TagAt(s);
    assert s[k + 1..] == u;
  }

  /** "<>" is not a tag: both characters survive. */
  lemma StripTagsKeepsEmptyBrackets(u: string)
    ensures StripTags("<>" + u) == "<>" + StripTags(u)
  {
    var s := "<>" + u;
    assert IndexOfGt(s, 1) == 1;
    assert !TagAt(s);
    assert s[1..] == ">" + u;
    assert !TagAt(s[1..]);
    assert s[1..][1..] == u;
  }

  /** No tag starts anywhere in `r`. */
  predicate NoTags(r: string)
    decreases |r|
  {
    r == [] || (!TagAt(r) && NoTags(r[1..]))
  }

  lemma {:induction false} NoTagsFixed(r: string)
    requires NoTags(r)
    ensures StripTags(r) == r
    decreases |r|
  {
    if r != [] {
      NoTagsFixed(r[1..]);
    }
  }

  /** Stripping leaves no tag behind. */
  lemma {:induction false} StripTagsLeavesNoTags(s: string)
    ensures NoTags(StripTags(s))
    decreases |s|
  {
    if s == [] {
    } else if TagAt(s) {
      StripTagsLeavesNoTags(s[IndexOfGt(s, 1) + 1..]);
    } else {
      var rest := StripTags(s[1..]);
      var r := [s[0]] + rest;
      StripTagsLeavesNoTags(s[1..]);
      assert r[1..] == rest;
      if s[0] == '<' && |s| > 1 {
        var k := IndexOfGt(s, 1);
        if k == 1 {
          // "<>": the '>' is kept right after the '<'
          assert !TagAt(s[1..]);
          assert rest == [s[1]] + StripTags(s[2..]) by {
            assert s[1..][1..] == s[2..];
          }
          assert r[1] == '>';
          assert IndexOfGt(r, 1) == 1;
        } else {
          // no '>' after the '<': none is kept either
          assert k == |s|;
          assert '>' !in s[1..] by {
            forall m | 0 <= m < |s| - 1 ensures s[1..][m] != '>' {
              assert s[m + 1] != '>';
            }
          }
          StripTagsNoGt(s[1..]);
          forall m | 1 <= m < |r| ensures r[m] != '>' {
            assert r[m] == s[1..][m - 1];
          }
          assert IndexOfGt(r, 1) == |r|;
        }
      }
    }
  }

  /** Stripping an already stripped text changes nothing. */
  lemma StripTagsIdempotent(s: string)
    ensures StripTags(StripTags(s)) == StripTags(s)
  {
    StripTagsLeavesNoTags(s);
    NoTagsFixed(StripTags(s));
  }

  // ---------------------------------------------------------------------
  // Preview text
  // ---------------------------------------------------------------------

  /** `plain.length > 80 ? plain.substring(0, 80) + "..." : plain`. */
  function Truncate(plain: string): (r: string)
    ensures |r| <= PreviewLimit + |Ellipsis|
    ensures |plain| <= PreviewLimit ==> r == plain
    ensures |plain| > PreviewLimit ==>
      (|r| == PreviewLimit + |Ellipsis| && r[..PreviewLimit] == plain[..PreviewLimit] && r[PreviewLimit..] == Ellipsis)
  {
    if |plain| > PreviewLimit then plain[..PreviewLimit] + Ellipsis else plain
  }

  /** The first truthy of `description`, `excerpt`, `content`. */
  function PreviewSource(p: Post): Field {
    OrField(p.description, OrField(p.excerpt, p.content))
  }

  /** The card's `previewText`. */
  function PreviewText(p: Post): (r: string)
    ensures |r| <= PreviewLimit + |Ellipsis|
    ensures !Truthy(p.description) && !Truthy(p.excerpt) && !Truthy(p.content) ==> r == ""
  {
    var src := PreviewSource(p);
    if Truthy(src) then Truncate(StripAllHtmlTags(src)) else ""
  }

  /** The preview is the truncated, stripped text of the first non-empty source field. */
  lemma PreviewFromFirstSource(p: Post)
    ensures Truthy(p.description) ==> PreviewText(p) == Truncate(StripTags(p.description.value))
    ensures !Truthy(p.description) && Truthy(p.excerpt) ==> PreviewText(p) == Truncate(StripTags(p.excerpt.value))
    ensures !Truthy(p.description) && !Truthy(p.excerpt) && Truthy(p.content) ==>
      PreviewText(p) == Truncate(StripTags(p.content.value))
  {
  }

  /** A short plain-text description is shown verbatim. */
  lemma ShortPlainDescriptionShownVerbatim(p: Post)
    requires Truthy(p.description) && '<' !in p.description.value && |p.description.value| <= PreviewLimit
    ensures PreviewText(p) == p.description.value
  {
    StripTagsNoLt(p.description.value);
  }

  // ---------------------------------------------------------------------
  // Click route and hover flag
  // ---------------------------------------------------------------------

  /** `handleCardClick`: the manage route inside the dashboard or for a "manage" card. */
  function ClickRoute(pathname: string, variant: Variant, id: Id): (r: string)
    ensures r == "/post/" + id <==> Includes(pathname, "/dashboard") || variant == Manage
    ensures r == "/view/" + id <==> !Includes(pathname, "/dashboard") && variant == View
  {
    assert ("/post/" + id)[1] != ("/view/" + id)[1];
    var toManage := Includes(pathname, "/dashboard") || variant == Manage;
    assert !toManage ==> variant == View;
    if toManage then "/post/" + id else "/view/" + id
  }

  /** The card's local `isHovered` state. */
  class CardHover {
    var isHovered: bool

    constructor ()
      ensures !isHovered
    {
      isHovered := false;
    }

    /** `handleMouseEnter`: returns the id passed to the `onMouseEnter` callback, if one was given. */
    method MouseEnter(p: Post, hasCallback: bool) returns (notified: Option<Id>)
      modifies this
      ensures isHovered
      ensures notified == if hasCallback then Some(p.id) else None
    {
      isHovered := true;
      notified := if hasCallback then Some(p.id) else None;
    }

    /** `handleMouseLeave`: returns whether the `onMouseLeave` callback was called. */
    method MouseLeave(hasCallback: bool) returns (notified: bool)
      modifies this
      ensures !isHovered
      ensures notified == hasCallback
    {
      isHovered := false;
      notified := hasCallback;
    }
  }
}

/**
 * Removal of markup tags from the summarisation input, as done by
 * `content.replace(/<[^>]+>/g, '')` in both widgets.
 *
 * The global regular expression is scanned left to right. At a '<' it
 * matches when at least one character other than '>' follows and a '>'
 * closes the run; the match then ends at the FIRST '>' after the '<'
 * (`[^>]` cannot cross a '>'), is deleted, and scanning resumes after it.
 * Otherwise the character is kept and scanning moves on by one.
 */
module Markup {

  /** Index of the first '>' in `s` at or after `i`, or `|s|` when there is none. */
  function CloseFrom(s: string, i: nat): (j: nat)
    requires i <= |s|
    ensures i <= j <= |s|
    ensures j < |s| ==> s[j] == '>'
    ensures forall k :: i <= k < j ==> s[k] != '>'
    decreases |s| - i
  {
    if i == |s| || s[i] == '>' then i else CloseFrom(s, i + 1)
  }

  /** `s.replace(/<[^>]+>/g, '')`. */
  function StripTags(s: string): (r: string)
    ensures |r| <= |s|
    decreases |s|
  {
    if s == [] then []
    else if s[0] == '<' && |s| >= 2 && s[1] != '>' && CloseFrom(s, 2) < |s| then
      StripTags(s[CloseFrom(s, 2) + 1..])
    else
      [s[0]] + StripTags(s[1..])
  }

  /** `s[i..j+1]` is a match of `<[^>]+>`: a '<', one or more characters other than '>', then '>'. */
  ghost predicate TagAt(s: string, i: int, j: int)
  {
    0 <= i && i + 2 <= j < |s| && s[i] == '<' && s[j] == '>' && forall k :: i < k < j ==> s[k] != '>'
  }

  /** No substring of `s` matches `<[^>]+>`. */
  ghost predicate TagFree(s: string)
  {
    forall i, j :: !TagAt(s, i, j)
  }

  /**
   * The same condition stated pointwise: every '<' that has a '>' somewhere
   * after it is immediately followed by '>' (so it can only begin "<>").
   */
  ghost predicate AnglesInert(s: string)
  {
    forall i, j :: 0 <= i < j < |s| && s[i] == '<' && s[j] == '>' ==> s[i + 1] == '>'
  }

  /** `a` is obtained from `b` by deleting characters. */
  ghost predicate IsSubsequence(a: string, b: string)
    decreases |b|
  {
    if b == [] then a == []
    else (a != [] && a[0] == b[0] && IsSubsequence(a[1..], b[1..])) || IsSubsequence(a, b[1..])
  }

  lemma {:induction false} SubsequenceOfSuffix(a: string, b: string, m: nat)
    requires m <= |b| && IsSubsequence(a, b[m..])
    ensures IsSubsequence(a, b)
    decreases m
  {
    if m > 0 {
      assert b[1..][m - 1..] == b[m..];
      SubsequenceOfSuffix(a, b[1..], m - 1);
    }
  }

  /** A subsequence is never longer and holds no character that the original lacks. */
  lemma {:induction false} SubsequenceBounds(a: string, b: string)
    requires IsSubsequence(a, b)
    ensures |a| <= |b|
    ensures forall c :: c in a ==> c in b
    decreases |b|
  {
    if b != [] {
      if a != [] && a[0] == b[0] && IsSubsequence(a[1..], b[1..]) {
        SubsequenceBounds(a[1..], b[1..]);
        assert a == [a[0]] + a[1..];
        assert b == [b[0]] + b[1..];
      } else {
        SubsequenceBounds(a, b[1..]);
        assert b == [b[0]] + b[1..];
      }
    }
  }

  /** Stripping only deletes characters: the output is a subsequence of the input, hence never longer. */
  lemma {:induction false} StripTagsSubsequence(s: string)
    ensures IsSubsequence(StripTags(s), s)
    ensures |StripTags(s)| <= |s|
    ensures forall c :: c in StripTags(s) ==> c in s
    decreases |s|
  {
    if s != [] {
      if s[0] == '<' && |s| >= 2 && s[1] != '>' && CloseFrom(s, 2) < |s| {
        var m := CloseFrom(s, 2) + 1;
        StripTagsSubsequence(s[m..]);
        SubsequenceOfSuffix(StripTags(s), s, m);
      } else {
        StripTagsSubsequence(s[1..]);
        var r := StripTags(s);
        assert r[0] == s[0] && r[1..] == StripTags(s[1..]);
      }
    }
    SubsequenceBounds(StripTags(s), s);
  }

  /** Text that does not start with '<' keeps its first character. */
  lemma StripTagsKeepsHead(c: char, t: string)
    requires c != '<'
    ensures StripTags([c] + t) == [c] + StripTags(t)
  {
  }

  /** A leading tag `<x>` with `x` non-empty and free of '>' is deleted whole. */
  lemma StripTagsDropsHead(x: string, t: string)
    requires x != [] && '>' !in x
    ensures StripTags("<" + x + ">" + t) == StripTags(t)
  {
    var s := "<" + x + ">" + t;
    assert s[1] == x[0];
    assert forall k :: 2 <= k < |x| + 1 ==> s[k] == x[k - 1] && s[k] != '>';
    assert s[|x| + 1] == '>';
    assert CloseFrom(s, 2) == |x| + 1;
    assert s[|x| + 2..] == t;
  }

  /** The two statements of "no tag left" agree. */
  lemma TagFreeIffInert(s: string)
    ensures TagFree(s) <==> AnglesInert(s)
  {
    if TagFree(s) {
      forall i, j | 0 <= i < j < |s| && s[i] == '<' && s[j] == '>'
        ensures s[i + 1] == '>'
      {
        if s[i + 1] != '>' {
          var e := CloseFrom(s, i + 2);
          assert TagAt(s, i, e);
        }
      }
    }
    if AnglesInert(s) {
      forall i, j | 0 <= i && i + 2 <= j < |s| && s[i] == '<' && s[j] == '>'
        ensures exists k :: i < k < j && s[k] == '>'
      {
        assert s[i + 1] == '>';
      }
    }
  }

  /** Stripping leaves no '<', run of non-'>' characters, '>' behind. */
  lemma {:induction false} StripTagsInert(s: string)
    ensures AnglesInert(StripTags(s))
    decreases |s|
  {
    if s != [] {
      if s[0] == '<' && |s| >= 2 && s[1] != '>' && CloseFrom(s, 2) < |s| {
        StripTagsInert(s[CloseFrom(s, 2) + 1..]);
      } else {
        var rest := StripTags(s[1..]);
        StripTagsInert(s[1..]);
        var r := StripTags(s);
        assert r == [s[0]] + rest;
        if s[0] == '<' && |s| >= 2 {
          if s[1] == '>' {
            StripTagsKeepsHead(s[1], s[2..]);
            assert s[1..] == [s[1]] + s[2..];
            assert r[1] == '>';
          } else {
            assert forall k :: 1 <= k < |s| ==> s[k] != '>';
            assert '>' !in s[1..];
            StripTagsSubsequence(s[1..]);
            assert '>' !in rest;
          }
        }
      }
    }
  }

  /** The output of stripping contains no match of `<[^>]+>`. */
  lemma StripTagsTagFree(s: string)
    ensures TagFree(StripTags(s))
  {
    StripTagsInert(s);
    TagFreeIffInert(StripTags(s));
  }

  /** Text with no tag in it is left exactly as it is. */
  lemma {:induction false} InertUnchanged(s: string)
    requires AnglesInert(s)
    ensures StripTags(s) == s
    decreases |s|
  {
    if s != [] {
      assert AnglesInert(s[1..]) by {
        forall i, j | 0 <= i < j < |s[1..]| && s[1..][i] == '<' && s[1..][j] == '>'
          ensures s[1..][i + 1] == '>'
        {
          assert s[i + 1] == '<' && s[j + 1] == '>';
        }
      }
      InertUnchanged(s[1..]);
    }
  }

  /** The strings stripping leaves unchanged are exactly the tag-free ones. */
  lemma StripTagsFixedIffTagFree(s: string)
    ensures StripTags(s) == s <==> TagFree(s)
  {
    TagFreeIffInert(s);
    if TagFree(s) {
      InertUnchanged(s);
    } else {
      StripTagsTagFree(s);
    }
  }

  /** Text without any '<' is returned unchanged. */
  lemma {:induction false} NoOpenUnchanged(s: string)
    requires '<' !in s
    ensures StripTags(s) == s
  {
    InertUnchanged(s);
  }

  /** Stripping twice is the same as stripping once. */
  lemma StripTagsIdempotent(s: string)
    ensures StripTags(StripTags(s)) == StripTags(s)
  {
    StripTagsInert(s);
    InertUnchanged(StripTags(s));
  }

  /**
   * Nested markup around plain words is removed and the words are kept, as in
   * "<p>Hello <b>world</b></p>" becoming "Hello world".
   */
  lemma StripTagsNested(hello: string, world: string)
    requires '<' !in hello && '<' !in world
    ensures StripTags("<p>" + hello + "<b>" + world + "</b></p>") == hello + world
  {
    NestedShape(hello, world);
    NestedRightAssociated(hello, world);
  }

  lemma NestedShape(hello: string, world: string)
    ensures "<p>" + hello + "<b>" + world + "</b></p>"
         == "<" + "p" + ">" + (hello + ("<" + "b" + ">" + (world + "</b></p>")))
  {
  }

  lemma NestedRightAssociated(hello: string, world: string)
    requires '<' !in hello && '<' !in world
    ensures StripTags("<" + "p" + ">" + (hello + ("<" + "b" + ">" + (world + "</b></p>")))) == hello + world
  {
    ClosingTagsVanish();
    TwoWrappedWords("p", hello, "b", world, "</b></p>");
  }

  lemma ClosingTagsVanish()
    ensures StripTags("</b></p>") == ""
  {
    StripTagsDropsHead("/p", "");
    StripTagsDropsHead("/b", "</p>");
  }

  /** `<x>hello<y>world` followed by a tail that strips to nothing leaves `hello` then `world`. */
  lemma TwoWrappedWords(x: string, hello: string, y: string, world: string, tail: string)
    requires x != [] && '>' !in x && y != [] && '>' !in y
    requires '<' !in hello && '<' !in world && StripTags(tail) == ""
    ensures StripTags("<" + x + ">" + (hello + ("<" + y + ">" + (world + tail)))) == hello + world
  {
    WrappedPlainText(y, world, tail);
    assert world + StripTags(tail) == world;
    WrappedPlainText(x, hello, "<" + y + ">" + (world + tail));
  }

  /** `<x>` then plain text then the rest: the tag goes, the text stays. */
  lemma WrappedPlainText(x: string, text: string, rest: string)
    requires x != [] && '>' !in x && '<' !in text
    ensures StripTags("<" + x + ">" + (text + rest)) == text + StripTags(rest)
  {
    KeepsPlainPrefix(text, rest);
    StripTagsDropsHead(x, text + rest);
  }

  /** A prefix with no '<' passes through in front of whatever follows. */
  lemma {:induction false} KeepsPlainPrefix(p: string, t: string)
    requires '<' !in p
    ensures StripTags(p + t) == p + StripTags(t)
    decreases |p|
  {
    if p != [] {
      assert p[0] in p && '<' !in p[1..];
      assert p + t == [p[0]] + (p[1..] + t);
      StripTagsKeepsHead(p[0], p[1..] + t);
      KeepsPlainPrefix(p[1..], t);
      calc {
        StripTags(p + t);
        [p[0]] + StripTags(p[1..] + t);
        [p[0]] + (p[1..] + StripTags(t));
        ([p[0]] + p[1..]) + StripTags(t);
        { assert [p[0]] + p[1..] == p; }
        p + StripTags(t);
      }
    } else {
      assert p + t == t;
    }
  }
}

/** Showing a labelled link, as in "http://host/page [label]", by its label alone. */
module LabelledUrls {
  import opened Option

  predicate IsBlank(c: char) { c == ' ' || c == '\t' }

  predicate StartsWith(s: string, prefix: string) {
    |prefix| <= |s| && s[..|prefix|] == prefix
  }

  predicate IsLink(s: string) {
    || StartsWith(s, "file://") || StartsWith(s, "http://") || StartsWith(s, "https://")
    || StartsWith(s, "mailto:") || StartsWith(s, "ftp://") || StartsWith(s, "audio://")
    || StartsWith(s, "beshare:") || StartsWith(s, "priv:") || StartsWith(s, "share:")
  }

  /** A link starts at i: at the beginning of the text or after a blank. */
  predicate LinkAt(s: string, i: nat)
    requires i <= |s|
  {
    (i == 0 || IsBlank(s[i - 1])) && IsLink(s[i..])
  }

  function FirstBlank(s: string, i: nat): (j: nat)
    requires i <= |s|
    ensures i <= j <= |s| && (j < |s| ==> IsBlank(s[j]))
    decreases |s| - i
  {
    if i == |s| || IsBlank(s[i]) then i else FirstBlank(s, i + 1)
  }

  function FirstNonBlank(s: string, i: nat): (j: nat)
    requires i <= |s|
    ensures i <= j <= |s| && (j < |s| ==> !IsBlank(s[j]))
    decreases |s| - i
  {
    if i == |s| || !IsBlank(s[i]) then i else FirstNonBlank(s, i + 1)
  }

  function FirstClose(s: string, i: nat): (j: nat)
    requires i <= |s|
    ensures i <= j <= |s| && (j < |s| ==> s[j] == ']')
    decreases |s| - i
  {
    if i == |s| || s[i] == ']' then i else FirstClose(s, i + 1)
  }

  /** The slice from..to of a text is shown, and reading goes on at next. */
  datatype Span = Span(from: nat, to: nat, next: nat)

  /** What becomes of the link at i: the slice of s that is shown for it, and where reading goes
      on. A link with blanks and a bracketed label after it is shown as the label; one that is
      followed by something else is shown with the first character of that; and one that is cut
      off by the end of the text is shown with all that follows. */
  function LinkSpan(s: string, i: nat): (r: Span)
    requires i < |s|
    ensures i <= r.from <= r.to <= r.next <= |s| && i < r.next
  {
    var next := FirstNonBlank(s, FirstBlank(s, i));
    if next == |s| then Span(i, |s|, |s|)
    else if s[next] != '[' then Span(i, next + 1, next + 1)
    else
      var close := FirstClose(s, next + 1);
      if close == |s| then Span(i, |s|, |s|) else Span(next + 1, close, close + 1)
  }

  /** What is shown of s from i on. A link may start at i when `open`; right after a link none
      can. */
  function Shown(s: string, i: nat, open: bool): string
    requires i <= |s|
    decreases |s| - i
  {
    if i == |s| then ""
    else if !open || !IsLink(s[i..]) then [s[i]] + Shown(s, i + 1, IsBlank(s[i]))
    else
      var Span(from, to, next) := LinkSpan(s, i);
      s[from..to] + Shown(s, next, false)
  }

  /** Where the one-pass automaton is at i: outside any link; in a link; in the blanks after
      it; or in the label. */
  ghost predicate Agrees(s: string, i: nat, url: Option<nat>, space: Option<nat>, left: Option<nat>)
    requires i <= |s|
  {
    if url.None? then space.None? && left.None?
    else if space.None? then left.None? && InLink(s, i, url.value)
    else if left.None? then InBlanks(s, i, url.value, space.value)
    else InLabel(s, i, url.value, space.value, left.value)
  }

  ghost predicate InLink(s: string, i: nat, url: nat)
    requires i <= |s|
  {
    url < i && IsLink(s[url..]) && FirstBlank(s, url) == FirstBlank(s, i)
  }

  ghost predicate InBlanks(s: string, i: nat, url: nat, space: nat)
    requires i <= |s|
  {
    && url < space < i && IsLink(s[url..])
    && FirstBlank(s, url) == space && FirstNonBlank(s, space) == FirstNonBlank(s, i)
  }

  ghost predicate InLabel(s: string, i: nat, url: nat, space: nat, left: nat)
    requires i <= |s|
  {
    && url < space < left < i && IsLink(s[url..])
    && FirstBlank(s, url) == space && FirstNonBlank(s, space) == left && s[left] == '['
    && FirstClose(s, left + 1) == FirstClose(s, i)
  }

  /** What is still to be shown: from the pending link, or else from i. */
  ghost function Pending(s: string, i: nat, url: Option<nat>, open: bool): string
    requires i <= |s| && (url.Some? ==> url.value <= |s|)
  {
    if url.Some? then Shown(s, url.value, true) else Shown(s, i, open)
  }

  lemma PlainStep(s: string, i: nat, open: bool)
    requires i < |s| && (!open || !IsLink(s[i..]))
    ensures Shown(s, i, open) == [s[i]] + Shown(s, i + 1, IsBlank(s[i]))
  {
  }

  lemma NothingLeft(s: string, open: bool)
    ensures Shown(s, |s|, open) == ""
  {
  }

  lemma FirstsHere(s: string, i: nat)
    requires i < |s|
    ensures s[i] == ']' ==> FirstClose(s, i) == i
    ensures !IsBlank(s[i]) ==> FirstNonBlank(s, i) == i
  {
  }

  lemma FirstsAtEnd(s: string)
    ensures FirstBlank(s, |s|) == FirstNonBlank(s, |s|) == FirstClose(s, |s|) == |s|
  {
  }

  /** The three cases of a link, by what its scans find. */
  lemma SpanIs(s: string, i: nat)
    requires i < |s|
    ensures var next := FirstNonBlank(s, FirstBlank(s, i));
            && (next == |s| ==> LinkSpan(s, i) == Span(i, |s|, |s|))
            && (next < |s| && s[next] != '[' ==> LinkSpan(s, i) == Span(i, next + 1, next + 1))
            && (next < |s| && s[next] == '[' ==>
                  var close := FirstClose(s, next + 1);
                  LinkSpan(s, i) == if close == |s| then Span(i, |s|, |s|) else Span(next + 1, close, close + 1))
  {
    hide FirstBlank, FirstNonBlank, FirstClose;
  }

  lemma LinkStep(s: string, u: nat)
    requires u < |s| && IsLink(s[u..])
    ensures var Span(from, to, next) := LinkSpan(s, u); Shown(s, u, true) == s[from..to] + Shown(s, next, false)
  {
    hide IsLink, LinkSpan;
  }

  /** What has been shown and what is still to be shown make up the whole. */
  ghost predicate Accounts(whole: string, shown: string, pending: string) {
    whole == shown + pending
  }

  lemma MoreShown(whole: string, shown: string, piece: string, rest: string)
    requires Accounts(whole, shown, piece + rest)
    ensures Accounts(whole, shown + piece, rest)
  {
    Regroup(shown, piece, rest);
  }

  /** The automaton at i, with what it has shown and what is pending making up the whole. */
  ghost predicate At(s: string, i: nat, ret: string, url: Option<nat>, space: Option<nat>, left: Option<nat>,
                     lastWasSpace: bool) {
    && i <= |s| && Agrees(s, i, url, space, left)
    && Accounts(Shown(s, 0, true), ret, Pending(s, i, url, lastWasSpace))
  }

  lemma AtStart(s: string)
    ensures At(s, 0, "", None, None, None, true)
  {
    assert "" + Shown(s, 0, true) == Shown(s, 0, true);
  }

  lemma AtLabelEnd(s: string, i: nat, ret: string, url: nat, space: nat, left: nat, lastWasSpace: bool)
    requires i < |s| && s[i] == ']' && At(s, i, ret, Some(url), Some(space), Some(left), lastWasSpace)
    ensures left < i && At(s, i + 1, ret + s[left + 1..i], None, None, None, false)
  {
    hide Accounts;
    LabelEnds(s, i, url, space, left);
    hide IsLink, Shown, FirstBlank, FirstNonBlank, FirstClose;
    MoreShown(Shown(s, 0, true), ret, s[left + 1..i], Shown(s, i + 1, false));
  }

  lemma LabelEnds(s: string, i: nat, url: nat, space: nat, left: nat)
    requires i < |s| && s[i] == ']' && InLabel(s, i, url, space, left)
    ensures left < i && Shown(s, url, true) == s[left + 1..i] + Shown(s, i + 1, false)
  {
    FirstsHere(s, i);
    hide IsLink, Shown, LinkSpan, FirstBlank, FirstNonBlank, FirstClose;
    SpanIs(s, url);
    LinkStep(s, url);
  }

  lemma NoLabelEnds(s: string, i: nat, url: nat, space: nat)
    requires i < |s| && !IsBlank(s[i]) && s[i] != '[' && InBlanks(s, i, url, space)
    ensures Shown(s, url, true) == s[url..i + 1] + Shown(s, i + 1, false)
  {
    FirstsHere(s, i);
    hide IsLink, Shown, LinkSpan, FirstBlank, FirstNonBlank, FirstClose;
    SpanIs(s, url);
    LinkStep(s, url);
  }

  lemma AtNoLabel(s: string, i: nat, ret: string, url: nat, space: nat, lastWasSpace: bool)
    requires i < |s| && !IsBlank(s[i]) && s[i] != '[' && At(s, i, ret, Some(url), Some(space), None, lastWasSpace)
    ensures url < i && At(s, i + 1, ret + s[url..i + 1], None, None, None, false)
  {
    hide IsLink, Shown, Accounts, FirstBlank, FirstNonBlank, FirstClose;
    NoLabelEnds(s, i, url, space);
    MoreShown(Shown(s, 0, true), ret, s[url..i + 1], Shown(s, i + 1, false));
  }

  lemma AtPlain(s: string, i: nat, ret: string, lastWasSpace: bool)
    requires i < |s| && At(s, i, ret, None, None, None, lastWasSpace) && (!lastWasSpace || !IsLink(s[i..]))
    ensures At(s, i + 1, ret + [s[i]], None, None, None, IsBlank(s[i]))
  {
    PlainStep(s, i, lastWasSpace);
    hide IsLink, Shown, Accounts;
    MoreShown(Shown(s, 0, true), ret, [s[i]], Shown(s, i + 1, IsBlank(s[i])));
  }

  lemma AtLink(s: string, i: nat, ret: string)
    requires i < |s| && At(s, i, ret, None, None, None, true) && IsLink(s[i..])
    ensures At(s, i + 1, ret, Some(i), None, None, false) && !IsBlank(s[i])
  {
    LinkStartsWithALetter(s[i..]);
    hide IsLink, Shown, Accounts;
  }

  /** The steps that only remember a place, or nothing. */
  lemma AtOther(s: string, i: nat, ret: string, url: nat, space: Option<nat>, left: Option<nat>, lastWasSpace: bool)
    requires i < |s| && At(s, i, ret, Some(url), space, left, lastWasSpace)
    ensures space.None? ==>
              At(s, i + 1, ret, Some(url), if IsBlank(s[i]) then Some(i) else None, None, IsBlank(s[i]))
    ensures space.Some? && left.None? && IsBlank(s[i]) ==>
              At(s, i + 1, ret, Some(url), space, None, true)
    ensures space.Some? && left.None? && s[i] == '[' ==>
              At(s, i + 1, ret, Some(url), space, Some(i), false)
    ensures left.Some? && s[i] != ']' ==>
              At(s, i + 1, ret, Some(url), space, left, IsBlank(s[i]))
  {
    hide IsLink, Shown, Accounts;
  }

  lemma CutOff(s: string, url: nat)
    requires url < |s| && IsLink(s[url..]) && LinkSpan(s, url) == Span(url, |s|, |s|)
    ensures Shown(s, url, true) == s[url..]
  {
    hide IsLink, LinkSpan;
    LinkStep(s, url);
    assert s[url..|s|] + "" == s[url..];
  }

  lemma PendingAtEnd(s: string, url: nat, space: Option<nat>, left: Option<nat>)
    requires Agrees(s, |s|, Some(url), space, left)
    ensures url < |s| && Shown(s, url, true) == s[url..]
  {
    FirstsAtEnd(s);
    hide IsLink, Shown, LinkSpan, FirstBlank, FirstNonBlank, FirstClose;
    SpanIs(s, url);
    CutOff(s, url);
  }

  lemma AtEnd(s: string, ret: string, url: Option<nat>, space: Option<nat>, left: Option<nat>, lastWasSpace: bool)
    requires At(s, |s|, ret, url, space, left, lastWasSpace)
    ensures url.None? ==> Shown(s, 0, true) == ret
    ensures url.Some? ==> url.value < |s| && Shown(s, 0, true) == ret + s[url.value..]
  {
    if url.None? {
      NothingLeft(s, lastWasSpace);
    } else {
      hide IsLink, Shown;
      PendingAtEnd(s, url.value, space, left);
    }
  }

  method SubstituteLabelledURLs(shortName: string) returns (ret: string)
    ensures ret == Shown(shortName, 0, true)
  {
    hide IsLink, Shown, At;
    var s := shortName;
    ret := "";
    var url: Option<nat>, space: Option<nat>, left: Option<nat> := None, None, None;
    var lastWasSpace := true;
    AtStart(s);
    var sn := 0;
    while sn < |s|
      invariant sn <= |s| && At(s, sn, ret, url, space, left, lastWasSpace)
      invariant (space.Some? ==> url.Some?) && (left.Some? ==> space.Some? && left.value < sn)
      invariant url.Some? ==> url.value < sn
    {
      var c := s[sn];
      var isSpace := IsBlank(c);
      if url.Some? {
        AtOther(s, sn, ret, url.value, space, left, lastWasSpace);
        if space.Some? {
          if left.Some? {
            if c == ']' {
              AtLabelEnd(s, sn, ret, url.value, space.value, left.value, lastWasSpace);
              ret := ret + s[left.value + 1..sn];
              url, space, left := None, None, None;
            }
          } else if !isSpace {
            if c == '[' {
              left := Some(sn);
            } else {
              AtNoLabel(s, sn, ret, url.value, space.value, lastWasSpace);
              ret := ret + s[url.value..sn + 1];
              url, space := None, None;
            }
          }
        } else if isSpace {
          space := Some(sn);
        }
      } else {
        if lastWasSpace && IsLink(s[sn..]) {
          AtLink(s, sn, ret);
          url := Some(sn);
        } else {
          AtPlain(s, sn, ret, lastWasSpace);
          ret := ret + [c];
        }
      }
      lastWasSpace := isSpace;
      sn := sn + 1;
    }
    AtEnd(s, ret, url, space, left, lastWasSpace);
    if url.Some? {
      ret := ret + s[url.value..];
    }
  }

  lemma Regroup(a: string, b: string, c: string)
    ensures a + (b + c) == a + b + c
  {
  }

  lemma LinkStartsWithALetter(s: string)
    requires IsLink(s)
    ensures s != [] && !IsBlank(s[0])
  {
    var p := if StartsWith(s, "file://") then "file://" else if StartsWith(s, "http://") then "http://"
             else if StartsWith(s, "https://") then "https://" else if StartsWith(s, "mailto:") then "mailto:"
             else if StartsWith(s, "ftp://") then "ftp://" else if StartsWith(s, "audio://") then "audio://"
             else if StartsWith(s, "beshare:") then "beshare:" else if StartsWith(s, "priv:") then "priv:"
             else "share:";
    assert s[..|p|][0] == p[0];
  }

  // ----- nothing is made up

  ghost predicate Subsequence(a: string, b: string) {
    if a == "" then true
    else if b == "" then false
    else (a[0] == b[0] && Subsequence(a[1..], b[1..])) || Subsequence(a, b[1..])
  }

  lemma {:induction false} SubsequenceAfter(a: string, skipped: string, b: string)
    requires Subsequence(a, b)
    ensures Subsequence(a, skipped + b)
  {
    if skipped == "" {
      assert skipped + b == b;
    } else if a != "" {
      SubsequenceAfter(a, skipped[1..], b);
      assert (skipped + b)[1..] == skipped[1..] + b;
    }
  }

  lemma {:induction false} SubsequenceWithHead(head: string, a: string, b: string)
    requires Subsequence(a, b)
    ensures Subsequence(head + a, head + b)
  {
    if head == "" {
      assert head + a == a && head + b == b;
    } else {
      SubsequenceWithHead(head[1..], a, b);
      assert (head + a)[1..] == head[1..] + a && (head + b)[1..] == head[1..] + b;
    }
  }

  lemma {:induction false} Itself(a: string)
    ensures Subsequence(a, a)
  {
    if a != "" {
      Itself(a[1..]);
    }
  }

  /** The slice from..to of s, and then a subsequence of what follows next. */
  lemma Placed(s: string, i: nat, from: nat, to: nat, next: nat, rest: string)
    requires i <= from <= to <= next <= |s| && Subsequence(rest, s[next..])
    ensures Subsequence(s[from..to] + rest, s[i..])
  {
    hide Subsequence;
    assert s[to..next] + s[next..] == s[to..];
    SubsequenceAfter(rest, s[to..next], s[next..]);
    SubsequenceWithHead(s[from..to], rest, s[to..]);
    assert s[from..to] + s[to..] == s[from..];
    SubsequenceAfter(s[from..to] + rest, s[i..from], s[from..]);
    assert s[i..from] + s[from..] == s[i..];
  }

  /** What is shown is a subsequence of the text: nothing is invented or put in another order. */
  lemma {:induction false} ShownIsASubsequence(s: string, i: nat, open: bool)
    requires i <= |s|
    ensures Subsequence(Shown(s, i, open), s[i..])
    decreases |s| - i
  {
    hide IsLink, Subsequence, LinkSpan;
    if i == |s| {
      Itself(s[i..]);
    } else if !open || !IsLink(s[i..]) {
      ShownIsASubsequence(s, i + 1, IsBlank(s[i]));
      assert s[i..i + 1] == [s[i]];
      Placed(s, i, i, i + 1, i + 1, Shown(s, i + 1, IsBlank(s[i])));
    } else {
      var Span(from, to, next) := LinkSpan(s, i);
      ShownIsASubsequence(s, next, false);
      Placed(s, i, from, to, next, Shown(s, next, false));
    }
  }

  lemma NoBracketSpan(s: string, i: nat)
    requires i < |s| && forall k :: i <= k < |s| ==> s[k] != ']'
    ensures var Span(from, to, next) := LinkSpan(s, i); from == i && to == next
  {
  }

  /** A text without a closing bracket is shown as it is. */
  lemma {:induction false} NoBracketNoChange(s: string, i: nat, open: bool)
    requires i <= |s| && forall k :: i <= k < |s| ==> s[k] != ']'
    ensures Shown(s, i, open) == s[i..]
    decreases |s| - i
  {
    hide IsLink, LinkSpan;
    if i < |s| {
      if !open || !IsLink(s[i..]) {
        assert s[i..] == [s[i]] + s[i + 1..];
        NoBracketNoChange(s, i + 1, IsBlank(s[i]));
      } else {
        NoBracketSpan(s, i);
        var next := LinkSpan(s, i).next;
        assert s[i..] == s[i..next] + s[next..];
        NoBracketNoChange(s, next, false);
      }
    }
  }

  // ----- what it is for

  lemma {:induction false} ShownUpTo(s: string, i: nat, u: nat)
    requires i <= u <= |s| && (forall k :: i <= k < u ==> !LinkAt(s, k))
    ensures Shown(s, i, i == 0 || IsBlank(s[i - 1])) == s[i..u] + Shown(s, u, u == 0 || IsBlank(s[u - 1]))
    decreases u - i
  {
    if i < u {
      assert !LinkAt(s, i);
      PlainStep(s, i, i == 0 || IsBlank(s[i - 1]));
      hide Shown, IsLink;
      ShownUpTo(s, i + 1, u);
      assert s[i..u] == [s[i]] + s[i + 1..u];
      Regroup([s[i]], s[i + 1..u], Shown(s, u, IsBlank(s[u - 1])));
    }
  }

  lemma {:induction false} FirstBlankIs(s: string, i: nat, j: nat)
    requires i <= j < |s| && IsBlank(s[j]) && forall k :: i <= k < j ==> !IsBlank(s[k])
    ensures FirstBlank(s, i) == j
    decreases j - i
  {
    if i < j { FirstBlankIs(s, i + 1, j); }
  }

  lemma {:induction false} FirstNonBlankIs(s: string, i: nat, j: nat)
    requires i <= j < |s| && !IsBlank(s[j]) && forall k :: i <= k < j ==> IsBlank(s[k])
    ensures FirstNonBlank(s, i) == j
    decreases j - i
  {
    if i < j { FirstNonBlankIs(s, i + 1, j); }
  }

  lemma {:induction false} FirstCloseIs(s: string, i: nat, j: nat)
    requires i <= j < |s| && s[j] == ']' && forall k :: i <= k < j ==> s[k] != ']'
    ensures FirstClose(s, i) == j
    decreases j - i
  {
    if i < j { FirstCloseIs(s, i + 1, j); }
  }

  /** The first link, when blanks and a label follow it, gives way to its label: link, blanks and
      brackets go, and the text before and the treatment of the text after are untouched. */
  lemma LabelTakesTheLinksPlace(s: string, link: nat, space: nat, left: nat, right: nat)
    requires link < space < left < right < |s|
    requires LinkAt(s, link) && forall k :: 0 <= k < link ==> !LinkAt(s, k)
    requires forall k :: link <= k < space ==> !IsBlank(s[k])
    requires forall k :: space <= k < left ==> IsBlank(s[k])
    requires s[left] == '[' && s[right] == ']' && forall k :: left < k < right ==> s[k] != ']'
    ensures Shown(s, 0, true) == s[..link] + s[left + 1..right] + Shown(s, right + 1, false)
  {
    hide Shown, IsLink;
    ShownUpTo(s, 0, link);
    assert s[0..link] == s[..link];
    ShownFromLink(s, link, space, left, right);
    hide LinkAt;
    Regroup(s[..link], s[left + 1..right], Shown(s, right + 1, false));
  }

  lemma ShownFromLink(s: string, link: nat, space: nat, left: nat, right: nat)
    requires link < space < left < right < |s| && IsLink(s[link..])
    requires forall k :: link <= k < space ==> !IsBlank(s[k])
    requires forall k :: space <= k < left ==> IsBlank(s[k])
    requires s[left] == '[' && s[right] == ']' && forall k :: left < k < right ==> s[k] != ']'
    ensures Shown(s, link, true) == s[left + 1..right] + Shown(s, right + 1, false)
  {
    hide IsLink, Shown;
    FirstBlankIs(s, link, space);
    FirstNonBlankIs(s, space, left);
    FirstCloseIs(s, left + 1, right);
    hide LinkSpan, FirstBlank, FirstNonBlank, FirstClose;
    SpanIs(s, link);
    LinkStep(s, link);
  }

  // ----- which prefixes make a link

  predicate Scheme(p: string) {
    || p == "file://" || p == "http://" || p == "https://" || p == "mailto:" || p == "ftp://"
    || p == "audio://" || p == "beshare:" || p == "priv:" || p == "share:"
  }

  predicate Begins(s: string, i: nat, p: string) {
    i + |p| <= |s| && s[i..i + |p|] == p
  }

  lemma SchemesAreLinks(s: string, i: nat, p: string)
    requires i <= |s| && Scheme(p) && Begins(s, i, p)
    ensures IsLink(s[i..])
  {
    assert s[i..][..|p|] == p;
  }

  lemma LinksAreSchemes(s: string, i: nat) returns (p: string)
    requires i <= |s| && IsLink(s[i..])
    ensures Scheme(p) && Begins(s, i, p)
  {
    var t := s[i..];
    p := if StartsWith(t, "file://") then "file://" else if StartsWith(t, "http://") then "http://"
         else if StartsWith(t, "https://") then "https://" else if StartsWith(t, "mailto:") then "mailto:"
         else if StartsWith(t, "ftp://") then "ftp://" else if StartsWith(t, "audio://") then "audio://"
         else if StartsWith(t, "beshare:") then "beshare:" else if StartsWith(t, "priv:") then "priv:"
         else "share:";
    assert t[..|p|] == s[i..i + |p|];
  }

  predicate Blank(c: char) { c == ' ' || c == '\t' }

  /** Each of the nine schemes, with any text up to a blank or tab, blanks, and a label in brackets
      after it, is shown as the label. */
  lemma EverySchemeCanBeLabelled(p: string, tail: string, blanks: string, text: string, rest: string)
    requires Scheme(p) && (forall c <- p + tail :: !Blank(c))
    requires blanks != "" && (forall c <- blanks :: Blank(c)) && ']' !in text
    ensures var s := p + tail + blanks + "[" + text + "]" + rest;
            Shown(s, 0, true) == text + Shown(s, |s| - |rest|, false)
  {
    hide Shown, IsLink;
    var link := p + tail;
    var s := link + blanks + "[" + text + "]" + rest;
    var space, left := |link|, |link| + |blanks|;
    var right := left + 1 + |text|;
    assert Begins(s, 0, p);
    SchemesAreLinks(s, 0, p);
    Laid(s, link, blanks, text, rest);
    assert forall k :: 0 <= k < space ==> s[k] in link;
    assert forall k :: space <= k < left ==> s[k] in blanks;
    assert forall k :: left < k < right ==> s[k] in text;
    LabelTakesTheLinksPlace(s, 0, space, left, right);
    assert s[..0] == "" && s[left + 1..right] == text;
  }

  lemma Laid(s: string, link: string, blanks: string, text: string, rest: string)
    requires s == link + blanks + "[" + text + "]" + rest
    ensures var left := |link| + |blanks|;
            && |s| == left + 2 + |text| + |rest| && s[left] == '[' && s[left + 1 + |text|] == ']'
            && (forall k :: 0 <= k < |link| ==> s[k] == link[k])
            && (forall k :: |link| <= k < left ==> s[k] == blanks[k - |link|])
            && (forall k :: left < k < left + 1 + |text| ==> s[k] == text[k - left - 1])
            && s[left + 1..left + 1 + |text|] == text
  {
  }

  /** A text in which no scheme begins, at the start or after a blank or tab, is shown as it is. */
  lemma NoSchemeNoChange(s: string)
    requires forall i, p :: 0 <= i < |s| && (i == 0 || Blank(s[i - 1])) && Scheme(p) ==> !Begins(s, i, p)
    ensures Shown(s, 0, true) == s
  {
    hide IsLink, Shown;
    forall i | 0 <= i < |s|
      ensures !LinkAt(s, i)
    {
      if LinkAt(s, i) {
        var p := LinksAreSchemes(s, i);
      }
    }
    ShownUpTo(s, 0, |s|);
    NothingLeft(s, |s| == 0 || IsBlank(s[|s| - 1]));
    assert s[0..|s|] == s;
  }

  /** A link that something else follows is kept, with that; and since no link is seen to start right
      there, a link that directly follows another one keeps its label, too. */
  lemma UnlabelledLinkIsKept(s: string, space: nat, next: nat)
    requires 0 < space < next < |s| && LinkAt(s, 0)
    requires forall k :: 0 <= k < space ==> !IsBlank(s[k])
    requires forall k :: space <= k < next ==> IsBlank(s[k])
    requires !IsBlank(s[next]) && s[next] != '['
    requires forall k :: next < k < |s| ==> !LinkAt(s, k)
    ensures Shown(s, 0, true) == s
  {
    hide IsLink, Shown, LinkSpan, FirstBlank, FirstNonBlank, FirstClose;
    FirstBlankIs(s, 0, space);
    FirstNonBlankIs(s, space, next);
    SpanIs(s, 0);
    LinkStep(s, 0);
    NoLinkAfter(s, next);
    hide LinkAt;
    assert s[0..next + 1] + s[next + 1..] == s;
  }

  lemma NoLinkAfter(s: string, next: nat)
    requires next < |s| && !IsBlank(s[next])
    requires forall k :: next < k < |s| ==> !LinkAt(s, k)
    ensures Shown(s, next + 1, false) == s[next + 1..]
  {
    hide IsLink, Shown;
    ShownUpTo(s, next + 1, |s|);
    NothingLeft(s, IsBlank(s[|s| - 1]));
    assert s[next + 1..|s|] + "" == s[next + 1..];
  }
}

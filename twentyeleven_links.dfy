/**
 * Twenty Eleven's first-link extraction: twentyeleven_url_grabber, which
 * runs the case-insensitive, dot-matches-newline pattern
 *
 *     <a\s[^>]*?href=['"](.+?)['"]
 *
 * over the post content and returns the capture, and
 * twentyeleven_get_first_url, which prefers the host's own extractor and
 * falls back to the permalink.
 *
 * The pattern is given a declarative meaning (MatchAt, FirstMatch: the
 * leftmost match start, then the shortest lazy runs, as a backtracking
 * matcher reports it) and a scanner is proved to find exactly that match.
 * URL sanitising is the identity here.
 */
module TwentyElevenLinks {
  import opened Php

  predicate IsQuote(c: char) {
    c == '"' || c == '\''
  }

  /** `\s`: space, tab, line feed, vertical tab, form feed, carriage return. */
  predicate IsSpace(c: char) {
    c == ' ' || c == '\t' || c == '\n' || c == '\r' || c as int == 11 || c as int == 12
  }

  /** ASCII lower-casing, the case folding of a pattern without the `u` flag. */
  function Lower(c: char): char {
    if 'A' <= c <= 'Z' then (c as int + 32) as char else c
  }

  /** The lower-case word `w` occurs at position `k` of `s`, ignoring case. */
  predicate WordAt(s: string, k: int, w: string) {
    0 <= k && k + |w| <= |s| && forall t :: 0 <= t < |w| ==> Lower(s[k + t]) == w[t]
  }

  /** No `>` in `s[from..to]`. */
  predicate NoGt(s: string, from: int, to: int) {
    forall t :: from <= t < to && 0 <= t < |s| ==> s[t] != '>'
  }

  /** `<a\s` starts at `i`. */
  predicate AnchorOpenAt(s: string, i: int) {
    WordAt(s, i, "<a") && i + 2 < |s| && IsSpace(s[i + 2])
  }

  /** After `<a\s` at `i`, `[^>]*?` runs up to `j`, where `href=` and a quote follow. */
  predicate HrefAt(s: string, i: int, j: int) {
    AnchorOpenAt(s, i) && i + 3 <= j && j + 5 < |s| && NoGt(s, i + 3, j) &&
    WordAt(s, j, "href=") && IsQuote(s[j + 5])
  }

  /** `(.+?)['"]` after the opening quote at `j + 5`: a closing quote at `e`. */
  predicate CloseAt(s: string, j: int, e: int) {
    0 <= j + 7 <= e < |s| && IsQuote(s[e])
  }

  /** The whole pattern matches with starts `i`, `j` and closing quote `e`. */
  predicate MatchAt(s: string, i: int, j: int, e: int) {
    HrefAt(s, i, j) && CloseAt(s, j, e)
  }

  /** The pattern matches somewhere in `s`. */
  ghost predicate Matches(s: string) {
    exists i, j, e :: MatchAt(s, i, j, e)
  }

  /** The match a backtracking matcher reports: leftmost start, then the shortest runs. */
  ghost predicate FirstMatch(s: string, i: int, j: int, e: int) {
    && MatchAt(s, i, j, e)
    && (forall i', j', e' :: i' < i ==> !MatchAt(s, i', j', e'))
    && (forall j', e' :: j' < j ==> !MatchAt(s, i, j', e'))
    && (forall e' :: e' < e ==> !MatchAt(s, i, j, e'))
  }

  /** The first quote at or after `k`. */
  function QuoteFrom(s: string, k: nat): (r: Option<nat>)
    ensures r.Some? ==>
      k <= r.value < |s| && IsQuote(s[r.value]) &&
      forall t :: k <= t < r.value ==> !IsQuote(s[t])
    ensures r.None? ==> forall t :: k <= t < |s| ==> !IsQuote(s[t])
    decreases |s| - k
  {
    if k >= |s| then None
    else if IsQuote(s[k]) then Some(k)
    else QuoteFrom(s, k + 1)
  }

  /**
   * For the anchor opened at `i`, the first `j` at or after the scan
   * position where the rest of the pattern matches, with its closing quote.
   */
  function HrefFrom(s: string, i: nat, j: nat): (r: Option<(nat, nat)>)
    requires AnchorOpenAt(s, i) && i + 3 <= j && NoGt(s, i + 3, j)
    ensures r.Some? ==>
      && j <= r.value.0
      && MatchAt(s, i, r.value.0, r.value.1)
      && (forall j', e' :: j <= j' < r.value.0 ==> !MatchAt(s, i, j', e'))
      && (forall e' :: e' < r.value.1 ==> !MatchAt(s, i, r.value.0, e'))
    ensures r.None? ==> forall j', e' :: j <= j' ==> !MatchAt(s, i, j', e')
    decreases |s| - j
  {
    if j >= |s| then None
    else if WordAt(s, j, "href=") && j + 5 < |s| && IsQuote(s[j + 5]) && QuoteFrom(s, j + 7).Some? then
      Some((j, QuoteFrom(s, j + 7).value))
    else if s[j] == '>' then
      None
    else
      HrefFrom(s, i, j + 1)
  }

  /** The first match whose anchor starts at or after `i`. */
  function AnchorFrom(s: string, i: nat): (r: Option<(nat, nat, nat)>)
    ensures r.Some? ==>
      && i <= r.value.0
      && MatchAt(s, r.value.0, r.value.1, r.value.2)
      && (forall i', j', e' :: i <= i' < r.value.0 ==> !MatchAt(s, i', j', e'))
      && (forall j', e' :: j' < r.value.1 ==> !MatchAt(s, r.value.0, j', e'))
      && (forall e' :: e' < r.value.2 ==> !MatchAt(s, r.value.0, r.value.1, e'))
    ensures r.None? ==> forall i', j', e' :: i <= i' ==> !MatchAt(s, i', j', e')
    decreases |s| - i
  {
    if i >= |s| then None
    else if AnchorOpenAt(s, i) then
      match HrefFrom(s, i, i + 3)
      case Some((j, e)) => Some((i, j, e))
      case None => AnchorFrom(s, i + 1)
    else
      AnchorFrom(s, i + 1)
  }

  /**
   * twentyeleven_url_grabber, with `false` as None: no URL exactly when the
   * pattern does not match; otherwise the capture of the first match, which
   * is non-empty and holds no quote after its first character.
   */
  function UrlGrabber(content: string): (url: Option<string>)
    ensures url.None? <==> !Matches(content)
    ensures url.Some? ==>
      exists i, j, e :: FirstMatch(content, i, j, e) && url.value == content[j + 6..e]
    ensures url.Some? ==>
      |url.value| >= 1 && forall t :: 1 <= t < |url.value| ==> !IsQuote(url.value[t])
  {
    match AnchorFrom(content, 0)
    case None => None
    case Some((i, j, e)) =>
      assert FirstMatch(content, i, j, e);
      assert forall t :: j + 7 <= t < e ==> !IsQuote(content[t]) by {
        forall t | j + 7 <= t < e ensures !IsQuote(content[t]) {
          if IsQuote(content[t]) { assert MatchAt(content, i, j, t); }
        }
      }
      Some(content[j + 6..e])
  }

  /** PHP truthiness of a `string|false` result. */
  predicate TruthyResult(r: Option<string>) {
    r.Some? && Truthy(r.value)
  }

  /**
   * twentyeleven_get_first_url. `hostUrl` is what get_url_in_content
   * returned (None when it is missing or returned false); `permalink` is the
   * filtered permalink of the post.
   */
  function GetFirstUrl(hostUrl: Option<string>, content: string, permalink: string): (url: string)
    ensures TruthyResult(hostUrl) ==> url == hostUrl.value
    ensures !TruthyResult(hostUrl) && TruthyResult(UrlGrabber(content)) ==>
      url == UrlGrabber(content).value
    ensures !TruthyResult(hostUrl) && !TruthyResult(UrlGrabber(content)) ==> url == permalink
  {
    var found := if TruthyResult(hostUrl) then hostUrl else UrlGrabber(content);
    if TruthyResult(found) then found.value else permalink
  }

  /** Content without any anchor that has a quoted href falls back to the permalink. */
  lemma NoAnchorGivesPermalink(hostUrl: Option<string>, content: string, permalink: string)
    requires !TruthyResult(hostUrl)
    requires forall i, j :: !HrefAt(content, i, j)
    ensures GetFirstUrl(hostUrl, content, permalink) == permalink
  {
    assert !Matches(content);
  }

  /** The match conditions single out one match. */
  lemma FirstMatchUnique(s: string, i: int, j: int, e: int, i': int, j': int, e': int)
    requires FirstMatch(s, i, j, e) && FirstMatch(s, i', j', e')
    ensures i == i' && j == j' && e == e'
  {
    assert i' == i;
    assert j' == j;
  }

  /** The grabber returns the capture of the first match. */
  lemma GrabberReturnsFirstMatch(content: string, i: int, j: int, e: int)
    requires FirstMatch(content, i, j, e)
    ensures UrlGrabber(content) == Some(content[j + 6..e])
  {
    var url := UrlGrabber(content);
    var i', j', e' :| FirstMatch(content, i', j', e') && url.value == content[j' + 6..e'];
    FirstMatchUnique(content, i, j, e, i', j', e');
  }

  /** A first match whose capture is a non-"0" string is the URL returned. */
  lemma FirstAnchorIsReturned(content: string, permalink: string, i: int, j: int, e: int)
    requires FirstMatch(content, i, j, e)
    requires content[j + 6..e] != "0"
    ensures GetFirstUrl(None, content, permalink) == content[j + 6..e]
  {
    GrabberReturnsFirstMatch(content, i, j, e);
  }

  const ParagraphLink: string := "<p><a href=\"http://x/\">t</a></p>"

  lemma ParagraphLinkMatch()
    ensures MatchAt(ParagraphLink, 3, 6, 21)
  {
    assert WordAt(ParagraphLink, 3, "<a");
    assert WordAt(ParagraphLink, 6, "href=");
  }

  lemma ParagraphLinkNoEarlierAnchor()
    ensures forall i', j', e' :: i' < 3 ==> !MatchAt(ParagraphLink, i', j', e')
  {
    var s := ParagraphLink;
    forall i', j', e' | i' < 3 ensures !MatchAt(s, i', j', e') {
      if i' == 0 { assert Lower(s[1]) != 'a'; }
    }
  }

  lemma ParagraphLinkNoEarlierQuote()
    ensures forall e' :: e' < 21 ==> !MatchAt(ParagraphLink, 3, 6, e')
  {
    var s := ParagraphLink;
    forall e' | e' < 21 ensures !MatchAt(s, 3, 6, e') {
      if 13 <= e' { assert !IsQuote(s[e']); }
    }
  }

  /** Example: the link inside a paragraph is found. */
  lemma ParagraphLinkExample()
    ensures UrlGrabber(ParagraphLink) == Some("http://x/")
    ensures GetFirstUrl(None, ParagraphLink, "http://permalink/") == "http://x/"
  {
    ParagraphLinkMatch();
    ParagraphLinkNoEarlierAnchor();
    ParagraphLinkNoEarlierQuote();
    assert FirstMatch(ParagraphLink, 3, 6, 21);
    assert ParagraphLink[12..21] == "http://x/";
    GrabberReturnsFirstMatch(ParagraphLink, 3, 6, 21);
  }

  const EmptyHref: string := "<a href=\"\" title=\"t\">"

  lemma EmptyHrefMatch()
    ensures MatchAt(EmptyHref, 0, 3, 17)
  {
    assert WordAt(EmptyHref, 0, "<a");
    assert WordAt(EmptyHref, 3, "href=");
  }

  lemma EmptyHrefNoEarlierQuote()
    ensures forall e' :: e' < 17 ==> !MatchAt(EmptyHref, 0, 3, e')
  {
    var s := EmptyHref;
    forall e' | e' < 17 ensures !MatchAt(s, 0, 3, e') {
      if 10 <= e' { assert !IsQuote(s[e']); }
    }
  }

  /**
   * An empty `href=""` is not skipped: the lazy capture needs one character,
   * so it takes the second quote and runs on to the next quote in the tag.
   */
  lemma EmptyHrefCapture()
    ensures UrlGrabber(EmptyHref) == Some("\" title=")
  {
    EmptyHrefMatch();
    EmptyHrefNoEarlierQuote();
    assert FirstMatch(EmptyHref, 0, 3, 17);
    assert EmptyHref[9..17] == "\" title=";
    GrabberReturnsFirstMatch(EmptyHref, 0, 3, 17);
  }
}

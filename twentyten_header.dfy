/**
 * Twenty Ten's header template decisions: the tail of the document title,
 * the comment-reply script, the branding block (site title, description)
 * and the choice between a post's featured image and the standard header
 * image. The host's query tags, options and bloginfo are parameters.
 */
module TwentyTenHeader {
  import opened Php

  /** `" | <description>"` on the home or front page when there is a description. */
  function DescriptionSuffix(description: string, isHome: bool, isFrontPage: bool): (suffix: string)
    ensures suffix != "" <==> Truthy(description) && (isHome || isFrontPage)
    ensures suffix != "" ==> suffix == " | " + description
  {
    if Truthy(description) && (isHome || isFrontPage) then " | " + description else ""
  }

  function Max(a: int, b: int): (m: int)
    ensures m >= a && m >= b && (m == a || m == b)
  {
    if a >= b then a else b
  }

  /** The page-number condition: a later page of a listing or of a paginated post. */
  predicate ShowsPageNumber(paged: int, page: int, is404: bool) {
    (paged >= 2 || page >= 2) && !is404
  }

  /** `" | Page N"` with N the larger of `$paged` and `$page`. */
  function PageSuffix(paged: int, page: int, is404: bool): (suffix: string)
    ensures suffix != "" <==> ShowsPageNumber(paged, page, is404)
    ensures ShowsPageNumber(paged, page, is404) ==>
      Max(paged, page) >= 2 && suffix == " | Page " + Decimal(Max(paged, page))
  {
    if ShowsPageNumber(paged, page, is404) then " | Page " + Decimal(Max(paged, page)) else ""
  }

  /**
   * The text inside `<title>`: the host's wp_title output and the site name,
   * then the description and page-number suffixes.
   */
  function Title(wpTitle: string, siteName: string, description: string, isHome: bool,
                 isFrontPage: bool, paged: int, page: int, is404: bool): (title: string)
    ensures |title| >= |wpTitle + siteName| && title[..|wpTitle + siteName|] == wpTitle + siteName
    ensures title[|wpTitle + siteName|..] ==
      DescriptionSuffix(description, isHome, isFrontPage) + PageSuffix(paged, page, is404)
  {
    var head := wpTitle + siteName;
    var tail := DescriptionSuffix(description, isHome, isFrontPage) + PageSuffix(paged, page, is404);
    assert (head + tail)[..|head|] == head;
    assert (head + tail)[|head|..] == tail;
    head + tail
  }

  /** The page number shown can be read back from the title, and it is at least 2. */
  lemma PageNumberReadBack(paged: int, page: int, is404: bool)
    requires ShowsPageNumber(paged, page, is404)
    ensures var suffix := PageSuffix(paged, page, is404);
      |suffix| > 8 && suffix[..8] == " | Page " &&
      Max(paged, page) >= 2 && DigitsValue(suffix[8..]) == Max(paged, page)
  {
    var n := Max(paged, page);
    var suffix := PageSuffix(paged, page, is404);
    assert suffix[8..] == Decimal(n);
    DecimalValue(n);
  }

  /** The page-number suffix holds no character that esc_html would change. */
  lemma PageSuffixNeedsNoEscaping(paged: int, page: int, is404: bool)
    ensures forall k :: 0 <= k < |PageSuffix(paged, page, is404)| ==>
      PageSuffix(paged, page, is404)[k] !in {'<', '>', '&', '"', '\''}
  {
    if ShowsPageNumber(paged, page, is404) {
      var digits := Decimal(Max(paged, page));
      var suffix := " | Page " + digits;
      forall k | 0 <= k < |suffix| ensures suffix[k] !in {'<', '>', '&', '"', '\''} {
        if k >= 8 { assert suffix[k] == digits[k - 8]; }
      }
    }
  }

  /** The comment-reply script is enqueued on single views with threaded comments on. */
  function EnqueuesCommentReply(isSingular: bool, threadComments: string): (enqueued: bool)
    ensures enqueued <==> isSingular && Truthy(threadComments)
  {
    isSingular && Truthy(threadComments)
  }

  /** The site title is an `h1` on the home and front pages and a `div` elsewhere. */
  function HeadingTag(isHome: bool, isFrontPage: bool): (tag: string)
    ensures tag == "h1" <==> isHome || isFrontPage
    ensures tag == "div" <==> !(isHome || isFrontPage)
  {
    if isHome || isFrontPage then "h1" else "div"
  }

  /**
   * The home link is the current page on the first page of the front page,
   * or of the posts index unless the posts page is the queried object.
   * `pageForPosts` is the integer value of the page_for_posts option.
   */
  predicate IsFront(isPaged: bool, isFrontPage: bool, isHome: bool, pageForPosts: int, queriedId: int) {
    !isPaged && (isFrontPage || (isHome && pageForPosts != queriedId))
  }

  datatype SiteTitle = SiteTitle(tag: string, homeUrl: string, ariaCurrent: bool, name: string)

  /** Each of five concatenated strings can be sliced back out of the whole. */
  lemma SliceFive(p: string, q: string, r: string, u: string, v: string)
    ensures var h := p + q + r + u + v;
      var a, b, c, d := |p|, |p| + |q|, |p| + |q| + |r|, |p| + |q| + |r| + |u|;
      |h| == d + |v| &&
      h[..a] == p && h[a..b] == q && h[b..c] == r && h[c..d] == u && h[d..] == v
  {
    var h := p + q + r + u + v;
    assert h == (((p + q) + r) + u) + v;
    assert (((p + q) + r) + u)[..|p + q + r|] == (p + q) + r;
    assert ((p + q) + r)[..|p + q|] == p + q;
  }

  /** The home link's attributes after its `href`: `rel`, then `aria-current` when current. */
  function HomeLinkAttributes(ariaCurrent: bool): string {
    "\" rel=\"home\" " + (if ariaCurrent then "aria-current=\"page\"" else "") + ">"
  }

  /**
   * The site title block as the template prints it (whitespace left out):
   * the heading tag, the home link to the home URL, marked current or not,
   * holding the site name, and the matching closing tag.
   */
  function SiteTitleHtml(t: SiteTitle): (html: string)
    ensures var open := "<" + t.tag + " id=\"site-title\">";
      var link := "<span><a href=\"" + t.homeUrl;
      var attrs := HomeLinkAttributes(t.ariaCurrent);
      var text := t.name + "</a></span>";
      var close := "</" + t.tag + ">";
      var a, b, c, d := |open|, |open| + |link|, |open| + |link| + |attrs|, |open| + |link| + |attrs| + |text|;
      |html| == d + |close| &&
      html[..a] == open && html[a..b] == link && html[b..c] == attrs &&
      html[c..d] == text && html[d..] == close
  {
    var open := "<" + t.tag + " id=\"site-title\">";
    var link := "<span><a href=\"" + t.homeUrl;
    var attrs := HomeLinkAttributes(t.ariaCurrent);
    var text := t.name + "</a></span>";
    var close := "</" + t.tag + ">";
    SliceFive(open, link, attrs, text, close);
    open + link + attrs + text + close
  }

  /** Which header image the branding block shows. */
  datatype HeaderImage = FeaturedImage(postId: int) | StandardHeader

  /** What wp_get_attachment_image_src returns: URL, width and height. */
  datatype ImageSource = ImageSource(url: string, width: int, height: int)

  /**
   * The featured image replaces the header on a single view whose thumbnail,
   * as the host returns it (`thumbnail`, None for false), is at least as
   * wide as the header image.
   */
  function ChooseHeaderImage(isSingular: bool, hasThumbnail: bool, postId: int,
                             thumbnail: Option<ImageSource>, headerImageWidth: int)
    : (image: HeaderImage)
    ensures image.FeaturedImage? <==>
      isSingular && hasThumbnail && thumbnail.Some? && thumbnail.value.width >= headerImageWidth
    ensures image.FeaturedImage? ==> image.postId == postId
  {
    var source := if isSingular && hasThumbnail then thumbnail else None;
    if source.Some? && source.value.width >= headerImageWidth then FeaturedImage(postId)
    else StandardHeader
  }

  datatype Branding = Branding(
    siteTitle: Option<SiteTitle>,
    siteDescription: Option<string>,
    image: HeaderImage)

  /** The host reads the branding block depends on. */
  datatype Query = Query(
    isHome: bool, isFrontPage: bool, isPaged: bool, isSingular: bool,
    pageForPosts: int, queriedId: int, postId: int, hasThumbnail: bool)

  /** The `#branding` block: site title, description and header image. */
  function BrandingBlock(q: Query, siteName: string, description: string, homeUrl: string,
                         thumbnail: Option<ImageSource>, headerImageWidth: int)
    : (b: Branding)
    ensures b.siteTitle.Some? <==> Truthy(siteName)
    ensures b.siteTitle.Some? ==>
      && b.siteTitle.value.name == siteName
      && b.siteTitle.value.homeUrl == homeUrl
      && (b.siteTitle.value.tag == "h1" <==> q.isHome || q.isFrontPage)
      && (b.siteTitle.value.ariaCurrent <==>
            !q.isPaged && (q.isFrontPage || (q.isHome && q.pageForPosts != q.queriedId)))
    ensures b.siteDescription.Some? <==> Truthy(description)
    ensures b.siteDescription.Some? ==> b.siteDescription.value == description
    ensures b.image == ChooseHeaderImage(q.isSingular, q.hasThumbnail, q.postId, thumbnail, headerImageWidth)
  {
    var tag := HeadingTag(q.isHome, q.isFrontPage);
    var front := IsFront(q.isPaged, q.isFrontPage, q.isHome, q.pageForPosts, q.queriedId);
    Branding(
      if Truthy(siteName) then Some(SiteTitle(tag, homeUrl, front, siteName)) else None,
      if Truthy(description) then Some(description) else None,
      ChooseHeaderImage(q.isSingular, q.hasThumbnail, q.postId, thumbnail, headerImageWidth))
  }

  /** The printed site title opens and closes with the same tag, h1 or div. */
  lemma SiteTitleTagsMatch(q: Query, siteName: string, description: string, homeUrl: string,
                           thumbnail: Option<ImageSource>, headerImageWidth: int)
    requires Truthy(siteName)
    ensures var t := BrandingBlock(q, siteName, description, homeUrl, thumbnail, headerImageWidth).siteTitle.value;
      var html := SiteTitleHtml(t);
      (t.tag == "h1" || t.tag == "div") &&
      html[..|"<" + t.tag|] == "<" + t.tag &&
      html[|html| - |"</" + t.tag + ">"|..] == "</" + t.tag + ">"
  {
    var t := BrandingBlock(q, siteName, description, homeUrl, thumbnail, headerImageWidth).siteTitle.value;
    var html := SiteTitleHtml(t);
    var open := "<" + t.tag + " id=\"site-title\">";
    assert html[..|open|] == open;
    assert html[..|"<" + t.tag|] == open[..|"<" + t.tag|];
  }
}

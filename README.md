# Twenty Eleven and Twenty Ten theme decisions, modelled in Dafny

This project models the decision logic of two WordPress themes.

From Twenty Eleven's `functions.php` it covers:
- the footer's widget-area class;
- the three-way header text-colour branch, in the front-end style and in the admin preview;
- the default background colour chosen by the colour scheme;
- the excerpt filters;
- the filters that edit the page-menu arguments, the tag-cloud arguments and the body classes;
- the first-link extractor;
- the gallery-id collection;
- the comment callback's choices.

From Twenty Ten's `header.php` it covers:
- the `<title>` suffixes;
- the comment-reply script;
- the heading tag and the `aria-current` test;
- the site title and description blocks;
- the choice between the featured image and the standard header.

Every value the theme reads from WordPress (`get_header_textcolor()`, `is_active_sidebar()`,
`is_admin()`, `is_home()`, `$paged`, options, bloginfo, and so on) is a parameter.
So each piece is a pure function or a method over local values, and the properties the theme relies on are stated about its result.

Modules, one per component:
- `Php` (php.dfy): what the code relies on from PHP itself. This covers string truthiness (`""` and
  `"0"` are false), `isset` (false for a null value), `explode` with its inverse and both
  round-trips, and the decimal text of an integer with its read-back.
- `TwentyElevenHeader`: the header style and the admin stylesheet. Both are modelled as CSS rules
  and declarations, not as text, so "declares a colour" is exact. The module also holds the admin
  preview markup and the default background colour.
- `TwentyElevenExcerpt`: the excerpt length and the "Continue reading" link filters.
- `TwentyElevenFilters`: `PageMenuArgs`, `WidgetTagCloudArgs` and `BodyClasses`. They are methods
  that edit a local copy of the array step by step, as the source does.
- `TwentyElevenLinks`: the URL grabber. The pattern `<a\s[^>]*?href=['"](.+?)['"]` (flags `i`, `s`)
  has a declarative meaning: `MatchAt` is one match, and `FirstMatch` is the leftmost start with the
  shortest lazy runs. A scanner is proved to return exactly that capture. `GetFirstUrl` adds the
  host-extractor and permalink fallbacks.
- `TwentyElevenFooter`: the method counts active footer areas one at a time. That count is proved
  equal to the size of the set of active footer areas.
- `TwentyElevenGallery`: the gallery ids, split on commas, with the attachment fallback.
- `TwentyElevenComment`: pingback vs. full comment, avatar size, moderation note, reply-link arguments.
- `TwentyTenHeader`: title suffixes, script enqueue, heading tag, `aria-current`, branding block,
  featured-image choice.

Behaviour of the code that is easy to misread:
- The admin stylesheet tests only "not the default colour". So for `blank` it still prints a colour
  rule, `color: #blank`. It does not use the front end's three-way branch (`FrontEndAndAdminColor`).
- The admin preview hides the text when the colour is falsy (`""` or `"0"`) or `blank`. It does not
  test for the default colour `000`.
- The moderation note's wording depends only on whether the current commenter's email is stored. It
  does not depend on whether that email matches the comment's.
- The grabber's lazy `(.+?)` needs at least one character. So `href=""` is not skipped: the capture
  starts with the second quote and runs to the next quote (`EmptyHrefCapture`). The closing quote
  also need not match the opening one.
- `explode` never returns an empty list. So once an `ids` attribute is set, even to `""`, the attachment
  fallback is never consulted.

## Model

| member | source | states |
|---|---|---|
| `Php.Explode` | wp-content/themes/twentyeleven/functions.php:894 | the split of a string on a one-character delimiter is never empty and no piece contains the delimiter |
| `Php.JoinExplode` | wp-content/themes/twentyeleven/functions.php:894 | joining the pieces of `explode` with the delimiter gives back the original string |
| `Php.ExplodeJoin` | wp-content/themes/twentyeleven/functions.php:894 | exploding a join of delimiter-free pieces gives back exactly those pieces, in order |
| `Php.ExplodePrefix` | wp-content/themes/twentyeleven/functions.php:894 | a delimiter-free prefix is glued onto the first piece of the rest's split |
| `Php.Decimal` | wp-content/themes/twentyten/header.php:36 | the decimal text of a number is non-empty, all digits, and has no leading zero |
| `Php.DecimalValue` | wp-content/themes/twentyten/header.php:36 | the decimal text of `n` reads back as `n` |
| `TwentyElevenHeader.HeaderStyle` | wp-content/themes/twentyeleven/functions.php:328-359 | no style block iff the colour is the default `000`; for `blank` the hiding rule and no colour declaration; otherwise the `color: #<colour>` rule and neither the hiding rule nor a clip |
| `TwentyElevenHeader.HiddenTextRuleHasNoColor` | wp-content/themes/twentyeleven/functions.php:343-347 | the hiding rule clips the text and declares no colour |
| `TwentyElevenHeader.ColorRuleOnlyColors` | wp-content/themes/twentyeleven/functions.php:352-355 | the colour rule declares a colour and nothing else |
| `TwentyElevenHeader.AdminStaticRulesHaveNoColor` | wp-content/themes/twentyeleven/functions.php:373-406 | the admin stylesheet's fixed layout and image rules declare no colour |
| `TwentyElevenHeader.DeclaresPropertyAppend` | wp-content/themes/twentyeleven/functions.php:372-407 | a property is declared in a concatenation of rule lists iff it is declared in one of the parts |
| `TwentyElevenHeader.AdminHeaderStyle` | wp-content/themes/twentyeleven/functions.php:370-409 | the admin stylesheet is always printed, starts with the layout rules and ends with the image rule, and declares a colour iff the colour differs from the default, with `color: #<colour>` in that case |
| `TwentyElevenHeader.AdminHeaderImage` | wp-content/themes/twentyeleven/functions.php:420-439 | heading and description share one style; it is `display: none;` unless the colour is truthy and not `blank`, then `color: #<colour>;`; the image is shown iff its URL is truthy, with that URL |
| `TwentyElevenHeader.FrontEndAndAdminColor` | wp-content/themes/twentyeleven/functions.php:328-401 | both stylesheets print no colour for the default and the same colour rule for a custom colour; for `blank` the front end declares no colour while the admin one prints `color: #blank` |
| `TwentyElevenHeader.DefaultBackgroundColor` | wp-content/themes/twentyeleven/functions.php:159-164 | the default background is `1d1d1d` exactly for the `dark` scheme and `e2e2e2` for every other scheme |
| `TwentyElevenExcerpt.ExcerptLength` | wp-content/themes/twentyeleven/functions.php:487-489 | the excerpt length is 40 words whatever the host passes in |
| `TwentyElevenExcerpt.ContinueReadingLink` | wp-content/themes/twentyeleven/functions.php:500-502 | the link is a space and an anchor whose `href` is the permalink and whose text is `Continue reading` with the arrow, closed by `</a>` |
| `TwentyElevenExcerpt.AutoExcerptMore` | wp-content/themes/twentyeleven/functions.php:518-523 | outside the admin the "more" text becomes ` &hellip;` followed by the continue link; in the admin it is returned unchanged |
| `TwentyElevenExcerpt.CustomExcerptMore` | wp-content/themes/twentyeleven/functions.php:537-542 | the excerpt is always a prefix of the result; the result differs iff the post has an excerpt and is neither an attachment nor in the admin, and then the addition is exactly the continue link |
| `TwentyElevenExcerpt.BothLinksAgree` | wp-content/themes/twentyeleven/functions.php:500-542 | the automatic and the hand-written excerpt filters end in the identical continue-reading link |
| `TwentyElevenFilters.PageMenuArgs` | wp-content/themes/twentyeleven/functions.php:553-558 | `show_home` becomes `true` only when it is not set (absent or null); an already set value and every other key are left unchanged |
| `TwentyElevenFilters.WidgetTagCloudArgs` | wp-content/themes/twentyeleven/functions.php:931-938 | `largest`=22, `smallest`=8, `unit`=`pt` and `format`=`list` are set, and every other key keeps its value |
| `TwentyElevenFilters.BodyClasses` | wp-content/themes/twentyeleven/functions.php:864-875 | the incoming classes are a prefix of the result; exactly `single-author` (iff the check exists and the site has one author) and then `singular` (iff singular, not home, and neither wide template) are appended |
| `TwentyElevenLinks.QuoteFrom` | wp-content/themes/twentyeleven/functions.php:686 | finds the first quote at or after a position, or reports that none follows |
| `TwentyElevenLinks.HrefFrom` | wp-content/themes/twentyeleven/functions.php:686 | within one anchor, returns the first `href=` position where the rest of the pattern matches, and the first closing quote; or there is none before the next `>` |
| `TwentyElevenLinks.AnchorFrom` | wp-content/themes/twentyeleven/functions.php:686 | returns the leftmost match at or after a position with its shortest lazy runs, or there is no match there |
| `TwentyElevenLinks.UrlGrabber` | wp-content/themes/twentyeleven/functions.php:685-691 | false iff the pattern matches nowhere; otherwise the capture of the leftmost-first match, which is non-empty and has no quote after its first character |
| `TwentyElevenLinks.GetFirstUrl` | wp-content/themes/twentyeleven/functions.php:666-676 | the host extractor's URL if truthy, else the grabber's URL if truthy, else the permalink |
| `TwentyElevenLinks.NoAnchorGivesPermalink` | wp-content/themes/twentyeleven/functions.php:666-691 | content with no `<a` plus whitespace plus a quoted `href=` yields the permalink when the host extractor finds nothing |
| `TwentyElevenLinks.FirstMatchUnique` | wp-content/themes/twentyeleven/functions.php:686 | the leftmost-first match is unique |
| `TwentyElevenLinks.GrabberReturnsFirstMatch` | wp-content/themes/twentyeleven/functions.php:685-691 | the grabber returns the capture of the leftmost-first match |
| `TwentyElevenLinks.FirstAnchorIsReturned` | wp-content/themes/twentyeleven/functions.php:666-691 | with no host extractor, a first match whose capture is not `"0"` is the URL returned |
| `TwentyElevenLinks.ParagraphLinkMatch` | wp-content/themes/twentyeleven/functions.php:686 | the pattern matches the anchor inside `<p><a href="http://x/">` |
| `TwentyElevenLinks.ParagraphLinkNoEarlierAnchor` | wp-content/themes/twentyeleven/functions.php:686 | no match starts before that anchor |
| `TwentyElevenLinks.ParagraphLinkNoEarlierQuote` | wp-content/themes/twentyeleven/functions.php:686 | no closing quote comes before the one after `http://x/` |
| `TwentyElevenLinks.ParagraphLinkExample` | wp-content/themes/twentyeleven/functions.php:666-691 | for `<p><a href="http://x/">t</a></p>` both the grabber and the first-URL function return `http://x/` |
| `TwentyElevenLinks.EmptyHrefMatch` | wp-content/themes/twentyeleven/functions.php:686 | the pattern matches `<a href="" title="t">` with the closing quote before `t` |
| `TwentyElevenLinks.EmptyHrefNoEarlierQuote` | wp-content/themes/twentyeleven/functions.php:686 | no earlier quote can close that capture |
| `TwentyElevenLinks.EmptyHrefCapture` | wp-content/themes/twentyeleven/functions.php:685-691 | an empty `href=""` is not skipped: the capture is `" title=` |
| `TwentyElevenFooter.FooterCountByArea` | wp-content/themes/twentyeleven/functions.php:699-711 | the number of active footer areas equals the three one-at-a-time increments |
| `TwentyElevenFooter.FooterSidebarClass` | wp-content/themes/twentyeleven/functions.php:698-730 | at most three areas are active; nothing is printed iff none is active; otherwise `class="one"`, `"two"` or `"three"` for one, two or three active areas |
| `TwentyElevenFooter.FooterClassTable` | wp-content/themes/twentyeleven/functions.php:713-725 | the count is 0 iff no footer area is active and 3 iff all three are |
| `TwentyElevenGallery.GetGalleryImages` | wp-content/themes/twentyeleven/functions.php:888-920 | with an `ids` attribute from the available parser, the result is that attribute split on commas, in order; only without one are the attachments used |
| `TwentyElevenGallery.GalleryExample` | wp-content/themes/twentyeleven/functions.php:894 | `ids="3,5,9"` splits into `3`, `5`, `9` in that order |
| `TwentyElevenComment.AvatarSize` | wp-content/themes/twentyeleven/functions.php:764-768 | the avatar is 68 pixels iff the parent is `"0"`, else 39 |
| `TwentyElevenComment.ModerationText` | wp-content/themes/twentyeleven/functions.php:790-795 | the short note iff the commenter's email is set, the preview note otherwise |
| `TwentyElevenComment.ModerationNote` | wp-content/themes/twentyeleven/functions.php:798-801 | a note is shown iff the comment's approved field is `"0"`, with the text chosen by the email |
| `TwentyElevenComment.ReplyArgs` | wp-content/themes/twentyeleven/functions.php:809-818 | the reply-link arguments are the callback's plus the reply text, the depth and the maximum depth (null if absent); other keys are unchanged |
| `TwentyElevenComment.RenderComment` | wp-content/themes/twentyeleven/functions.php:747-826 | pingbacks and trackbacks, and only they, get the compact entry; any other comment gets the avatar size, moderation note and reply arguments above |
| `TwentyElevenComment.PendingCommentNotes` | wp-content/themes/twentyeleven/functions.php:790-801 | a pending comment shows the preview note when no commenter email is stored and the short note otherwise; an approved one shows none |
| `TwentyTenHeader.DescriptionSuffix` | wp-content/themes/twentyten/header.php:28-31 | a suffix of a bar and the description is added iff the description is truthy and the page is the home or front page |
| `TwentyTenHeader.Max` | wp-content/themes/twentyten/header.php:36 | the larger of `$paged` and `$page` |
| `TwentyTenHeader.PageSuffix` | wp-content/themes/twentyten/header.php:34-37 | the suffix "bar, Page N" is added iff (paged ≥ 2 or page ≥ 2) and not a 404, with N = max(paged, page) ≥ 2 |
| `TwentyTenHeader.Title` | wp-content/themes/twentyten/header.php:22-37 | the title is the host's title and the site name followed by the description suffix and then the page suffix |
| `TwentyTenHeader.PageNumberReadBack` | wp-content/themes/twentyten/header.php:34-37 | when shown, the page suffix is the bar, `Page` and digits that read back as max(paged, page) ≥ 2 |
| `TwentyTenHeader.PageSuffixNeedsNoEscaping` | wp-content/themes/twentyten/header.php:36 | the page suffix contains no character that HTML escaping would change |
| `TwentyTenHeader.EnqueuesCommentReply` | wp-content/themes/twentyten/header.php:49-51 | the comment-reply script is enqueued iff the view is singular and the thread_comments option is truthy |
| `TwentyTenHeader.HeadingTag` | wp-content/themes/twentyten/header.php:72 | `h1` iff home or front page, else `div` |
| `TwentyTenHeader.SiteTitleHtml` | wp-content/themes/twentyten/header.php:79-83 | the site-title markup opens with `<tag id="site-title">` and closes with `</tag>` for the same tag; inside, the home link's `href` is the home URL, `aria-current="page"` is printed between `rel="home"` and `>` exactly when the title is marked current, and the link text, last before the closing tags, is the site name |
| `TwentyTenHeader.ChooseHeaderImage` | wp-content/themes/twentyten/header.php:104-114 | the featured image is chosen iff singular, with a thumbnail the host returned, at least as wide as the header; otherwise the standard header |
| `TwentyTenHeader.BrandingBlock` | wp-content/themes/twentyten/header.php:72-114 | the site title appears iff the name is truthy, with the heading tag and `aria-current` iff not paged and (front page or (home and the posts page is not the queried object)); the description appears iff truthy; the image is the choice above |
| `TwentyTenHeader.SiteTitleTagsMatch` | wp-content/themes/twentyten/header.php:72-83 | the printed site title opens and closes with the same tag, which is `h1` or `div` |

## Left out

- Registration calls (`add_theme_support`, `register_sidebar`, `register_nav_menu`, `register_default_headers`, image sizes, style and script enqueues). They are one-way host calls whose results are never consulted.
- Host services whose code is not part of this model. Their results are parameters:
  - `get_url_in_content`, `get_post_galleries`, the shortcode regex and `shortcode_parse_atts`;
  - the attachment query of the gallery fallback (its arguments: 999 posts, menu order ascending, image attachments of the post);
  - `wp_title`, `wp_get_attachment_image_src`, `get_option`, the query tags and bloginfo.
- Output the host prints itself: `get_avatar`, `comment_reply_link`, `twentyten_header_image`, `the_header_image_tag`, `wp_nav_menu`, and the full comment and pingback markup.
- Escaping (`esc_url`, `esc_url_raw`, `esc_attr`, `esc_html`) and translation (`__`, `_e`) are the identity.
- UrlGrabber: does not model `preg_match` failing when PCRE reaches its backtracking or JIT stack limit. On content with many unclosed `<a ` runs the lazy `[^>]*?` rescans from every anchor start, and then `preg_match` returns false, so the grabber returns false and `get_first_url` falls back to the permalink; the model always returns the first match.
- UrlGrabber: does not model the sanitising that `esc_url_raw` applies to the capture, and this can change which branch `get_first_url` takes: a capture `0` becomes the truthy `http://0` and is returned, while a URL with a disallowed protocol (such as `javascript:`) becomes empty and falls back to the permalink. The model, with sanitising as the identity, does the reverse in both cases, which is why `FirstAnchorIsReturned` requires a capture other than `0`.
- The `(int)` cast of the `page_for_posts` option: `BrandingBlock` takes the integer directly.
- Legacy-version branches (`function_exists`, `version_compare`, the `HEADER_*` constants). What remains of them is a boolean "available" parameter (`is_multi_author`, `get_post_galleries`), the host's result, or the header width given as an integer.
- Exact CSS text and whitespace of the printed markup. Stylesheets, the admin preview, the branding block and the comment view are records (stylesheets as rules and declarations); the site-title block, the `<title>` text, the footer's class attribute and the continue-reading link are rendered to text.
- Key order of PHP arrays. Argument arrays are maps, so the position of a newly added key is not modelled.
- Non-ASCII case folding in the grabber's pattern. Strings are sequences of characters, not bytes.
- `twentyeleven_content_nav`, `twentyeleven_posted_on`, `twentyeleven_header_image`, `twentyeleven_skip_link` and the backward-compatibility `wp_body_open`/`wp_get_list_item_separator` are markup echoes or host plumbing outside the decision core.

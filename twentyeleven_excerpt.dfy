/**
 * Twenty Eleven's excerpt filters: the fixed excerpt length and the
 * "Continue reading" link added to automatic and hand-written excerpts.
 * Translation and URL escaping are the identity here.
 */
module TwentyElevenExcerpt {

  /** The number of words an automatic excerpt keeps. */
  const ExcerptWords: int := 40

  /** twentyeleven_excerpt_length: the host's length is ignored. */
  function ExcerptLength(length: int): (words: int)
    ensures words == ExcerptWords
  {
    40
  }

  const ContinueReadingText: string := "Continue reading <span class=\"meta-nav\">&rarr;</span>"

  /**
   * twentyeleven_continue_reading_link: an anchor, after a space, to the
   * current post's permalink, whose text is the "Continue reading" label.
   */
  function ContinueReadingLink(permalink: string): (link: string)
    ensures |link| == 10 + |permalink| + 2 + |ContinueReadingText| + 4
    ensures link[..10 + |permalink|] == " <a href=\"" + permalink
    ensures link[10 + |permalink|..|link| - 4] == "\">" + ContinueReadingText
    ensures link[|link| - 4..] == "</a>"
  {
    " <a href=\"" + permalink + "\">" + ContinueReadingText + "</a>"
  }

  const Ellipsis: string := " &hellip;"

  /** twentyeleven_auto_excerpt_more: replaces the "more" marker outside the admin screens. */
  function AutoExcerptMore(more: string, isAdmin: bool, permalink: string): (text: string)
    ensures isAdmin ==> text == more
    ensures !isAdmin ==> text == Ellipsis + ContinueReadingLink(permalink)
  {
    if !isAdmin then Ellipsis + ContinueReadingLink(permalink) else more
  }

  /** The condition under which a hand-written excerpt gets the link. */
  predicate LinkAppended(hasExcerpt: bool, isAttachment: bool, isAdmin: bool) {
    hasExcerpt && !isAttachment && !isAdmin
  }

  /** twentyeleven_custom_excerpt_more: only ever appends, and only the link. */
  function CustomExcerptMore(output: string, hasExcerpt: bool, isAttachment: bool, isAdmin: bool,
                             permalink: string): (text: string)
    ensures |text| >= |output| && text[..|output|] == output
    ensures text != output <==> LinkAppended(hasExcerpt, isAttachment, isAdmin)
    ensures LinkAppended(hasExcerpt, isAttachment, isAdmin) ==>
      text[|output|..] == ContinueReadingLink(permalink)
  {
    if LinkAppended(hasExcerpt, isAttachment, isAdmin) then output + ContinueReadingLink(permalink)
    else output
  }

  /**
   * Automatic and hand-written excerpts end in the same link markup: what
   * the automatic filter puts after the ellipsis is exactly what the custom
   * filter appends.
   */
  lemma BothLinksAgree(more: string, output: string, permalink: string)
    ensures AutoExcerptMore(more, false, permalink)[|Ellipsis|..] ==
            CustomExcerptMore(output, true, false, false, permalink)[|output|..]
  {
    var auto := AutoExcerptMore(more, false, permalink);
    assert auto[|Ellipsis|..] == ContinueReadingLink(permalink);
  }
}

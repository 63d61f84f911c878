/**
 * Twenty Eleven's array-editing filters: the page-menu fallback arguments,
 * the tag-cloud widget arguments and the body classes. Each takes the array
 * the host passes in, edits a local copy step by step and returns it.
 * PHP arrays are modelled as maps (string keys) or sequences (lists).
 */
module TwentyElevenFilters {
  import opened Php

  /** twentyeleven_page_menu_args: ask for a home link unless one was already set. */
  method PageMenuArgs(args: map<string, Value>) returns (result: map<string, Value>)
    ensures result.Keys == args.Keys + {"show_home"}
    ensures IsSet(args, "show_home") ==> result == args
    ensures !IsSet(args, "show_home") ==> result["show_home"] == Bool(true)
    ensures forall k :: k in args && k != "show_home" ==> result[k] == args[k]
  {
    result := args;
    if !IsSet(result, "show_home") {
      result := result["show_home" := Bool(true)];
    }
  }

  /** The keys the tag-cloud filter overwrites. */
  const TagCloudKeys: set<string> := {"largest", "smallest", "unit", "format"}

  /** twentyeleven_widget_tag_cloud_args: one font size, in points, as a list. */
  method WidgetTagCloudArgs(args: map<string, Value>) returns (result: map<string, Value>)
    ensures result.Keys == args.Keys + TagCloudKeys
    ensures result["largest"] == Int(22) && result["smallest"] == Int(8)
    ensures result["unit"] == Str("pt") && result["format"] == Str("list")
    ensures forall k :: k in args && k !in TagCloudKeys ==> result[k] == args[k]
  {
    result := args;
    result := result["largest" := Int(22)];
    result := result["smallest" := Int(8)];
    result := result["unit" := Str("pt")];
    result := result["format" := Str("list")];
  }

  /** `single-author` is added when the host can tell and the site has one author. */
  predicate AddsSingleAuthor(multiAuthorKnown: bool, isMultiAuthor: bool) {
    multiAuthorKnown && !isMultiAuthor
  }

  /** `singular` is added on single views other than the home page and the two wide templates. */
  predicate AddsSingular(isSingular: bool, isHome: bool, pageTemplate: string) {
    isSingular && !isHome && pageTemplate != "showcase.php" && pageTemplate != "sidebar-page.php"
  }

  /**
   * twentyeleven_body_classes. `multiAuthorKnown` says whether is_multi_author
   * exists; `pageTemplate` is the current page's template file ("" for none).
   */
  method BodyClasses(classes: seq<string>, multiAuthorKnown: bool, isMultiAuthor: bool,
                     isSingular: bool, isHome: bool, pageTemplate: string)
    returns (result: seq<string>)
    ensures |result| >= |classes| && result[..|classes|] == classes
    ensures result[|classes|..] ==
      (if AddsSingleAuthor(multiAuthorKnown, isMultiAuthor) then ["single-author"] else []) +
      (if AddsSingular(isSingular, isHome, pageTemplate) then ["singular"] else [])
    ensures "single-author" in result[|classes|..] <==> AddsSingleAuthor(multiAuthorKnown, isMultiAuthor)
    ensures "singular" in result[|classes|..] <==> AddsSingular(isSingular, isHome, pageTemplate)
  {
    result := classes;
    if multiAuthorKnown && !isMultiAuthor {
      result := result + ["single-author"];
    }
    if isSingular && !isHome && pageTemplate != "showcase.php" && pageTemplate != "sidebar-page.php" {
      result := result + ["singular"];
    }
  }
}

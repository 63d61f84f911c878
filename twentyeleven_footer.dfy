/**
 * twentyeleven_footer_sidebar_class: the footer's class attribute, chosen by
 * how many of the three footer widget areas are active. The host's
 * is_active_sidebar is given as the set of active sidebar ids.
 */
module TwentyElevenFooter {

  /** The ids of the three footer widget areas. */
  const FooterSidebars: set<string> := {"sidebar-3", "sidebar-4", "sidebar-5"}

  /** The number of active footer widget areas. */
  function ActiveFooterCount(active: set<string>): nat {
    |active * FooterSidebars|
  }

  /** The class name for one, two or three active areas. */
  function CountWord(count: nat): string
    requires 1 <= count <= 3
  {
    if count == 1 then "one" else if count == 2 then "two" else "three"
  }

  /** The active footer areas, counted one id at a time. */
  lemma {:induction false} FooterCountByArea(active: set<string>)
    ensures ActiveFooterCount(active) ==
      (if "sidebar-3" in active then 1 else 0) +
      (if "sidebar-4" in active then 1 else 0) +
      (if "sidebar-5" in active then 1 else 0)
  {
    var s3: set<string> := if "sidebar-3" in active then {"sidebar-3"} else {};
    var s4: set<string> := if "sidebar-4" in active then {"sidebar-4"} else {};
    var s5: set<string> := if "sidebar-5" in active then {"sidebar-5"} else {};
    assert active * FooterSidebars == s3 + s4 + s5;
    assert s3 !! s4 && (s3 + s4) !! s5;
    assert |s3 + s4| == |s3| + |s4|;
    assert |s3 + s4 + s5| == |s3 + s4| + |s5|;
  }

  /**
   * The method counts the active areas one by one, then maps the count to a
   * class. With no active area nothing is printed at all.
   */
  method FooterSidebarClass(active: set<string>) returns (attribute: string)
    ensures ActiveFooterCount(active) <= 3
    ensures attribute == "" <==> active * FooterSidebars == {}
    ensures attribute != "" ==>
      attribute == "class=\"" + CountWord(ActiveFooterCount(active)) + "\""
  {
    var count := 0;
    if "sidebar-3" in active {
      count := count + 1;
    }
    if "sidebar-4" in active {
      count := count + 1;
    }
    if "sidebar-5" in active {
      count := count + 1;
    }
    FooterCountByArea(active);

    var className := "";
    if count == 1 {
      className := "one";
    } else if count == 2 {
      className := "two";
    } else if count == 3 {
      className := "three";
    }

    attribute := "";
    if className != "" {
      attribute := "class=\"" + className + "\"";
    }
  }

  /** The mapping table: which areas are active decides the class word. */
  lemma FooterClassTable(active: set<string>)
    ensures ActiveFooterCount(active) == 0 <==> FooterSidebars !! active
    ensures ActiveFooterCount(active) == 3 <==> FooterSidebars <= active
  {
    FooterCountByArea(active);
  }
}

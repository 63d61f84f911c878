/**
 * Twenty Eleven's custom-header colour decisions: the front-end header style,
 * the admin preview stylesheet and markup, and the default background colour
 * chosen by the colour scheme.
 *
 * The emitted CSS is modelled as rules and declarations rather than text, so
 * that "contains a colour declaration" means exactly that and cannot be
 * confused by text inside the colour value.
 */
module TwentyElevenHeader {
  import opened Php

  datatype Declaration = Declaration(property: string, value: string)
  datatype Rule = Rule(selectors: seq<string>, declarations: seq<Declaration>)
  datatype StyleBlock = NoStyle | Style(id: string, rules: seq<Rule>)

  /** The `default-text-color` of the custom-header support, also HEADER_TEXTCOLOR. */
  const DefaultTextColor: string := "000"

  /** The header text colour value that means "do not show the text". */
  const Blank: string := "blank"

  /** Some rule declares the given property. */
  predicate DeclaresProperty(rules: seq<Rule>, property: string) {
    exists i, j :: 0 <= i < |rules| && 0 <= j < |rules[i].declarations| &&
      rules[i].declarations[j].property == property
  }

  /** The rule that hides the site title and description from view. */
  const HiddenTextRule: Rule :=
    Rule(["#site-title", "#site-description"],
         [Declaration("position", "absolute"), Declaration("clip-path", "inset(50%)")])

  /** The rule that colours the site title link and description. */
  function ColorRule(color: string): Rule {
    Rule(["#site-title a", "#site-description"], [Declaration("color", "#" + color)])
  }

  lemma ColorRuleOnlyColors(color: string)
    ensures DeclaresProperty([ColorRule(color)], "color")
    ensures forall p :: p != "color" ==> !DeclaresProperty([ColorRule(color)], p)
  {
    assert [ColorRule(color)][0].declarations[0].property == "color";
  }

  lemma HiddenTextRuleHasNoColor()
    ensures DeclaresProperty([HiddenTextRule], "clip-path")
    ensures !DeclaresProperty([HiddenTextRule], "color")
  {
    assert [HiddenTextRule][0].declarations[1].property == "clip-path";
  }

  /** twentyeleven_header_style: the style block printed in the page head. */
  function HeaderStyle(textColor: string): (style: StyleBlock)
    ensures style == NoStyle <==> textColor == DefaultTextColor
    ensures textColor == Blank ==>
      style.Style? && HiddenTextRule in style.rules && !DeclaresProperty(style.rules, "color")
    ensures textColor != DefaultTextColor && textColor != Blank ==>
      style.Style? && ColorRule(textColor) in style.rules &&
      HiddenTextRule !in style.rules && !DeclaresProperty(style.rules, "clip-path")
  {
    if textColor == DefaultTextColor then NoStyle
    else if textColor == Blank then
      HiddenTextRuleHasNoColor();
      Style("twentyeleven-header-css", [HiddenTextRule])
    else
      ColorRuleOnlyColors(textColor);
      Style("twentyeleven-header-css", [ColorRule(textColor)])
  }

  /** The fixed layout rules the admin stylesheet prints before the colour rule. */
  const AdminLayoutRules: seq<Rule> := [
    Rule([".appearance_page_custom-header #headimg"], [Declaration("border", "none")]),
    Rule(["#headimg h1", "#desc"],
         [Declaration("font-family", "\"Helvetica Neue\", Arial, Helvetica, \"Nimbus Sans L\", sans-serif")]),
    Rule(["#headimg h1"], [Declaration("margin", "0")]),
    Rule(["#headimg h1 a"],
         [Declaration("font-size", "32px"), Declaration("line-height", "36px"),
          Declaration("text-decoration", "none")]),
    Rule(["#desc"],
         [Declaration("font-size", "14px"), Declaration("line-height", "23px"),
          Declaration("padding", "0 0 3em")])
  ]

  /** The fixed image rule the admin stylesheet prints after the colour rule. */
  const AdminImageRules: seq<Rule> := [
    Rule(["#headimg img"],
         [Declaration("max-width", "1000px"), Declaration("height", "auto"),
          Declaration("width", "100%")])
  ]

  lemma AdminStaticRulesHaveNoColor()
    ensures !DeclaresProperty(AdminLayoutRules + AdminImageRules, "color")
  {
    var rules := AdminLayoutRules + AdminImageRules;
    forall i, j | 0 <= i < |rules| && 0 <= j < |rules[i].declarations|
      ensures rules[i].declarations[j].property != "color"
    {
      assert i == 0 || i == 1 || i == 2 || i == 3 || i == 4 || i == 5;
    }
  }

  /** The rules of `a + b` declare a property iff those of `a` or of `b` do. */
  lemma DeclaresPropertyAppend(a: seq<Rule>, b: seq<Rule>, property: string)
    ensures DeclaresProperty(a + b, property) <==>
      DeclaresProperty(a, property) || DeclaresProperty(b, property)
  {
    if DeclaresProperty(a + b, property) {
      var i, j :| 0 <= i < |a + b| && 0 <= j < |(a + b)[i].declarations| &&
        (a + b)[i].declarations[j].property == property;
      if i >= |a| {
        assert b[i - |a|].declarations[j].property == property;
      }
    }
    if DeclaresProperty(b, property) {
      var i, j :| 0 <= i < |b| && 0 <= j < |b[i].declarations| &&
        b[i].declarations[j].property == property;
      assert (a + b)[|a| + i] == b[i];
    }
    if DeclaresProperty(a, property) {
      var i, j :| 0 <= i < |a| && 0 <= j < |a[i].declarations| &&
        a[i].declarations[j].property == property;
      assert (a + b)[i] == a[i];
    }
  }

  /**
   * twentyeleven_admin_header_style: the admin stylesheet. The static layout
   * is always printed; the colour rule only when the colour is not the default.
   */
  function AdminHeaderStyle(textColor: string): (style: StyleBlock)
    ensures style.Style? && |style.rules| >= |AdminLayoutRules| + |AdminImageRules|
    ensures DeclaresProperty(style.rules, "color") <==> textColor != DefaultTextColor
    ensures textColor != DefaultTextColor ==> ColorRule(textColor) in style.rules
    ensures style.rules[..|AdminLayoutRules|] == AdminLayoutRules
    ensures style.rules[|style.rules| - |AdminImageRules|..] == AdminImageRules
  {
    var colorRules := if textColor != DefaultTextColor then [ColorRule(textColor)] else [];
    var rules := AdminLayoutRules + colorRules + AdminImageRules;
    AdminStaticRulesHaveNoColor();
    DeclaresPropertyAppend(AdminLayoutRules, AdminImageRules, "color");
    DeclaresPropertyAppend(AdminLayoutRules, colorRules, "color");
    DeclaresPropertyAppend(AdminLayoutRules + colorRules, AdminImageRules, "color");
    ColorRuleOnlyColors(textColor);
    assert textColor != DefaultTextColor ==> rules[|AdminLayoutRules|] == ColorRule(textColor);
    Style("twentyeleven-admin-header-css", rules)
  }

  /** The admin header preview: heading, description and the optional image. */
  datatype AdminPreview = AdminPreview(
    nameStyle: string, name: string,
    descriptionStyle: string, description: string,
    image: Option<string>)

  /** twentyeleven_admin_header_image, with `get_header_image()` false given as "". */
  function AdminHeaderImage(textColor: string, imageUrl: string, name: string, description: string)
    : (preview: AdminPreview)
    ensures preview.nameStyle == preview.descriptionStyle
    ensures preview.nameStyle == "display: none;" <==> !(Truthy(textColor) && textColor != Blank)
    ensures Truthy(textColor) && textColor != Blank ==>
      preview.nameStyle == "color: #" + textColor + ";"
    ensures preview.image.Some? <==> Truthy(imageUrl)
    ensures preview.image.Some? ==> preview.image.value == imageUrl
    ensures preview.name == name && preview.description == description
  {
    var style := if Truthy(textColor) && textColor != Blank then "color: #" + textColor + ";"
                 else "display: none;";
    assert ("color: #" + textColor + ";")[0] == 'c';
    AdminPreview(style, name, style, description,
                 if Truthy(imageUrl) then Some(imageUrl) else None)
  }

  /**
   * The front-end and admin stylesheets agree on a custom colour, and both
   * print no colour rule for the default one. For "blank" they differ: the
   * front end hides the text while the admin stylesheet still colours it
   * with "#blank".
   */
  lemma FrontEndAndAdminColor(textColor: string)
    ensures textColor == DefaultTextColor ==>
      HeaderStyle(textColor) == NoStyle && !DeclaresProperty(AdminHeaderStyle(textColor).rules, "color")
    ensures textColor != DefaultTextColor && textColor != Blank ==>
      ColorRule(textColor) in HeaderStyle(textColor).rules &&
      ColorRule(textColor) in AdminHeaderStyle(textColor).rules
    ensures textColor == Blank ==>
      !DeclaresProperty(HeaderStyle(textColor).rules, "color") &&
      ColorRule("blank") in AdminHeaderStyle(textColor).rules
  {
  }

  /** twentyeleven_setup: the default background colour for the colour scheme. */
  function DefaultBackgroundColor(colorScheme: string): (color: string)
    ensures color == "1d1d1d" <==> colorScheme == "dark"
    ensures color == "e2e2e2" <==> colorScheme != "dark"
  {
    if colorScheme == "dark" then "1d1d1d" else "e2e2e2"
  }
}

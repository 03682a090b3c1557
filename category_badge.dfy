/** The category badge of src/shared/components/CategoryBadge.tsx. */
module CategoryBadge {
  import opened Common

  /** A colour: a named entry of the theme, or a literal. */
  datatype Color = ThemeColor(name: string) | Hex(code: string)

  datatype BadgeStyle = BadgeStyle(color: Color, bg: Color)

  const NoticeStyle := BadgeStyle(ThemeColor("categoryNotice"), ThemeColor("accentSubtle"))
  const FreeStyle := BadgeStyle(ThemeColor("categoryFree"), Hex("#EBF2FE"))
  const QnaStyle := BadgeStyle(ThemeColor("categoryQna"), Hex("#FEF0EB"))
  const EtcStyle := BadgeStyle(ThemeColor("categoryEtc"), ThemeColor("bgMuted"))

  /** `getCategoryStyle`: a `switch` on the upper-cased code. */
  function CategoryStyle(category: string): BadgeStyle {
    match Upper(category)
    case "NOTICE" => NoticeStyle
    case "FREE" => FreeStyle
    case "QNA" => QnaStyle
    case _ => EtcStyle
  }

  /** The style does not depend on the letter case of the code. */
  lemma {:induction false} StyleCaseInsensitive(category: string)
    ensures CategoryStyle(category) == CategoryStyle(Upper(category))
  {
    UpperIdempotent(category);
  }

  /** NOTICE, FREE and QNA each have their own colours; every other code
      shares the Etc colour on the muted background. */
  lemma StyleTable(category: string)
    ensures CategoryStyle(category) == NoticeStyle <==> Upper(category) == "NOTICE"
    ensures CategoryStyle(category) == FreeStyle <==> Upper(category) == "FREE"
    ensures CategoryStyle(category) == QnaStyle <==> Upper(category) == "QNA"
    ensures CategoryStyle(category) == EtcStyle <==> Upper(category) !in {"NOTICE", "FREE", "QNA"}
  {
  }

  datatype Badge = Badge(style: BadgeStyle, text: string, minWidth: Option<int>)

  /** The rendered badge: the upper-cased code, and a minimum width only for
      a truthy `minWidth` (absent or 0 gives none). */
  function Render(category: string, minWidth: Option<int>): (b: Badge)
    ensures b.text == Upper(category) && b.style == CategoryStyle(category)
    ensures b.minWidth.Some? <==> minWidth.Some? && minWidth.value != 0
    ensures b.minWidth.Some? ==> b.minWidth == minWidth
  {
    Badge(CategoryStyle(category), Upper(category), if minWidth.Some? && minWidth.value != 0 then minWidth else None)
  }
}

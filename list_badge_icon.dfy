/**
 The configuration of a settings-style badge icon: a coloured rounded badge
 with a stroke, and an icon drawn on it in a plain colour, a gradient of a
 colour, or its own colours. Only the configuration is modelled, not the view.
 */
module ListBadgeIcons {
  import opened Wrappers

  /** The colours the badges use; two colours are equal exactly when they are the same value here. */
  datatype Color = Clear | White | Gray | Red | Yellow | Orange | Hex(rgb: nat)

  /** An image, identified by the name of the symbol it shows. */
  datatype Image = Symbol(name: string)

  /** The stored configuration of a badge icon. */
  datatype ListBadgeIcon = ListBadgeIcon(
    image: Image,
    badgeColor: Color,
    badgeStrokeColor: Color,
    iconColor: Option<Color>,
    iconGradient: bool,
    height: Option<real>)

  /** The light gray stroke drawn around white badges, so that they stand out from a white list. */
  const WhiteBadgeStroke: Color := Hex(0xeeeeee)

  const DefaultHeight: Option<real> := Some(30.0)

  /** How the icon's foreground is styled. */
  datatype IconStyle = Gradient(color: Color) | Solid(color: Color) | Unchanged

  /** The initializer with a badge colour only: a white, non-gradient icon and a clear stroke. */
  function WithBadgeColor(image: Image, badgeColor: Color, height: Option<real> := DefaultHeight): (b: ListBadgeIcon)
    ensures b.image == image && b.badgeColor == badgeColor && b.height == height
    ensures b.badgeStrokeColor == Clear && b.iconColor == Some(White) && !b.iconGradient
  {
    ListBadgeIcon(image, badgeColor, Clear, Some(White), false, height)
  }

  /** The initializer with an icon colour; the gradient defaults to on, and a white badge gets a light gray stroke. */
  function WithIconColor(image: Image, badgeColor: Color, iconColor: Option<Color>, iconGradient: bool := true,
                         height: Option<real> := DefaultHeight): (b: ListBadgeIcon)
    ensures b.image == image && b.badgeColor == badgeColor && b.height == height
    ensures b.iconColor == iconColor && b.iconGradient == iconGradient
    ensures b.badgeStrokeColor == WhiteBadgeStroke <==> badgeColor == White
    ensures b.badgeStrokeColor == Clear <==> badgeColor != White
  {
    ListBadgeIcon(image, badgeColor, if badgeColor == White then WhiteBadgeStroke else Clear, iconColor, iconGradient, height)
  }

  /** The foreground style applied to a view for an optional colour and a gradient condition. */
  function ForegroundColor(color: Option<Color>, gradientIf: bool): (s: IconStyle)
    ensures s.Gradient? <==> color.Some? && gradientIf
    ensures s.Solid? <==> color.Some? && !gradientIf
    ensures s.Unchanged? <==> color.None?
    ensures !s.Unchanged? ==> s.color == color.value
  {
    if color.Some? && gradientIf then Gradient(color.value)
    else if color.Some? then Solid(color.value)
    else Unchanged
  }

  /** The style the badge's body applies to its icon. */
  function IconForeground(b: ListBadgeIcon): (s: IconStyle)
    ensures s.Unchanged? <==> b.iconColor.None?
    ensures b.iconColor.Some? ==> s.color == b.iconColor.value && (s.Gradient? <==> b.iconGradient)
  {
    ForegroundColor(b.iconColor, b.iconGradient)
  }

  /** A white badge with an icon in the given colour. */
  function WhiteBadge(icon: Image, iconColor: Option<Color>): (b: ListBadgeIcon)
    ensures b.badgeColor == White && b.badgeStrokeColor == WhiteBadgeStroke
    ensures b.image == icon && b.iconColor == iconColor && b.iconGradient
    ensures b.height == DefaultHeight
  {
    WithIconColor(icon, White, iconColor)
  }

  /** The symbol rendering mode applied on top of a badge. */
  datatype SymbolRendering = Multicolor

  datatype RenderedBadge = RenderedBadge(badge: ListBadgeIcon, rendering: SymbolRendering)

  /** A badge whose symbol is drawn in its own colours. */
  function MultiColor(b: ListBadgeIcon): (r: RenderedBadge)
    ensures r.badge == b && r.rendering == Multicolor
  {
    RenderedBadge(b, Multicolor)
  }

  /** The white palette badge, whose icon keeps its own colours. */
  function MulticolorPalette(): (r: RenderedBadge)
    ensures r.rendering == Multicolor
    ensures r.badge.image == Symbol("paintpalette") && r.badge.badgeColor == White
    ensures r.badge.iconColor == None && IconForeground(r.badge) == Unchanged
  {
    MultiColor(WhiteBadge(Symbol("paintpalette"), None))
  }

  /** The white badge with a red heart. */
  function RedHeart(): (b: ListBadgeIcon)
    ensures b.image == Symbol("heart") && b.badgeColor == White && b.badgeStrokeColor == WhiteBadgeStroke
    ensures IconForeground(b) == Gradient(Red)
  {
    WhiteBadge(Symbol("heart"), Some(Red))
  }

  /** The gray settings badge with a white gear. */
  function Settings(): (b: ListBadgeIcon)
    ensures b.image == Symbol("gearshape") && b.badgeColor == Gray && b.badgeStrokeColor == Clear
    ensures IconForeground(b) == Gradient(White)
  {
    WithIconColor(Symbol("gearshape"), Gray, Some(White))
  }

  /** The white badge with a yellow star. */
  function YellowStar(): (b: ListBadgeIcon)
    ensures b.image == Symbol("star") && b.badgeColor == White && b.badgeStrokeColor == WhiteBadgeStroke
    ensures IconForeground(b) == Gradient(Yellow)
  {
    WhiteBadge(Symbol("star"), Some(Yellow))
  }

  /** A badge made from a badge colour only always draws a plain white icon and no visible stroke. */
  lemma BadgeColorOnlyDrawsSolidWhiteIcon(image: Image, badgeColor: Color, height: Option<real>)
    ensures IconForeground(WithBadgeColor(image, badgeColor, height)) == Solid(White)
    ensures WithBadgeColor(image, badgeColor, height).badgeStrokeColor == Clear
  {
  }

  /** With the same colours, the two initializers differ only in the stroke of a white badge and the icon gradient. */
  lemma InitializersAgreeExceptStrokeAndGradient(image: Image, badgeColor: Color, height: Option<real>)
    ensures WithIconColor(image, badgeColor, Some(White), false, height) ==
            WithBadgeColor(image, badgeColor, height).(badgeStrokeColor := if badgeColor == White then WhiteBadgeStroke else Clear)
  {
  }
}

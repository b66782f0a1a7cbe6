/** The maneuver icon shown for a GraphHopper instruction sign. */
module InstructionIcon {
  import opened Wrappers

  /** The four icon shapes the screens use. */
  datatype Glyph = TurnLeft | TurnRight | Straight | Flag

  /** The palette colours an icon can take. */
  datatype IconColor = Inherit | Action | Disabled | Primary | Secondary | Error | Info | Success | Warning

  /** An icon; `color` is `None` when the icon falls back to the inherited colour. */
  datatype Icon = Icon(glyph: Glyph, color: Option<IconColor>)

  /** Signs GraphHopper uses for turns to the left (sharp, normal, slight, keep). */
  predicate IsLeftSign(sign: int) {
    sign == -3 || sign == -2 || sign == -1 || sign == -7
  }

  /** Signs GraphHopper uses for turns to the right (slight, normal, sharp, keep). */
  predicate IsRightSign(sign: int) {
    sign == 1 || sign == 2 || sign == 3 || sign == 7
  }

  /**
   * The switch of `getIcon`, before the caller's props are applied: left
   * signs give a left-turn glyph, right signs a right-turn glyph, 4 (arrive)
   * a flag and every other sign a straight arrow. Sharp and normal left
   * turns carry no colour of their own; slight turns are disabled, keep
   * turns are "action", normal and sharp right turns and straight are
   * primary, the arrival flag is "success".
   */
  function BuiltInIcon(sign: int): (icon: Icon)
    ensures icon.glyph == TurnLeft <==> IsLeftSign(sign)
    ensures icon.glyph == TurnRight <==> IsRightSign(sign)
    ensures icon.glyph == Flag <==> sign == 4
    ensures icon.color.None? <==> sign == -3 || sign == -2
    ensures icon.color == Some(Disabled) <==> sign == -1 || sign == 1
    ensures icon.color == Some(Action) <==> sign == -7 || sign == 7
    ensures icon.color == Some(IconColor.Success) <==> sign == 4
  {
    match sign
    case -3 => Icon(TurnLeft, None)
    case -2 => Icon(TurnLeft, None)
    case -1 => Icon(TurnLeft, Some(Disabled))
    case 0 => Icon(Straight, Some(Primary))
    case 1 => Icon(TurnRight, Some(Disabled))
    case 2 => Icon(TurnRight, Some(Primary))
    case 3 => Icon(TurnRight, Some(Primary))
    case 7 => Icon(TurnRight, Some(Action))
    case -7 => Icon(TurnLeft, Some(Action))
    case 4 => Icon(Flag, Some(IconColor.Success))
    case _ => Icon(Straight, Some(Primary))
  }

  /**
   * `InstructionIcon`: the caller's props are spread after the built-in
   * colour, so a colour the caller passes replaces it.
   */
  function RenderedIcon(sign: int, callerColor: Option<IconColor>): (icon: Icon)
    ensures icon.glyph == BuiltInIcon(sign).glyph
    ensures callerColor.Some? ==> icon.color == callerColor
    ensures callerColor.None? ==> icon.color == BuiltInIcon(sign).color
  {
    Icon(BuiltInIcon(sign).glyph, if callerColor.Some? then callerColor else BuiltInIcon(sign).color)
  }

  /** Every sign GraphHopper does not list as a turn or an arrival shows the primary straight arrow. */
  lemma UnlistedSignsGoStraight(sign: int)
    requires !IsLeftSign(sign) && !IsRightSign(sign) && sign != 4
    ensures BuiltInIcon(sign) == Icon(Straight, Some(Primary))
  {
  }
}

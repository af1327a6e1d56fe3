/**
  Text properties of SVG 1.1 chapter 10: the keyword parsers and writers for
  writing-mode, direction and unicode-bidi (section 10.7), text-anchor,
  dominant-baseline, alignment-baseline and baseline-shift (section 10.9), the
  lengthAdjust attribute of the text element, "auto"-capable lengths, and the
  per-character transformation built from the x, y, dx, dy and rotate attributes.

  The unit parsers and number formatters the source calls into are not part of
  this model; they appear as function-typed parameters.
*/
module KoSvgText {
  import opened Wrappers

  // ---------------------------------------------------------------------------
  // Lengths that may be "auto"
  // ---------------------------------------------------------------------------

  /** A length that is either the auto keyword or a number in user units. */
  datatype AutoValue = Auto | Custom(customValue: real)

  /** Which of the unit parsers (x, y, xy, angular) converts a non-auto value. */
  datatype UnitAxis = AxisX | AxisY | AxisXY | AxisAngular

  /**
    The four parseAutoValue* functions: the auto keyword gives an auto value,
    anything else goes to the unit parser for `axis`. `parseUnit` stands for the
    unit parsers together with the current graphics context.
  */
  function ParseAutoValue(axis: UnitAxis, value: string, autoKeyword: string,
                          parseUnit: (UnitAxis, string) -> real): (r: AutoValue)
    ensures r.Auto? <==> value == autoKeyword
    ensures r.Custom? ==> r.customValue == parseUnit(axis, value)
  {
    if value == autoKeyword then Auto else Custom(parseUnit(axis, value))
  }

  /** The auto keyword for an auto value, the formatted number otherwise. */
  function WriteAutoValue(v: AutoValue, autoKeyword: string, toString: real -> string): (s: string)
    ensures v.Auto? ==> s == autoKeyword
    ensures v.Custom? ==> s == toString(v.customValue)
  {
    if v.Auto? then autoKeyword else toString(v.customValue)
  }

  /**
    Writing then parsing gives back the value: always for auto, and for a number
    whenever the formatter's text is not the keyword and the unit parser reads it
    back as the same number.
  */
  lemma AutoValueRoundTrip(v: AutoValue, axis: UnitAxis, autoKeyword: string,
                           parseUnit: (UnitAxis, string) -> real, toString: real -> string)
    requires v.Custom? ==> toString(v.customValue) != autoKeyword
    requires v.Custom? ==> parseUnit(axis, toString(v.customValue)) == v.customValue
    ensures ParseAutoValue(axis, WriteAutoValue(v, autoKeyword, toString), autoKeyword, parseUnit) == v
  {
  }

  // ---------------------------------------------------------------------------
  // writing-mode, direction, unicode-bidi (section 10.7 of SVG 1.1)
  // ---------------------------------------------------------------------------

  datatype WritingMode = LeftToRight | RightToLeft | TopToBottom

  /** The strings parseWritingMode recognises; every other string means lr. */
  const WritingModeKeywords: set<string> := {"tb-rl", "tb", "rl-tb", "rl"}

  function ParseWritingMode(value: string): (mode: WritingMode)
    ensures mode == LeftToRight <==> value !in WritingModeKeywords
  {
    if value == "tb-rl" || value == "tb" then TopToBottom
    else if value == "rl-tb" || value == "rl" then RightToLeft
    else LeftToRight
  }

  function WriteWritingMode(mode: WritingMode): (value: string)
    ensures ParseWritingMode(value) == mode
  {
    if mode == TopToBottom then "tb" else if mode == RightToLeft then "rl" else "lr"
  }

  /** The long and short forms are aliases; the short form is the one written. */
  lemma WritingModeAliases()
    ensures ParseWritingMode("tb-rl") == ParseWritingMode("tb") == TopToBottom
    ensures ParseWritingMode("rl-tb") == ParseWritingMode("rl") == RightToLeft
    ensures ParseWritingMode("lr-tb") == ParseWritingMode("lr") == LeftToRight
    ensures WriteWritingMode(TopToBottom) == "tb" && WriteWritingMode(RightToLeft) == "rl"
  {
  }

  datatype Direction = DirectionLeftToRight | DirectionRightToLeft

  function ParseDirection(value: string): (direction: Direction)
    ensures direction == DirectionRightToLeft <==> value == "rtl"
  {
    if value == "rtl" then DirectionRightToLeft else DirectionLeftToRight
  }

  function WriteDirection(direction: Direction): (value: string)
    ensures ParseDirection(value) == direction
  {
    if direction == DirectionRightToLeft then "rtl" else "ltr"
  }

  datatype UnicodeBidi = BidiNormal | BidiEmbed | BidiOverride

  const UnicodeBidiKeywords: set<string> := {"embed", "bidi-override"}

  function ParseUnicodeBidi(value: string): (bidi: UnicodeBidi)
    ensures bidi == BidiNormal <==> value !in UnicodeBidiKeywords
  {
    if value == "embed" then BidiEmbed
    else if value == "bidi-override" then BidiOverride
    else BidiNormal
  }

  function WriteUnicodeBidi(bidi: UnicodeBidi): (value: string)
    ensures ParseUnicodeBidi(value) == bidi
  {
    if bidi == BidiEmbed then "embed" else if bidi == BidiOverride then "bidi-override" else "normal"
  }

  // ---------------------------------------------------------------------------
  // text-anchor, dominant-baseline, alignment-baseline, baseline-shift
  // (section 10.9 of SVG 1.1)
  // ---------------------------------------------------------------------------

  datatype TextAnchor = AnchorStart | AnchorMiddle | AnchorEnd

  const TextAnchorKeywords: set<string> := {"middle", "end"}

  function ParseTextAnchor(value: string): (anchor: TextAnchor)
    ensures anchor == AnchorStart <==> value !in TextAnchorKeywords
  {
    if value == "middle" then AnchorMiddle
    else if value == "end" then AnchorEnd
    else AnchorStart
  }

  function WriteTextAnchor(anchor: TextAnchor): (value: string)
    ensures ParseTextAnchor(value) == anchor
  {
    if anchor == AnchorEnd then "end" else if anchor == AnchorMiddle then "middle" else "start"
  }

  datatype DominantBaseline =
    | DominantBaselineAuto
    | DominantBaselineUseScript
    | DominantBaselineNoChange
    | DominantBaselineResetSize
    | DominantBaselineIdeographic
    | DominantBaselineAlphabetic
    | DominantBaselineHanging
    | DominantBaselineMathematical
    | DominantBaselineCentral
    | DominantBaselineMiddle
    | DominantBaselineTextAfterEdge
    | DominantBaselineTextBeforeEdge

  /** The strings parseDominantBaseline recognises; "auto" is not among them. */
  const DominantBaselineKeywords: set<string> :=
    {"use-script", "no-change", "reset-size", "ideographic", "alphabetic", "hanging",
     "mathematical", "central", "middle", "text-after-edge", "text-before-edge"}

  function ParseDominantBaseline(value: string): (baseline: DominantBaseline)
    ensures baseline == DominantBaselineAuto <==> value !in DominantBaselineKeywords
  {
    if value == "use-script" then DominantBaselineUseScript
    else if value == "no-change" then DominantBaselineNoChange
    else if value == "reset-size" then DominantBaselineResetSize
    else if value == "ideographic" then DominantBaselineIdeographic
    else if value == "alphabetic" then DominantBaselineAlphabetic
    else if value == "hanging" then DominantBaselineHanging
    else if value == "mathematical" then DominantBaselineMathematical
    else if value == "central" then DominantBaselineCentral
    else if value == "middle" then DominantBaselineMiddle
    else if value == "text-after-edge" then DominantBaselineTextAfterEdge
    else if value == "text-before-edge" then DominantBaselineTextBeforeEdge
    else DominantBaselineAuto
  }

  /** Auto is written as "auto", which the parser does not know and so reads as its default, Auto. */
  function WriteDominantBaseline(baseline: DominantBaseline): (value: string)
    ensures ParseDominantBaseline(value) == baseline
    ensures baseline == DominantBaselineAuto ==> value == "auto"
  {
    if baseline == DominantBaselineUseScript then "use-script"
    else if baseline == DominantBaselineNoChange then "no-change"
    else if baseline == DominantBaselineResetSize then "reset-size"
    else if baseline == DominantBaselineIdeographic then "ideographic"
    else if baseline == DominantBaselineAlphabetic then "alphabetic"
    else if baseline == DominantBaselineHanging then "hanging"
    else if baseline == DominantBaselineMathematical then "mathematical"
    else if baseline == DominantBaselineCentral then "central"
    else if baseline == DominantBaselineMiddle then "middle"
    else if baseline == DominantBaselineTextAfterEdge then "text-after-edge"
    else if baseline == DominantBaselineTextBeforeEdge then "text-before-edge"
    else "auto"
  }

  datatype AlignmentBaseline =
    | AlignmentBaselineAuto
    | AlignmentBaselineDominant
    | AlignmentBaselineIdeographic
    | AlignmentBaselineAlphabetic
    | AlignmentBaselineHanging
    | AlignmentBaselineMathematical
    | AlignmentBaselineCentral
    | AlignmentBaselineMiddle
    | AlignmentBaselineTextAfterEdge
    | AlignmentBaselineTextBeforeEdge

  /** The strings parseAlignmentBaseline recognises, the two edge aliases included. */
  const AlignmentBaselineKeywords: set<string> :=
    {"baseline", "ideographic", "alphabetic", "hanging", "mathematical", "central", "middle",
     "text-after-edge", "after-edge", "text-before-edge", "before-edge"}

  function ParseAlignmentBaseline(value: string): (baseline: AlignmentBaseline)
    ensures baseline == AlignmentBaselineAuto <==> value !in AlignmentBaselineKeywords
  {
    if value == "baseline" then AlignmentBaselineDominant
    else if value == "ideographic" then AlignmentBaselineIdeographic
    else if value == "alphabetic" then AlignmentBaselineAlphabetic
    else if value == "hanging" then AlignmentBaselineHanging
    else if value == "mathematical" then AlignmentBaselineMathematical
    else if value == "central" then AlignmentBaselineCentral
    else if value == "middle" then AlignmentBaselineMiddle
    else if value == "text-after-edge" || value == "after-edge" then AlignmentBaselineTextAfterEdge
    else if value == "text-before-edge" || value == "before-edge" then AlignmentBaselineTextBeforeEdge
    else AlignmentBaselineAuto
  }

  function WriteAlignmentBaseline(baseline: AlignmentBaseline): (value: string)
    ensures ParseAlignmentBaseline(value) == baseline
    ensures baseline == AlignmentBaselineAuto ==> value == "auto"
  {
    if baseline == AlignmentBaselineDominant then "baseline"
    else if baseline == AlignmentBaselineIdeographic then "ideographic"
    else if baseline == AlignmentBaselineAlphabetic then "alphabetic"
    else if baseline == AlignmentBaselineHanging then "hanging"
    else if baseline == AlignmentBaselineMathematical then "mathematical"
    else if baseline == AlignmentBaselineCentral then "central"
    else if baseline == AlignmentBaselineMiddle then "middle"
    else if baseline == AlignmentBaselineTextAfterEdge then "text-after-edge"
    else if baseline == AlignmentBaselineTextBeforeEdge then "text-before-edge"
    else "auto"
  }

  /** The short edge names are aliases of the text-* names; the long form is the one written. */
  lemma AlignmentBaselineAliases()
    ensures ParseAlignmentBaseline("after-edge") == ParseAlignmentBaseline("text-after-edge")
                                                 == AlignmentBaselineTextAfterEdge
    ensures ParseAlignmentBaseline("before-edge") == ParseAlignmentBaseline("text-before-edge")
                                                  == AlignmentBaselineTextBeforeEdge
    ensures WriteAlignmentBaseline(AlignmentBaselineTextAfterEdge) == "text-after-edge"
    ensures WriteAlignmentBaseline(AlignmentBaselineTextBeforeEdge) == "text-before-edge"
  {
  }

  datatype BaselineShiftMode = ShiftNone | ShiftSub | ShiftSuper | ShiftPercentage

  const BaselineShiftKeywords: set<string> := {"baseline", "sub", "super"}

  function ParseBaselineShiftMode(value: string): (mode: BaselineShiftMode)
    ensures mode == ShiftPercentage <==> value !in BaselineShiftKeywords
  {
    if value == "baseline" then ShiftNone
    else if value == "sub" then ShiftSub
    else if value == "super" then ShiftSuper
    else ShiftPercentage
  }

  /**
    The keyword of a keyword mode; for a percentage shift, `portion` formatted
    by `toPercentage` (SvgUtil::toPercentage in the source).
  */
  function WriteBaselineShiftMode(mode: BaselineShiftMode, portion: real,
                                  toPercentage: real -> string): (value: string)
    ensures mode != ShiftPercentage ==> ParseBaselineShiftMode(value) == mode
    ensures mode == ShiftPercentage ==> value == toPercentage(portion)
  {
    if mode == ShiftNone then "baseline"
    else if mode == ShiftSub then "sub"
    else if mode == ShiftSuper then "super"
    else toPercentage(portion)
  }

  /** A percentage round-trips as long as its text is not one of the three keywords. */
  lemma BaselineShiftRoundTrip(mode: BaselineShiftMode, portion: real, toPercentage: real -> string)
    requires toPercentage(portion) !in BaselineShiftKeywords
    ensures ParseBaselineShiftMode(WriteBaselineShiftMode(mode, portion, toPercentage)) == mode
  {
  }

  // ---------------------------------------------------------------------------
  // lengthAdjust attribute of the text element
  // ---------------------------------------------------------------------------

  datatype LengthAdjust = LengthAdjustSpacing | LengthAdjustSpacingAndGlyphs

  function ParseLengthAdjust(value: string): (adjust: LengthAdjust)
    ensures adjust == LengthAdjustSpacingAndGlyphs <==> value == "spacingAndGlyphs"
  {
    if value == "spacingAndGlyphs" then LengthAdjustSpacingAndGlyphs else LengthAdjustSpacing
  }

  function WriteLengthAdjust(adjust: LengthAdjust): (value: string)
    ensures ParseLengthAdjust(value) == adjust
  {
    if adjust == LengthAdjustSpacingAndGlyphs then "spacingAndGlyphs" else "spacing"
  }

  // ---------------------------------------------------------------------------
  // Character transformations (x, y, dx, dy, rotate of one character)
  // ---------------------------------------------------------------------------

  /** A point in user space; `real` stands for qreal, without rounding. */
  datatype Point = Point(x: real, y: real)

  /** What a default-constructed QPointF holds. */
  const Origin := Point(0.0, 0.0)

  /** The value of a CharTransformation: which of its five fields are set, and to what. */
  datatype Transform = Transform(xPos: Option<real>, yPos: Option<real>,
                                 dxPos: Option<real>, dyPos: Option<real>,
                                 rotate: Option<real>)
  {
    /**
      This transformation with every unset field taken from `parent`: set fields
      stay, unset fields take the parent's value, and afterwards a field is set
      exactly when it was set here or in `parent`.
    */
    function Merged(parent: Transform): (m: Transform)
      ensures xPos.Some? ==> m.xPos == xPos
      ensures yPos.Some? ==> m.yPos == yPos
      ensures dxPos.Some? ==> m.dxPos == dxPos
      ensures dyPos.Some? ==> m.dyPos == dyPos
      ensures rotate.Some? ==> m.rotate == rotate
      ensures xPos.None? ==> m.xPos == parent.xPos
      ensures yPos.None? ==> m.yPos == parent.yPos
      ensures dxPos.None? ==> m.dxPos == parent.dxPos
      ensures dyPos.None? ==> m.dyPos == parent.dyPos
      ensures rotate.None? ==> m.rotate == parent.rotate
      ensures m.xPos.Some? <==> xPos.Some? || parent.xPos.Some?
      ensures m.yPos.Some? <==> yPos.Some? || parent.yPos.Some?
      ensures m.dxPos.Some? <==> dxPos.Some? || parent.dxPos.Some?
      ensures m.dyPos.Some? <==> dyPos.Some? || parent.dyPos.Some?
      ensures m.rotate.Some? <==> rotate.Some? || parent.rotate.Some?
    {
      Transform(if xPos.Some? then xPos else parent.xPos,
                if yPos.Some? then yPos else parent.yPos,
                if dxPos.Some? then dxPos else parent.dxPos,
                if dyPos.Some? then dyPos else parent.dyPos,
                if rotate.Some? then rotate else parent.rotate)
    }

    /** `pos` with its coordinates replaced by the absolute x and y, where set. */
    function Overridden(pos: Point): Point
    {
      Point(xPos.GetOr(pos.x), yPos.GetOr(pos.y))
    }

    /** `pos` moved by the relative dx and dy, where set. */
    function Shifted(pos: Point): Point
    {
      Point(pos.x + dxPos.GetOr(0.0), pos.y + dyPos.GetOr(0.0))
    }
  }

  /** The transformation with no field set. */
  const NullTransform := Transform(None, None, None, None, None)

  /** Merging an unset parent changes nothing. */
  lemma MergeNullParent(t: Transform)
    ensures t.Merged(NullTransform) == t
  {
  }

  /** Merging the same parent twice is merging it once. */
  lemma MergeIdempotent(t: Transform, parent: Transform)
    ensures t.Merged(parent).Merged(parent) == t.Merged(parent)
  {
  }

  /**
    The absolute position of a merged transformation is the child's override
    applied over the parent's: the child wins where it sets a coordinate.
  */
  lemma MergeComposesOverrides(t: Transform, parent: Transform, pos: Point)
    ensures t.Merged(parent).Overridden(pos) == t.Overridden(parent.Overridden(pos))
  {
  }

  /** A transformation that sets neither x nor y leaves every position where it is, and vice versa. */
  lemma OverrideMovesIffAbsolute(t: Transform)
    ensures (t.xPos.Some? || t.yPos.Some?) <==> exists pos :: t.Overridden(pos) != pos
  {
    if t.xPos.Some? {
      var p := Point(t.xPos.value + 1.0, 0.0);
      assert t.Overridden(p).x != p.x;
    } else if t.yPos.Some? {
      var p := Point(0.0, t.yPos.value + 1.0);
      assert t.Overridden(p).y != p.y;
    } else {
      forall pos ensures t.Overridden(pos) == pos { }
    }
  }

  /** With both x and y set, the adjusted position no longer depends on the incoming one. */
  lemma FullOverrideIgnoresPosition(t: Transform, pos: Point)
    requires t.xPos.Some? && t.yPos.Some?
    ensures t.Shifted(t.Overridden(pos)) == t.Shifted(t.Overridden(Origin))
  {
  }

  /**
    KoSvgText::CharTransformation. Its five fields are public in the source and
    callers assign them directly; mergeInParentTransformation updates them in place.
  */
  class CharTransformation {
    var xPos: Option<real>
    var yPos: Option<real>
    var dxPos: Option<real>
    var dyPos: Option<real>
    var rotate: Option<real>

    /** The fields as one value. */
    function Value(): Transform
      reads this
    {
      Transform(xPos, yPos, dxPos, dyPos, rotate)
    }

    /** A default-constructed transformation has no field set. */
    constructor ()
      ensures Value() == NullTransform
    {
      xPos, yPos, dxPos, dyPos, rotate := None, None, None, None, None;
    }

    /** Fills every unset field from `t`, one field at a time. */
    method MergeInParentTransformation(t: CharTransformation)
      modifies this
      ensures Value() == old(Value()).Merged(old(t.Value()))
    {
      if xPos.None? && t.xPos.Some? {
        xPos := Some(t.xPos.value);
      }
      if yPos.None? && t.yPos.Some? {
        yPos := Some(t.yPos.value);
      }
      if dxPos.None? && t.dxPos.Some? {
        dxPos := Some(t.dxPos.value);
      }
      if dyPos.None? && t.dyPos.Some? {
        dyPos := Some(t.dyPos.value);
      }
      if rotate.None? && t.rotate.Some? {
        rotate := Some(t.rotate.value);
      }
    }

    /** Null means equal to the default-constructed transformation. */
    predicate IsNull(): (r: bool)
      reads this
      ensures r <==> Value() == NullTransform
    {
      xPos.None? && yPos.None? && dxPos.None? && dyPos.None? && rotate.None?
    }

    /** An absolute x or y starts a new text chunk; without one no position is overridden. */
    predicate StartsNewChunk(): (r: bool)
      reads this
      ensures !r ==> forall pos :: Value().Overridden(pos) == pos
    {
      xPos.Some? || yPos.Some?
    }

    /** Without a dx or dy no position is shifted. */
    predicate HasRelativeOffset(): (r: bool)
      reads this
      ensures !r ==> forall pos :: Value().Shifted(pos) == pos
    {
      dxPos.Some? || dyPos.Some?
    }

    /** The position of the character: `pos` with the absolute overrides, then the relative offsets. */
    method AdjustedTextPos(pos: Point) returns (result: Point)
      ensures result == Value().Shifted(Value().Overridden(pos))
      ensures IsNull() ==> result == pos
    {
      result := pos;
      if xPos.Some? {
        result := result.(x := xPos.value);
      }
      if yPos.Some? {
        result := result.(y := yPos.value);
      }
      if dxPos.Some? {
        result := result.(x := result.x + dxPos.value);
      }
      if dyPos.Some? {
        result := result.(y := result.y + dyPos.value);
      }
    }

    /** The absolute overrides applied to the origin. */
    method AbsolutePos() returns (result: Point)
      ensures result == Value().Overridden(Origin)
    {
      result := Origin;
      if xPos.Some? {
        result := result.(x := xPos.value);
      }
      if yPos.Some? {
        result := result.(y := yPos.value);
      }
    }

    /** `pos` moved by the relative offsets only. */
    method AdjustRelativePos(pos: Point) returns (result: Point)
      ensures result == Value().Shifted(pos)
    {
      result := pos;
      if dxPos.Some? {
        result := result.(x := result.x + dxPos.value);
      }
      if dyPos.Some? {
        result := result.(y := result.y + dyPos.value);
      }
    }

    /** Two transformations are equal when each field is set in both with the same value, or unset in both. */
    predicate Equals(other: CharTransformation): (r: bool)
      reads this, other
      ensures r <==> Value() == other.Value()
    {
      xPos == other.xPos && yPos == other.yPos &&
      dxPos == other.dxPos && dyPos == other.dyPos &&
      rotate == other.rotate
    }
  }
}

/**
 * The chainable styled-text builder. `AttributedString` is a value that holds a
 * REFERENCE to one mutable attributed buffer: copying the value copies the
 * reference, every builder method changes that buffer in place and returns the value
 * it was called on, so all values designating one buffer see every change.
 */
module AttributedText {
  import opened Wrappers
  import opened Foundation

  datatype NSRange = NSRange(location: nat, length: nat)

  /** The paragraph-style field one paragraph setter changes. */
  datatype ParagraphField =
    | SetLineSpacing(lineSpacing: CGFloat)
    | SetLineHeightMultiple(multiple: CGFloat)
    | SetLineBreak(mode: LineBreakMode)
    | SetAlignment(alignment: TextAlignment)

  /**
   * The paragraph style found in an attribute map: the stored style when it is a
   * mutable paragraph style, a fresh default one otherwise (no style stored, or a
   * value the downcast to `NSMutableParagraphStyle` rejects).
   */
  function StyleIn(attrs: Attributes): (p: ParagraphStyle)
    ensures ParagraphStyleKey in attrs && attrs[ParagraphStyleKey].MutableParagraph? ==>
      p == attrs[ParagraphStyleKey].style
    ensures !(ParagraphStyleKey in attrs && attrs[ParagraphStyleKey].MutableParagraph?) ==>
      p == DefaultParagraphStyle
  {
    if ParagraphStyleKey in attrs then
      match attrs[ParagraphStyleKey]
      case MutableParagraph(style) => style
      case _ => DefaultParagraphStyle
    else DefaultParagraphStyle
  }

  /** A paragraph style with exactly the field `f` names changed. */
  function WithField(p: ParagraphStyle, f: ParagraphField): (q: ParagraphStyle)
    ensures q.lineSpacing == if f.SetLineSpacing? then f.lineSpacing else p.lineSpacing
    ensures q.lineHeightMultiple == if f.SetLineHeightMultiple? then f.multiple else p.lineHeightMultiple
    ensures q.lineBreakMode == if f.SetLineBreak? then f.mode else p.lineBreakMode
    ensures q.alignment == if f.SetAlignment? then f.alignment else p.alignment
  {
    match f
    case SetLineSpacing(v) => p.(lineSpacing := v)
    case SetLineHeightMultiple(v) => p.(lineHeightMultiple := v)
    case SetLineBreak(m) => p.(lineBreakMode := m)
    case SetAlignment(a) => p.(alignment := a)
  }

  /** The style after changing the fields of `fs` one after another. */
  function WithFields(p: ParagraphStyle, fs: seq<ParagraphField>): ParagraphStyle
    decreases |fs|
  {
    if fs == [] then p else WithField(WithFields(p, fs[..|fs| - 1]), fs[|fs| - 1])
  }

  /**
   * The content after one paragraph setter: the style at position 0 (or a default),
   * with one field changed, written over the whole content.
   */
  function ParagraphWrite(s: Content, f: ParagraphField): (r: Content)
    requires |s| > 0
    ensures |r| == |s|
  {
    Painted(s, map[ParagraphStyleKey := MutableParagraph(WithField(StyleIn(s[0].attrs), f))], 0, |s|)
  }

  /** The content after the paragraph setters of `fs`, called in that order. */
  function ParagraphWrites(s: Content, fs: seq<ParagraphField>): (r: Content)
    requires |s| > 0
    ensures |r| == |s|
    decreases |fs|
  {
    if fs == [] then s else ParagraphWrite(ParagraphWrites(s, fs[..|fs| - 1]), fs[|fs| - 1])
  }

  /**
   * Paragraph setters accumulate: after any non-empty sequence of them every position
   * carries ONE style, the style first found at position 0 with every field of the
   * sequence applied in order; text and all other keys are untouched.
   */
  lemma {:induction false} ParagraphWritesAccumulate(s: Content, fs: seq<ParagraphField>)
    requires |s| > 0 && |fs| > 0
    ensures Text(ParagraphWrites(s, fs)) == Text(s)
    ensures forall i :: 0 <= i < |s| ==>
      Attr(ParagraphWrites(s, fs), i, ParagraphStyleKey)
        == Some(MutableParagraph(WithFields(StyleIn(s[0].attrs), fs)))
    ensures forall i, k :: 0 <= i < |s| && k != ParagraphStyleKey ==>
      Attr(ParagraphWrites(s, fs), i, k) == Attr(s, i, k)
    decreases |fs|
  {
    var n := |fs|;
    var prefix := fs[..n - 1];
    if n > 1 {
      ParagraphWritesAccumulate(s, prefix);
      var t := ParagraphWrites(s, prefix);
      assert Attr(t, 0, ParagraphStyleKey) == Some(MutableParagraph(WithFields(StyleIn(s[0].attrs), prefix)));
      assert StyleIn(t[0].attrs) == WithFields(StyleIn(s[0].attrs), prefix);
    } else {
      assert prefix == [];
    }
  }

  /**
   * `lineSpacing(a)` followed by `alignment(b)` leaves, at every position, one style
   * holding both settings and the other two fields as they were at position 0.
   */
  lemma LineSpacingThenAlignment(s: Content, a: CGFloat, b: TextAlignment)
    requires |s| > 0
    ensures var r := ParagraphWrite(ParagraphWrite(s, SetLineSpacing(a)), SetAlignment(b));
      var p := StyleIn(s[0].attrs);
      forall i :: 0 <= i < |s| ==>
        Attr(r, i, ParagraphStyleKey)
          == Some(MutableParagraph(ParagraphStyle(a, p.lineHeightMultiple, p.lineBreakMode, b)))
  {
    var fs := [SetLineSpacing(a), SetAlignment(b)];
    assert fs[..1] == [SetLineSpacing(a)] && fs[..1][..0] == [];
    ParagraphWritesAccumulate(s, fs);
  }

  /** What the underline setter writes: always the style, the color only when given. */
  function UnderlineWrite(s: Content, style: UnderlineStyle, color: Option<Color>): (r: Content)
    ensures |r| == |s| && Text(r) == Text(s)
    ensures forall i, k :: 0 <= i < |s| ==>
      Attr(r, i, k) ==
        if k == UnderlineStyleKey then Some(IntValue(style.rawValue))
        else if k == UnderlineColorKey && color.Some? then Some(ColorValue(color.value))
        else Attr(s, i, k)
  {
    var styled := Painted(s, map[UnderlineStyleKey := IntValue(style.rawValue)], 0, |s|);
    if color.Some? then Painted(styled, map[UnderlineColorKey := ColorValue(color.value)], 0, |s|)
    else styled
  }

  /**
   * The range of a setter is fixed when it is called: after setting key `k` to `v`
   * and then appending `t` (which has no `k`), `k` is `v` exactly on the old positions.
   */
  lemma RangeFixedAtCallTime(s: Content, k: Key, v: Value, t: Content)
    requires forall j :: 0 <= j < |t| ==> Attr(t, j, k) == None
    ensures var r := Painted(s, map[k := v], 0, |s|) + t;
      |r| == |s| + |t| &&
      (forall i :: 0 <= i < |s| ==> Attr(r, i, k) == Some(v)) &&
      (forall i :: |s| <= i < |r| ==> Attr(r, i, k) == None)
  {
    var r := Painted(s, map[k := v], 0, |s|) + t;
    forall i | |s| <= i < |r|
      ensures Attr(r, i, k) == None
    {
      assert r[i] == t[i - |s|];
      assert Attr(t, i - |s|, k) == None;
    }
  }

  /** Appending keeps every old position and shifts the other content by the old length. */
  lemma AppendShifts(s: Content, t: Content)
    ensures |s + t| == |s| + |t| && Text(s + t) == Text(s) + Text(t)
    ensures forall i, k :: 0 <= i < |s| ==> Attr(s + t, i, k) == Attr(s, i, k)
    ensures forall j, k :: 0 <= j < |t| ==> Attr(s + t, |s| + j, k) == Attr(t, j, k)
  {
    TextAppend(s, t);
  }

  /** The Swift struct: a value holding a reference to its buffer. */
  datatype AttributedString = AttributedString(nsAttributedString: MutableAttributedString)
  {
    /** `init(string:)`: a new buffer with the characters of `s` and no attributes. */
    static method FromString(s: string := "") returns (r: AttributedString)
      ensures fresh(r.nsAttributedString)
      ensures r.nsAttributedString.units == Plain(s)
    {
      var buffer := new MutableAttributedString(s);
      r := AttributedString(buffer);
    }

    /** `init(attributedString: NSAttributedString)`: a new buffer holding a copy. */
    static method FromNSAttributedString(source: MutableAttributedString) returns (r: AttributedString)
      ensures fresh(r.nsAttributedString)
      ensures r.nsAttributedString.units == source.units
    {
      var buffer := new MutableAttributedString.Copy(source);
      r := AttributedString(buffer);
    }

    /** `init(attributedString: Attributed)`: takes over the other value's buffer reference. */
    static function Sharing(other: AttributedString): (r: AttributedString)
      ensures r.nsAttributedString == other.nsAttributedString
    {
      AttributedString(other.nsAttributedString)
    }

    /**
     * `init(_ builder:)`: the builder's result when there is one (sharing its
     * buffer), a new empty buffer otherwise.
     */
    static method FromBuilder(built: Option<AttributedString>) returns (r: AttributedString)
      ensures built.Some? ==> r.nsAttributedString == built.value.nsAttributedString
      ensures built.None? ==> fresh(r.nsAttributedString) && r.nsAttributedString.units == []
    {
      if built.Some? {
        r := Sharing(built.value);
      } else {
        r := FromString();
      }
    }

    /**
     * `appending(_:)` as written: the "sum" shares this value's buffer, so the
     * receiver's own buffer is lengthened and the result designates it.
     */
    method Appending(other: AttributedString) returns (r: AttributedString)
      modifies nsAttributedString
      ensures r.nsAttributedString == nsAttributedString
      ensures nsAttributedString.units
        == old(nsAttributedString.units) + old(other.nsAttributedString.units)
    {
      var sum := Sharing(this);
      r := sum.Append(other);
    }

    /**
     * `appending(_:)` as its name intends: the sum is a new buffer holding a copy of
     * this content followed by the other's; neither operand's buffer changes.
     */
    method AppendingCopy(other: AttributedString) returns (r: AttributedString)
      ensures fresh(r.nsAttributedString)
      ensures r.nsAttributedString.units == nsAttributedString.units + other.nsAttributedString.units
    {
      var sum := FromNSAttributedString(nsAttributedString);
      r := sum.Append(other);
    }

    /** `append(_:)`: the other value's content goes at the end of this buffer. */
    method Append(other: AttributedString) returns (r: AttributedString)
      modifies nsAttributedString
      ensures r == this
      ensures nsAttributedString.units
        == old(nsAttributedString.units) + old(other.nsAttributedString.units)
    {
      nsAttributedString.Append(other.nsAttributedString);
      r := this;
    }

    /** The private `append(_: NSAttributedString)`. */
    method AppendNSAttributedString(other: MutableAttributedString) returns (r: AttributedString)
      modifies nsAttributedString
      ensures r == this
      ensures nsAttributedString.units == old(nsAttributedString.units) + old(other.units)
    {
      nsAttributedString.Append(other);
      r := this;
    }

    /** `space()`: one unattributed space at the end. */
    method Space() returns (r: AttributedString)
      modifies nsAttributedString
      ensures r == this
      ensures nsAttributedString.units == old(nsAttributedString.units) + Plain(" ")
    {
      var space := new MutableAttributedString(" ");
      r := AppendNSAttributedString(space);
    }

    /** `newline()`: one unattributed line feed at the end. */
    method Newline() returns (r: AttributedString)
      modifies nsAttributedString
      ensures r == this
      ensures nsAttributedString.units == old(nsAttributedString.units) + Plain("\n")
    {
      var newline := new MutableAttributedString("\n");
      r := AppendNSAttributedString(newline);
    }

    /** The private `range`: the whole current content. */
    function Range(): (range: NSRange)
      reads nsAttributedString
      ensures range.location == 0 && range.location + range.length == |nsAttributedString.units|
    {
      NSRange(0, nsAttributedString.Length())
    }

    /** The private `paragraphStyle`: the style stored at position 0, or a default one. */
    method ParagraphStyleAtStart() returns (p: ParagraphStyle)
      requires |nsAttributedString.units| > 0
      ensures p == StyleIn(nsAttributedString.units[0].attrs)
    {
      var attrs := nsAttributedString.AttributesAt(0);
      assert attrs == nsAttributedString.units[0].attrs;
      p := StyleIn(attrs);
    }

    /** The private `apply(_:)`: the given attributes over the range of the moment. */
    method Apply(attrs: Attributes) returns (r: AttributedString)
      modifies nsAttributedString
      ensures r == this
      ensures nsAttributedString.units
        == Painted(old(nsAttributedString.units), attrs, 0, |old(nsAttributedString.units)|)
    {
      var range := Range();
      nsAttributedString.AddAttributes(attrs, range.location, range.length);
      r := this;
    }

    /** `font(_:)`. */
    method SetFont(font: Font) returns (r: AttributedString)
      modifies nsAttributedString
      ensures r == this
      ensures nsAttributedString.units == Painted(old(nsAttributedString.units),
        map[FontKey := FontValue(font)], 0, |old(nsAttributedString.units)|)
    {
      r := Apply(map[FontKey := FontValue(font)]);
    }

    /** `foregroundColor(_:)`. */
    method ForegroundColor(color: Color) returns (r: AttributedString)
      modifies nsAttributedString
      ensures r == this
      ensures nsAttributedString.units == Painted(old(nsAttributedString.units),
        map[ForegroundColorKey := ColorValue(color)], 0, |old(nsAttributedString.units)|)
    {
      r := Apply(map[ForegroundColorKey := ColorValue(color)]);
    }

    /** `kerning(_:)`. */
    method Kerning(kerning: CGFloat) returns (r: AttributedString)
      modifies nsAttributedString
      ensures r == this
      ensures nsAttributedString.units == Painted(old(nsAttributedString.units),
        map[KernKey := FloatValue(kerning)], 0, |old(nsAttributedString.units)|)
    {
      r := Apply(map[KernKey := FloatValue(kerning)]);
    }

    /** `underline(style:color:)`: the style always, the color only when one is given. */
    method Underline(style: UnderlineStyle := Single, color: Option<Color> := None)
      returns (r: AttributedString)
      modifies nsAttributedString
      ensures r == this
      ensures nsAttributedString.units == UnderlineWrite(old(nsAttributedString.units), style, color)
    {
      r := Apply(map[UnderlineStyleKey := IntValue(style.rawValue)]);
      if color.Some? {
        r := Apply(map[UnderlineColorKey := ColorValue(color.value)]);
      }
      r := this;
    }

    /** `stroke(color:width:)`: both keys in one write. */
    method Stroke(color: Color, width: CGFloat) returns (r: AttributedString)
      modifies nsAttributedString
      ensures r == this
      ensures nsAttributedString.units == Painted(old(nsAttributedString.units),
        map[StrokeColorKey := ColorValue(color), StrokeWidthKey := FloatValue(width)],
        0, |old(nsAttributedString.units)|)
    {
      r := Apply(map[StrokeColorKey := ColorValue(color), StrokeWidthKey := FloatValue(width)]);
    }

    /** `lineSpacing(_:)`; reading position 0 needs a non-empty buffer. */
    method LineSpacing(lineSpacing: CGFloat) returns (r: AttributedString)
      requires |nsAttributedString.units| > 0
      modifies nsAttributedString
      ensures r == this
      ensures nsAttributedString.units
        == ParagraphWrite(old(nsAttributedString.units), SetLineSpacing(lineSpacing))
    {
      var paragraph := ParagraphStyleAtStart();
      paragraph := paragraph.(lineSpacing := lineSpacing);
      r := Apply(map[ParagraphStyleKey := MutableParagraph(paragraph)]);
    }

    /** `lineHeightMultiple(_:)`; reading position 0 needs a non-empty buffer. */
    method LineHeightMultiple(multiple: CGFloat) returns (r: AttributedString)
      requires |nsAttributedString.units| > 0
      modifies nsAttributedString
      ensures r == this
      ensures nsAttributedString.units
        == ParagraphWrite(old(nsAttributedString.units), SetLineHeightMultiple(multiple))
    {
      var paragraph := ParagraphStyleAtStart();
      paragraph := paragraph.(lineHeightMultiple := multiple);
      r := Apply(map[ParagraphStyleKey := MutableParagraph(paragraph)]);
    }

    /** `lineBreak(_:)`; reading position 0 needs a non-empty buffer. */
    method LineBreak(mode: LineBreakMode) returns (r: AttributedString)
      requires |nsAttributedString.units| > 0
      modifies nsAttributedString
      ensures r == this
      ensures nsAttributedString.units
        == ParagraphWrite(old(nsAttributedString.units), SetLineBreak(mode))
    {
      var paragraphStyle := ParagraphStyleAtStart();
      paragraphStyle := paragraphStyle.(lineBreakMode := mode);
      r := Apply(map[ParagraphStyleKey := MutableParagraph(paragraphStyle)]);
    }

    /** `alignment(_:)`; reading position 0 needs a non-empty buffer. */
    method Alignment(alignment: TextAlignment) returns (r: AttributedString)
      requires |nsAttributedString.units| > 0
      modifies nsAttributedString
      ensures r == this
      ensures nsAttributedString.units
        == ParagraphWrite(old(nsAttributedString.units), SetAlignment(alignment))
    {
      var paragraphStyle := ParagraphStyleAtStart();
      paragraphStyle := paragraphStyle.(alignment := alignment);
      r := Apply(map[ParagraphStyleKey := MutableParagraph(paragraphStyle)]);
    }
  }

  /** The infix `+` as written: `lhs.appending(rhs)`, so `lhs`'s buffer is lengthened. */
  method Plus(lhs: AttributedString, rhs: AttributedString) returns (r: AttributedString)
    modifies lhs.nsAttributedString
    ensures r.nsAttributedString == lhs.nsAttributedString
    ensures lhs.nsAttributedString.units
      == old(lhs.nsAttributedString.units) + old(rhs.nsAttributedString.units)
  {
    r := lhs.Appending(rhs);
  }

  /** The infix `+` as intended: `lhs.appendingCopy(rhs)`, a new value, operands untouched. */
  method PlusCopy(lhs: AttributedString, rhs: AttributedString) returns (r: AttributedString)
    ensures fresh(r.nsAttributedString)
    ensures r.nsAttributedString.units == lhs.nsAttributedString.units + rhs.nsAttributedString.units
  {
    r := lhs.AppendingCopy(rhs);
  }
}

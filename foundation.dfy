/** Option, as the model's absent-value type (Swift's `?`). */
module Wrappers {
  datatype Option<+T> = None | Some(value: T)
}

/**
 * The part of Foundation/UIKit the styled-text builder rests on: attribute keys and
 * values, paragraph styles, and the mutable attributed buffer
 * (`NSMutableAttributedString`) as a sequence of code units, each carrying the map
 * from attribute key to value that applies at that position.
 */
module Foundation {
  import opened Wrappers

  /** Platform values the builder only passes through; no arithmetic is done on them. */
  type CGFloat = real
  datatype Font = Font(id: nat)
  datatype Color = Color(id: nat)

  datatype LineBreakMode =
    | ByWordWrapping | ByCharWrapping | ByClipping
    | ByTruncatingHead | ByTruncatingTail | ByTruncatingMiddle

  datatype TextAlignment = Left | Center | Right | Justified | Natural

  /** An option set; the builder stores its raw value. */
  datatype UnderlineStyle = UnderlineStyle(rawValue: int)
  const Single := UnderlineStyle(1)

  /** The four fields of a paragraph style that the builder reads and writes. */
  datatype ParagraphStyle = ParagraphStyle(
    lineSpacing: CGFloat,
    lineHeightMultiple: CGFloat,
    lineBreakMode: LineBreakMode,
    alignment: TextAlignment)

  /** A freshly created `NSMutableParagraphStyle`. */
  const DefaultParagraphStyle := ParagraphStyle(0.0, 0.0, ByWordWrapping, Natural)

  datatype Key =
    | FontKey | ForegroundColorKey | KernKey
    | UnderlineStyleKey | UnderlineColorKey
    | StrokeColorKey | StrokeWidthKey
    | ParagraphStyleKey
    | OtherKey(name: string)

  /**
   * An attribute value. A paragraph style is either mutable (what the builder
   * stores) or an immutable `NSParagraphStyle` that some other code put there.
   */
  datatype Value =
    | FontValue(font: Font)
    | ColorValue(color: Color)
    | FloatValue(x: CGFloat)
    | IntValue(n: int)
    | MutableParagraph(style: ParagraphStyle)
    | ImmutableParagraph(style: ParagraphStyle)
    | OtherValue(id: nat)

  type Attributes = map<Key, Value>

  /** One position of the buffer: a code unit and the attributes in force there. */
  datatype CodeUnit = CodeUnit(ch: char, attrs: Attributes)

  type Content = seq<CodeUnit>

  /** The value of key `k` at position `i`, if any. */
  function Attr(s: Content, i: nat, k: Key): Option<Value>
    requires i < |s|
  {
    if k in s[i].attrs then Some(s[i].attrs[k]) else None
  }

  /** The characters of a buffer, attributes dropped. */
  function Text(s: Content): string
  {
    seq(|s|, i requires 0 <= i < |s| => s[i].ch)
  }

  lemma TextAppend(a: Content, b: Content)
    ensures Text(a + b) == Text(a) + Text(b)
  {
  }

  /** The content of `NSAttributedString(string: t)`: the characters of `t`, no attributes. */
  function Plain(t: string): (s: Content)
    ensures Text(s) == t
    ensures forall i, k :: 0 <= i < |s| ==> Attr(s, i, k) == None
  {
    seq(|t|, i requires 0 <= i < |t| => CodeUnit(t[i], map[]))
  }

  /**
   * The content after `addAttributes(attrs, range: lo..<hi)`: every key of `attrs` is
   * set at every position of the range, overwriting an earlier value of that key;
   * every other key, every position outside the range and every character stay.
   */
  function Painted(s: Content, attrs: Attributes, lo: nat, hi: nat): (r: Content)
    requires lo <= hi <= |s|
    ensures |r| == |s| && Text(r) == Text(s)
    ensures forall i, k :: 0 <= i < |s| ==>
      Attr(r, i, k) == if lo <= i < hi && k in attrs then Some(attrs[k]) else Attr(s, i, k)
  {
    seq(|s|, i requires 0 <= i < |s| =>
      if lo <= i < hi then CodeUnit(s[i].ch, s[i].attrs + attrs) else s[i])
  }

  /** `NSMutableAttributedString`: a mutable buffer of attributed code units. */
  class MutableAttributedString {
    var units: Content

    /** `NSMutableAttributedString(string:)`. */
    constructor (s: string)
      ensures units == Plain(s)
    {
      units := Plain(s);
    }

    /** `NSMutableAttributedString(attributedString:)`: a new buffer holding a copy. */
    constructor Copy(source: MutableAttributedString)
      ensures units == source.units
    {
      units := source.units;
    }

    /** `length`: the number of code units. */
    function Length(): nat
      reads this
    {
      |units|
    }

    /** `append(_:)`: the other buffer's content (as it is at the call) goes at the end. */
    method Append(other: MutableAttributedString)
      modifies this
      ensures units == old(units) + old(other.units)
    {
      units := units + other.units;
    }

    /** `addAttributes(_:range:)`. */
    method AddAttributes(attrs: Attributes, location: nat, length: nat)
      requires location + length <= |units|
      modifies this
      ensures units == Painted(old(units), attrs, location, location + length)
    {
      units := Painted(units, attrs, location, location + length);
    }

    /** `attributes(at:effectiveRange:)`; raises on an index past the end. */
    method AttributesAt(location: nat) returns (attrs: Attributes)
      requires location < |units|
      ensures forall k :: k in attrs <==> Attr(units, location, k).Some?
      ensures forall k :: k in attrs ==> Attr(units, location, k) == Some(attrs[k])
    {
      attrs := units[location].attrs;
    }
  }
}

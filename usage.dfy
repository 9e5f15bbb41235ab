/** Clients of the builder: what a caller can conclude from the contracts alone. */
module Usage {
  import opened Wrappers
  import opened Foundation
  import opened AttributedText
  import opened Builder

  /**
   * `a.appending(b)` as written lengthens `a` itself: afterwards the receiver and the
   * result both read "AB".
   */
  method AppendingLengthensReceiver() returns (receiver: string, result: string)
    ensures receiver == "AB" && result == "AB"
  {
    var a := AttributedString.FromString("A");
    var b := AttributedString.FromString("B");
    var sum := a.Appending(b);
    TextAppend(Plain("A"), Plain("B"));
    receiver := Text(a.nsAttributedString.units);
    result := Text(sum.nsAttributedString.units);
  }

  /** With the copy-first `appending`, the receiver still reads "A" and the result "AB". */
  method AppendingCopyKeepsReceiver() returns (receiver: string, result: string)
    ensures receiver == "A" && result == "AB"
  {
    var a := AttributedString.FromString("A");
    var b := AttributedString.FromString("B");
    var sum := a.AppendingCopy(b);
    TextAppend(Plain("A"), Plain("B"));
    receiver := Text(a.nsAttributedString.units);
    result := Text(sum.nsAttributedString.units);
  }

  /**
   * `AttributedString(string: "AB").font(bold) + AttributedString(string: "C")`:
   * the text is "ABC" and the font covers [0, 2) only.
   */
  method FontThenPlus(bold: Font) returns (content: Content)
    ensures Text(content) == "ABC"
    ensures Attr(content, 0, FontKey) == Some(FontValue(bold))
    ensures Attr(content, 1, FontKey) == Some(FontValue(bold))
    ensures Attr(content, 2, FontKey) == None
  {
    var ab := AttributedString.FromString("AB");
    ab := ab.SetFont(bold);
    var c := AttributedString.FromString("C");
    var sum := Plus(ab, c);
    content := sum.nsAttributedString.units;
    RangeFixedAtCallTime(Plain("AB"), FontKey, FontValue(bold), Plain("C"));
    TextAppend(Painted(Plain("AB"), map[FontKey := FontValue(bold)], 0, 2), Plain("C"));
  }

  /** `underline()` on "hi": the single style over [0, 2) and no underline color. */
  method UnderlineWithoutColor() returns (content: Content)
    ensures Text(content) == "hi"
    ensures forall i :: 0 <= i < 2 ==>
      Attr(content, i, UnderlineStyleKey) == Some(IntValue(Single.rawValue)) &&
      Attr(content, i, UnderlineColorKey) == None
  {
    var hi := AttributedString.FromString("hi");
    hi := hi.Underline();
    content := hi.nsAttributedString.units;
  }

  /**
   * `(a + b) + c` and `a + (b + c)` build the same content, each from fresh copies
   * of the three buffers given.
   */
  method PlusAssociates(a: MutableAttributedString, b: MutableAttributedString, c: MutableAttributedString)
    returns (left: Content, right: Content)
    ensures left == a.units + b.units + c.units
    ensures right == left
  {
    var a1 := AttributedString.FromNSAttributedString(a);
    var b1 := AttributedString.FromNSAttributedString(b);
    var c1 := AttributedString.FromNSAttributedString(c);
    var ab := Plus(a1, b1);
    var abc := Plus(ab, c1);
    left := abc.nsAttributedString.units;

    var a2 := AttributedString.FromNSAttributedString(a);
    var b2 := AttributedString.FromNSAttributedString(b);
    var c2 := AttributedString.FromNSAttributedString(c);
    var bc := Plus(b2, c2);
    var abc2 := Plus(a2, bc);
    right := abc2.nsAttributedString.units;
  }

  /**
   * With shared buffers `+` as written is not associative: `(a + a) + c` reads "AAC",
   * while `a + (a + c)` reads "ACAC", because `a + c` lengthens `a` itself first.
   */
  method PlusSharedNotAssociative() returns (left: string, right: string)
    ensures left == "AAC" && right == "ACAC"
  {
    var a := AttributedString.FromString("A");
    var c := AttributedString.FromString("C");
    var aa := Plus(a, a);
    var aac := Plus(aa, c);
    TextAppend(Plain("A"), Plain("A"));
    TextAppend(Plain("A") + Plain("A"), Plain("C"));
    left := Text(aac.nsAttributedString.units);

    var a2 := AttributedString.FromString("A");
    var c2 := AttributedString.FromString("C");
    var ac := Plus(a2, c2);
    var acac := Plus(a2, ac);
    TextAppend(Plain("A"), Plain("C"));
    TextAppend(Plain("A") + Plain("C"), Plain("A") + Plain("C"));
    right := Text(acac.nsAttributedString.units);
  }

  /**
   * The copying `+` is associative for any operands, also when they share buffers:
   * both groupings give a, then b, then c, and no operand changes.
   */
  method PlusCopyAssociates(a: AttributedString, b: AttributedString, c: AttributedString)
    returns (left: Content, right: Content)
    ensures left == a.nsAttributedString.units + b.nsAttributedString.units + c.nsAttributedString.units
    ensures right == left
  {
    var ab := PlusCopy(a, b);
    var abc := PlusCopy(ab, c);
    left := abc.nsAttributedString.units;
    var bc := PlusCopy(b, c);
    var abc2 := PlusCopy(a, bc);
    right := abc2.nsAttributedString.units;
  }

  /**
   * Setting a font on a copy made with `init(attributedString: NSAttributedString)`
   * leaves the source as it was.
   */
  method CopyIsIndependent(source: MutableAttributedString, f: Font)
    returns (sourceAfter: Content, copyAfter: Content)
    ensures sourceAfter == source.units
    ensures copyAfter == Painted(source.units, map[FontKey := FontValue(f)], 0, |source.units|)
  {
    var copy := AttributedString.FromNSAttributedString(source);
    copy := copy.SetFont(f);
    sourceAfter := source.units;
    copyAfter := copy.nsAttributedString.units;
  }

  /** `buildBlock(a, a)` appends `a` to itself: its buffer then holds its content twice. */
  method BuildBlockSameFragmentTwice(source: MutableAttributedString) returns (content: Content)
    ensures content == source.units + source.units
  {
    var a := AttributedString.FromNSAttributedString(source);
    var built := BuildBlock([a, a]);
    assert [a, a][1..] == [a];
    FoldSelf(source.units);
    content := a.nsAttributedString.units;
  }

  const FirstLine := "Test 1: size to fit"
  const SecondLine := "Fixed Width 150, fixed Size = show all, fit size"

  /** Key `k` at position `i` of three contents laid end to end. */
  lemma AttrOfThree(x: Content, y: Content, z: Content, i: nat, k: Key)
    requires i < |x| + |y| + |z|
    ensures Attr(x + y + z, i, k) ==
      if i < |x| then Attr(x, i, k)
      else if i < |x| + |y| then Attr(y, i - |x|, k)
      else Attr(z, i - |x| - |y|, k)
  {
    if i < |x| {
      assert (x + y + z)[i] == x[i];
    } else if i < |x| + |y| {
      assert (x + y + z)[i] == y[i - |x|];
    } else {
      assert (x + y + z)[i] == z[i - |x| - |y|];
    }
  }

  /** The preview's first fragment: the first line in bold, then a plain line feed. */
  function BoldFragment(bold: Font): Content
  {
    Painted(Plain(FirstLine), map[FontKey := FontValue(bold)], 0, |FirstLine|) + Plain("\n")
  }

  /** The preview's second fragment: the second line underlined, then a plain line feed. */
  function UnderlinedFragment(): Content
  {
    UnderlineWrite(Plain(SecondLine), Single, None) + Plain("\n")
  }

  /** Bold on the first fragment's 19 characters, not on its line feed. */
  lemma BoldLine(bold: Font)
    ensures var x := BoldFragment(bold);
      |x| == 20 && Text(x) == FirstLine + "\n" &&
      (forall i :: 0 <= i < 19 ==> Attr(x, i, FontKey) == Some(FontValue(bold))) &&
      Attr(x, 19, FontKey) == None &&
      (forall i :: 0 <= i < 20 ==> Attr(x, i, UnderlineStyleKey) == None && Attr(x, i, UnderlineColorKey) == None)
  {
    var p := Painted(Plain(FirstLine), map[FontKey := FontValue(bold)], 0, 19);
    AppendShifts(p, Plain("\n"));
    assert Attr(p + Plain("\n"), 19, FontKey) == Attr(Plain("\n"), 0, FontKey);
  }

  /** The single underline on the second fragment's 48 characters, and no color. */
  lemma UnderlinedLine()
    ensures var y := UnderlinedFragment();
      |y| == 49 && Text(y) == SecondLine + "\n" &&
      (forall i :: 0 <= i < 48 ==> Attr(y, i, UnderlineStyleKey) == Some(IntValue(Single.rawValue))) &&
      (forall i :: 0 <= i < 49 ==> Attr(y, i, FontKey) == None && Attr(y, i, UnderlineColorKey) == None)
  {
    var u := UnderlineWrite(Plain(SecondLine), Single, None);
    AppendShifts(u, Plain("\n"));
    forall i | 0 <= i < 49
      ensures Attr(u + Plain("\n"), i, FontKey) == None && Attr(u + Plain("\n"), i, UnderlineColorKey) == None
    {
      if i == 48 {
        assert Attr(u + Plain("\n"), 48, FontKey) == Attr(Plain("\n"), 0, FontKey);
        assert Attr(u + Plain("\n"), 48, UnderlineColorKey) == Attr(Plain("\n"), 0, UnderlineColorKey);
      }
    }
  }

  /** The concatenation of two fragments. */
  lemma FlattenTwo(y: Content, z: Content)
    ensures Flatten([y, z]) == y + z
  {
    var us := [y, z];
    assert us[..1] == [y] && [y][..0] == [];
    assert Flatten([y]) == Flatten([]) + y;
    assert Flatten(us) == Flatten(us[..1]) + z;
  }

  /** The preview's composed content, position by position. */
  lemma PreviewLayout(bold: Font, paragraph: string, content: Content)
    requires content == BoldFragment(bold) + UnderlinedFragment() + Plain(paragraph)
    ensures Text(content) == FirstLine + "\n" + SecondLine + "\n" + paragraph &&
      (forall i :: 0 <= i < 19 ==> Attr(content, i, FontKey) == Some(FontValue(bold))) &&
      (forall i :: 19 <= i < |content| ==> Attr(content, i, FontKey) == None) &&
      (forall i :: 20 <= i < 68 ==> Attr(content, i, UnderlineStyleKey) == Some(IntValue(Single.rawValue))) &&
      (forall i :: 0 <= i < |content| ==> Attr(content, i, UnderlineColorKey) == None)
  {
    var x, y, z := BoldFragment(bold), UnderlinedFragment(), Plain(paragraph);
    BoldLine(bold);
    UnderlinedLine();
    TextAppend(x, y);
    TextAppend(x + y, z);
    forall i, k | 0 <= i < |x + y + z|
      ensures Attr(x + y + z, i, k) ==
        if i < 20 then Attr(x, i, k) else if i < 69 then Attr(y, i - 20, k) else Attr(z, i - 69, k)
    {
      AttrOfThree(x, y, z, i, k);
    }
  }

  /** The three fragments of the preview, each built by its own chain of calls. */
  method PreviewFragments(bold: Font, paragraph: string)
    returns (first: AttributedString, second: AttributedString, third: AttributedString)
    ensures fresh(first.nsAttributedString) && fresh(second.nsAttributedString) && fresh(third.nsAttributedString)
    ensures first.nsAttributedString != second.nsAttributedString
    ensures first.nsAttributedString != third.nsAttributedString
    ensures first.nsAttributedString.units == BoldFragment(bold)
    ensures second.nsAttributedString.units == UnderlinedFragment()
    ensures third.nsAttributedString.units == Plain(paragraph)
  {
    first := AttributedString.FromString(FirstLine);
    first := first.SetFont(bold);
    first := first.Newline();
    second := AttributedString.FromString(SecondLine);
    second := second.Underline();
    second := second.Newline();
    third := AttributedString.FromString(paragraph);
  }

  /**
   * The playground preview: a bold first line, an underlined second line and a plain
   * paragraph, composed with the builder.
   */
  method Preview(bold: Font, paragraph: string) returns (content: Content)
    ensures Text(content) == FirstLine + "\n" + SecondLine + "\n" + paragraph
    ensures forall i :: 0 <= i < 19 ==> Attr(content, i, FontKey) == Some(FontValue(bold))
    ensures forall i :: 19 <= i < |content| ==> Attr(content, i, FontKey) == None
    ensures forall i :: 20 <= i < 68 ==> Attr(content, i, UnderlineStyleKey) == Some(IntValue(Single.rawValue))
    ensures forall i :: 0 <= i < |content| ==> Attr(content, i, UnderlineColorKey) == None
  {
    var first, second, third := PreviewFragments(bold, paragraph);
    ghost var x := first.nsAttributedString.units;
    ghost var y := second.nsAttributedString.units;
    ghost var z := third.nsAttributedString.units;
    var fragments := [first, second, third];
    assert fragments[1..] == [second, third];
    ghost var rest := Contents(fragments[1..]);
    assert rest == [y, z];
    FlattenTwo(y, z);
    var text := Compose(fragments);
    content := text.nsAttributedString.units;
    assert content == x + y + z;
    PreviewLayout(bold, paragraph, content);
  }
}

/**
 * The declarative builder: `buildBlock` folds its fragments into the first one,
 * appending the others to the FIRST FRAGMENT'S OWN buffer, left to right.
 */
module Builder {
  import opened Wrappers
  import opened Foundation
  import opened AttributedText

  /**
   * What fragment 2..n contributes to the fold: either some other buffer, whose
   * content does not change while the fold runs, or the accumulating buffer itself,
   * which then contributes the content accumulated so far.
   */
  datatype Part = Alias | Own(units: Content)

  function Piece(acc: Content, p: Part): Content
  {
    match p
    case Alias => acc
    case Own(units) => units
  }

  /** The accumulator after appending the parts one by one. */
  function Fold(acc: Content, parts: seq<Part>): Content
    decreases |parts|
  {
    if parts == [] then acc
    else
      var prev := Fold(acc, parts[..|parts| - 1]);
      prev + Piece(prev, parts[|parts| - 1])
  }

  /** The contents concatenated in order. */
  function Flatten(us: seq<Content>): Content
    decreases |us|
  {
    if us == [] then [] else Flatten(us[..|us| - 1]) + us[|us| - 1]
  }

  /** Where fragment `j` starts inside `Flatten(us)`. */
  function Offset(us: seq<Content>, j: nat): nat
    requires j <= |us|
  {
    |Flatten(us[..j])|
  }

  /** The part each of `rest` plays in a fold into `first`, read in the current state. */
  function Snapshot(first: MutableAttributedString, rest: seq<AttributedString>): (parts: seq<Part>)
    reads set j | 0 <= j < |rest| :: rest[j].nsAttributedString
  {
    seq(|rest|, j requires 0 <= j < |rest| reads set m | 0 <= m < |rest| :: rest[m].nsAttributedString =>
      if rest[j].nsAttributedString == first then Alias else Own(rest[j].nsAttributedString.units))
  }

  /** The contents of the fragments' buffers, in the current state. */
  function Contents(fragments: seq<AttributedString>): (us: seq<Content>)
    reads set j | 0 <= j < |fragments| :: fragments[j].nsAttributedString
  {
    seq(|fragments|, j requires 0 <= j < |fragments|
      reads set m | 0 <= m < |fragments| :: fragments[m].nsAttributedString =>
      fragments[j].nsAttributedString.units)
  }

  /** Without aliasing, the fold is plain concatenation of the fragments in order. */
  lemma {:induction false} FoldWithoutAlias(acc: Content, parts: seq<Part>, us: seq<Content>)
    requires |parts| == |us|
    requires forall j :: 0 <= j < |parts| ==> parts[j] == Own(us[j])
    ensures Fold(acc, parts) == acc + Flatten(us)
    decreases |parts|
  {
    if parts != [] {
      var n := |parts|;
      FoldWithoutAlias(acc, parts[..n - 1], us[..n - 1]);
      assert Piece(Fold(acc, parts[..n - 1]), parts[n - 1]) == us[n - 1];
    }
  }

  /** Folding a fragment into itself doubles it: `buildBlock(a, a)` is `a` twice. */
  lemma FoldSelf(acc: Content)
    ensures Fold(acc, [Alias]) == acc + acc
  {
    assert [Alias][..0] == [];
  }

  /** Without aliasing, the fold's length is the accumulator's plus every fragment's. */
  lemma {:induction false} FoldLength(acc: Content, parts: seq<Part>, us: seq<Content>)
    requires |parts| == |us|
    requires forall j :: 0 <= j < |parts| ==> parts[j] == Own(us[j])
    ensures |Fold(acc, parts)| == |acc| + |Flatten(us)|
  {
    FoldWithoutAlias(acc, parts, us);
  }

  /**
   * Fragment isolation: position `k` of fragment `j` is found, character and
   * attributes, at `Offset(us, j) + k` of the concatenation.
   */
  lemma {:induction false} FlattenAt(us: seq<Content>, j: nat, k: nat)
    requires j < |us| && k < |us[j]|
    ensures Offset(us, j) + k < |Flatten(us)|
    ensures Flatten(us)[Offset(us, j) + k] == us[j][k]
    decreases |us|
  {
    var n := |us|;
    if j < n - 1 {
      FlattenAt(us[..n - 1], j, k);
      assert us[..n - 1][..j] == us[..j];
      assert us[..n - 1][j] == us[j];
    } else {
      assert us[..j] == us[..n - 1];
    }
  }

  /**
   * `AttributedStringBuilder.buildBlock`: nil for no fragments; otherwise the first
   * fragment, whose buffer now holds the fold of fragments 2..n (each read as it
   * was before the call, or the accumulated content when it is the same buffer).
   */
  method BuildBlock(fragments: seq<AttributedString>) returns (r: Option<AttributedString>)
    modifies if |fragments| == 0 then {} else {fragments[0].nsAttributedString}
    ensures |fragments| == 0 ==> r == None
    ensures |fragments| > 0 ==> r == Some(fragments[0])
    ensures |fragments| > 0 ==> (fragments[0].nsAttributedString.units
      == old(Fold(fragments[0].nsAttributedString.units, Snapshot(fragments[0].nsAttributedString, fragments[1..]))))
    ensures |fragments| > 0 && (forall j :: 1 <= j < |fragments| ==>
        fragments[j].nsAttributedString != fragments[0].nsAttributedString) ==>
      fragments[0].nsAttributedString.units
        == old(fragments[0].nsAttributedString.units) + old(Flatten(Contents(fragments[1..])))
  {
    if |fragments| == 0 {
      return None;
    }
    var result := fragments[0];
    ghost var start := result.nsAttributedString.units;
    ghost var parts := Snapshot(result.nsAttributedString, fragments[1..]);
    var i := 1;
    while i < |fragments|
      invariant 1 <= i <= |fragments|
      invariant result == fragments[0]
      invariant result.nsAttributedString.units == Fold(start, parts[..i - 1])
    {
      var current := fragments[i];
      assert parts[i - 1] == if current.nsAttributedString == result.nsAttributedString
        then Alias else Own(old(current.nsAttributedString.units));
      var _ := result.Append(current);
      assert parts[..i] == parts[..i - 1] + [parts[i - 1]];
      assert parts[..i][..i - 1] == parts[..i - 1];
      i := i + 1;
    }
    assert parts[..|fragments| - 1] == parts;
    r := Some(result);
    if forall j :: 1 <= j < |fragments| ==> fragments[j].nsAttributedString != fragments[0].nsAttributedString {
      ghost var us := old(Contents(fragments[1..]));
      FoldWithoutAlias(start, parts, us);
    }
  }

  /**
   * The builder form as the preview uses it: `AttributedString { f1; ...; fn }`,
   * i.e. `init(_ builder:)` over `buildBlock`.
   */
  method Compose(fragments: seq<AttributedString>) returns (r: AttributedString)
    modifies if |fragments| == 0 then {} else {fragments[0].nsAttributedString}
    ensures |fragments| == 0 ==> fresh(r.nsAttributedString) && r.nsAttributedString.units == []
    ensures |fragments| > 0 ==> r == fragments[0]
    ensures |fragments| > 0 ==> (r.nsAttributedString.units
      == old(Fold(fragments[0].nsAttributedString.units, Snapshot(fragments[0].nsAttributedString, fragments[1..]))))
    ensures |fragments| > 0 && (forall j :: 1 <= j < |fragments| ==>
        fragments[j].nsAttributedString != fragments[0].nsAttributedString) ==>
      r.nsAttributedString.units
        == old(fragments[0].nsAttributedString.units) + old(Flatten(Contents(fragments[1..])))
  {
    var built := BuildBlock(fragments);
    r := AttributedString.FromBuilder(built);
  }
}

# AttributedString — a Dafny model of a chainable styled-text builder

This project models the styled-text builder of the AttributedText playground: the
`AttributedString` struct, the `+` operator and the `AttributedStringBuilder.buildBlock`
fold. It proves what those operations do to the text and its attributes.

The struct holds a single field, a reference to a Foundation `NSMutableAttributedString`.
Copying the struct copies that reference, so two values can designate one buffer. Every
builder method changes that buffer in place and returns the value it was called on. The
model keeps this sharing:

- `Foundation.MutableAttributedString` is a class. Its field `units` is the buffer's
  content, a sequence of code units, each with its map from attribute key to value.
  Its methods `Append`, `AddAttributes` and `AttributesAt` model the three Foundation
  calls the builder makes.
- `AttributedText.AttributedString` is a datatype that holds such a reference: a
  struct that holds a reference, as in Swift.
- `Foundation.Painted` states what `addAttributes(_:range:)` does. Each given key is
  set at each position of the range. An earlier value of that key is overwritten.
  Other keys, positions outside the range and the characters stay as they were.
- A paragraph style is a value with the four fields the builder touches. Each
  paragraph setter reads the style stored at position 0, changes one field and writes
  the result over the whole current content. Reading a style that is not an
  `NSMutableParagraphStyle`, or finding no style, gives a fresh default style.
- `buildBlock` is a method with a loop over a sequence of fragments.
  `Builder.Snapshot` records, for each fragment after the first, whether it shares the
  first fragment's buffer (`Alias`) or holds other content (`Own`).
  `Builder.Fold` gives the result of the fold. Without sharing, the fold is plain
  concatenation (`Builder.FoldWithoutAlias`). Each fragment then keeps its characters
  and attributes at its offset (`Builder.FlattenAt`).

In two places the code does not do what its names suggest. The model follows the code.

- The public `init(attributedString: Attributed)` (AttributedString.swift:51-53) takes
  over the other value's buffer reference. It does not make a deep copy. Only the
  internal `init(attributedString: NSAttributedString)` copies.
- `appending` and `+` do not leave their receiver unchanged. See "## Findings".

The paragraph setters call `attributes(at: 0)`, so calling one on an empty string
raises. The model states that as `requires |nsAttributedString.units| > 0`.

## Model

| member | source | states |
|---|---|---|
| `Foundation.Plain` | AttributedText.playground/Sources/AttributedString.swift:43-45 | a buffer made from a string has exactly that string's characters and no attribute at any position |
| `Foundation.Painted` | AttributedText.playground/Sources/AttributedString.swift:154-158 | adding attributes over a range sets each given key at each position in the range and overwrites only those keys; other keys, other positions, the length and the characters are unchanged |
| `AttributedText.AttributedString.FromString` | AttributedText.playground/Sources/AttributedString.swift:43-45 | `init(string:)`, default `""`: a new buffer holding the string with no attributes |
| `AttributedText.AttributedString.FromNSAttributedString` | AttributedText.playground/Sources/AttributedString.swift:47-49 | `init(attributedString: NSAttributedString)`: a new buffer, not the source, holding the source's content |
| `AttributedText.AttributedString.Sharing` | AttributedText.playground/Sources/AttributedString.swift:51-53 | `init(attributedString: Attributed)`: the new value designates the same buffer as the argument |
| `AttributedText.AttributedString.FromBuilder` | AttributedText.playground/Sources/AttributedString.swift:55-61 | the builder init: a builder result designates that result's buffer; nil gives a new empty buffer |
| `AttributedText.AttributedString.Appending` | AttributedText.playground/Sources/AttributedString.swift:63-68 | `appending` as written: the result designates the receiver's own buffer, and that buffer becomes the receiver's old content followed by the argument's |
| `AttributedText.AttributedString.AppendingCopy` | AttributedText.playground/Sources/AttributedString.swift:63-68 | the corrected `appending`: the result is a new buffer holding receiver then argument; neither operand changes |
| `AttributedText.AttributedString.Append` | AttributedText.playground/Sources/AttributedString.swift:70-74 | `append` returns the receiver, whose buffer becomes its old content followed by the argument's content as it was at the call (also when both are one buffer) |
| `AttributedText.AttributedString.AppendNSAttributedString` | AttributedText.playground/Sources/AttributedString.swift:160-163 | the private append of an `NSAttributedString`: the same concatenation, the receiver returned |
| `AttributedText.AttributedString.Space` | AttributedText.playground/Sources/AttributedString.swift:76-79 | exactly one unattributed space is appended |
| `AttributedText.AttributedString.Newline` | AttributedText.playground/Sources/AttributedString.swift:81-84 | exactly one unattributed line feed is appended |
| `AttributedText.AttributedString.Range` | AttributedText.playground/Sources/AttributedString.swift:146-148 | the range starts at 0 and ends at the buffer's current length |
| `AttributedText.AttributedString.Apply` | AttributedText.playground/Sources/AttributedString.swift:154-158 | the given attributes are added over the whole content as it is at the call; the receiver is returned |
| `AttributedText.AttributedString.SetFont` | AttributedText.playground/Sources/AttributedString.swift:86-89 | `font` sets the font key over [0, current length), overwriting an earlier font, and changes nothing else |
| `AttributedText.AttributedString.ForegroundColor` | AttributedText.playground/Sources/AttributedString.swift:91-94 | `foregroundColor` sets only the foreground-color key over the whole current content |
| `AttributedText.AttributedString.Kerning` | AttributedText.playground/Sources/AttributedString.swift:96-99 | `kerning` sets only the kern key over the whole current content |
| `AttributedText.UnderlineWrite` | AttributedText.playground/Sources/AttributedString.swift:101-108 | underline always sets the style's raw value; it sets the underline color only when a color is given, and otherwise leaves an existing color untouched |
| `AttributedText.AttributedString.Underline` | AttributedText.playground/Sources/AttributedString.swift:101-108 | `underline(style: .single, color: nil)` by default; the buffer becomes `UnderlineWrite` of its old content |
| `AttributedText.AttributedString.Stroke` | AttributedText.playground/Sources/AttributedString.swift:110-116 | `stroke` sets stroke color and stroke width together in one write over the whole content |
| `AttributedText.StyleIn` | AttributedText.playground/Sources/AttributedString.swift:150-152 | the style read from an attribute map is the stored mutable paragraph style if there is one, and the default style otherwise |
| `AttributedText.AttributedString.ParagraphStyleAtStart` | AttributedText.playground/Sources/AttributedString.swift:150-152 | on a non-empty buffer, the style read is the one `StyleIn` finds at position 0 |
| `AttributedText.WithField` | AttributedText.playground/Sources/AttributedString.swift:118-144 | a paragraph setter changes exactly its own field of the style and keeps the other three |
| `AttributedText.AttributedString.LineSpacing` | AttributedText.playground/Sources/AttributedString.swift:118-123 | on a non-empty buffer, the style at position 0 with its line spacing changed is written over the whole content |
| `AttributedText.AttributedString.LineHeightMultiple` | AttributedText.playground/Sources/AttributedString.swift:125-130 | the same read-modify-write, for the line-height multiple |
| `AttributedText.AttributedString.LineBreak` | AttributedText.playground/Sources/AttributedString.swift:132-137 | the same read-modify-write, for the line-break mode |
| `AttributedText.AttributedString.Alignment` | AttributedText.playground/Sources/AttributedString.swift:139-144 | the same read-modify-write, for the alignment |
| `AttributedText.ParagraphWritesAccumulate` | AttributedText.playground/Sources/AttributedString.swift:118-152 | after any non-empty sequence of paragraph setters, every position carries one style: the style first found at position 0 with every field set in order; text and all other keys are unchanged |
| `AttributedText.LineSpacingThenAlignment` | AttributedText.playground/Sources/AttributedString.swift:118-144 | `lineSpacing(a)` then `alignment(b)` leaves both settings, and the other two fields from position 0, in the style at every position |
| `AttributedText.RangeFixedAtCallTime` | AttributedText.playground/Sources/AttributedString.swift:146-158 | the range is taken at call time: text appended after setting a key does not get it, and the old positions keep it |
| `AttributedText.AppendShifts` | AttributedText.playground/Sources/AttributedString.swift:70-74 | appending keeps every old position's character and attributes; the appended content's attributes reappear shifted by the old length |
| `AttributedText.Plus` | AttributedText.playground/Sources/AttributedString.swift:27-29 | `+` as written: the result designates the left operand's buffer, which is lengthened by the right operand's content |
| `AttributedText.PlusCopy` | AttributedText.playground/Sources/AttributedString.swift:27-29 | the corrected `+`: a new buffer holding left then right; neither operand changes |
| `Builder.BuildBlock` | AttributedText.playground/Sources/AttributedString.swift:33-37 | no fragments give nil; otherwise the first fragment is returned and its buffer holds the left-to-right fold of the others; without sharing that is the first content followed by the others' contents in order |
| `Builder.Compose` | AttributedText.playground/Sources/AttributedString.swift:55-61 | the builder init over `buildBlock`: no fragments give a new empty buffer; otherwise the first fragment, carrying the fold |
| `Builder.FoldWithoutAlias` | AttributedText.playground/Sources/AttributedString.swift:33-37 | when no later fragment shares the accumulating buffer, the fold is the accumulator followed by the fragments concatenated in order |
| `Builder.FoldLength` | AttributedText.playground/Sources/AttributedString.swift:33-37 | without sharing, the fold's length is the sum of all fragments' lengths |
| `Builder.FoldSelf` | AttributedText.playground/Sources/AttributedString.swift:33-37 | folding the accumulating buffer into itself doubles its content |
| `Builder.FlattenAt` | AttributedText.playground/Sources/AttributedString.swift:33-37 | each fragment's characters and attributes appear unchanged at that fragment's offset in the concatenation, so no attribute leaks to a neighbour |
| `Usage.AppendingLengthensReceiver` | AttributedText.playground/Sources/AttributedString.swift:63-68 | as written, `"A".appending("B")` leaves the receiver reading "AB" |
| `Usage.AppendingCopyKeepsReceiver` | AttributedText.playground/Sources/AttributedString.swift:63-68 | with the corrected `appending`, the receiver still reads "A" and the result "AB" |
| `Usage.FontThenPlus` | AttributedText.playground/Sources/AttributedString.swift:27-29 | `"AB".font(bold) + "C"` reads "ABC", with the font on positions 0 and 1 and not on 2 |
| `Usage.UnderlineWithoutColor` | AttributedText.playground/Sources/AttributedString.swift:101-108 | the default `underline()` on "hi" sets the single style on both positions and no underline color |
| `Usage.PlusAssociates` | AttributedText.playground/Sources/AttributedString.swift:27-29 | `(a + b) + c` and `a + (b + c)`, built from fresh copies in separate buffers, hold the same content: a, then b, then c |
| `Usage.PlusSharedNotAssociative` | AttributedText.playground/Sources/AttributedString.swift:27-29 | with a shared buffer, `+` as written is not associative: `(a + a) + c` reads "AAC" while `a + (a + c)` reads "ACAC" |
| `Usage.PlusCopyAssociates` | AttributedText.playground/Sources/AttributedString.swift:27-29 | the copying `+` is associative for any operands, shared buffers included: both groupings give a, then b, then c |
| `Usage.CopyIsIndependent` | AttributedText.playground/Sources/AttributedString.swift:47-49 | setting a font on a copy leaves the source as it was |
| `Usage.BuildBlockSameFragmentTwice` | AttributedText.playground/Sources/AttributedString.swift:33-37 | `buildBlock(a, a)` leaves `a`'s buffer holding its content twice |
| `Usage.Preview` | AttributedText.playground/Contents.swift:72-85 | the preview's composed text is the two lines and the paragraph; bold covers exactly the first line's 19 characters; the single underline covers the second line; no underline color anywhere |

## Left out

- Contents.swift, TextView.swift and AttributedTextModel.swift are not part of this model. They hold view glue, UIKit configuration and measured-size state, with no builder logic. The preview in Contents.swift:72-85 appears only as the client `Usage.Preview`; its long literal paragraph is a parameter.
- The `Attributed` protocol is not modelled separately. It has one conformer, so its operations are the datatype's members, and `Self` is `AttributedString`.
- The `@_functionBuilder` syntax is not modelled: `BuildBlock` and `Compose` take the fragments as a sequence.
- Fonts, colors and `CGFloat` values are opaque. No arithmetic is done on them.
- Only four fields of a paragraph style are modelled: line spacing, line-height multiple, line-break mode and alignment. The other fields of `NSMutableParagraphStyle` are never touched by the builder.
- A paragraph style is modelled as a value. In the code, a paragraph setter changes the `NSMutableParagraphStyle` object it reads at position 0 in place, then writes it back over the whole buffer, so that buffer ends in the state the model gives. Foundation keeps attribute values by reference when it copies or appends, so other buffers can hold the same style object: a copy made by `init(attributedString: NSAttributedString)` (and so the results of `AppendingCopy` and `PlusCopy`), the source such a copy was made from, a buffer that took the style by appending this one, and a buffer this one took its style from by appending. Those buffers also see the change, and the model does not capture that sharing. The `modifies nsAttributedString` frame of `LineSpacing`, `LineHeightMultiple`, `LineBreak` and `Alignment` therefore promises more about those other buffers than the program delivers.
- Attributes are kept per code unit. Foundation's coalescing of equal attributes into runs and its effective ranges are not modelled. `length` counts the modelled code units, not UTF-16 units or grapheme clusters.
- Raised Objective-C exceptions are not modelled as values. The paragraph setters' read of position 0 on an empty buffer appears as a precondition. The range the builder passes to `addAttributes` is always in bounds.

## Findings

| source | as written | input that shows it | evidently intended | confidence | as-written member | corrected member |
|---|---|---|---|---|---|---|
| AttributedText.playground/Sources/AttributedString.swift:63-68 | `appending` builds its sum with `init(attributedString: Attributed)` (lines 51-53), which shares the receiver's buffer, then appends into it; `+` (lines 27-29) calls it | `let a = AttributedString(string: "A"); _ = a.appending(AttributedString(string: "B"))` leaves `a` reading "AB"; `a + b` does the same | the `-ing` counterpart of the mutating `append` returns a new value and leaves both operands unchanged, for example by copying first with `init(attributedString: NSAttributedString)` | not executed; high that the code mutates, medium that this was unintended | `AttributedText.AttributedString.Appending` with `Usage.AppendingLengthensReceiver` | `AttributedText.AttributedString.AppendingCopy` with `Usage.AppendingCopyKeepsReceiver` |

The as-written `Appending` and `Plus` stay in the model because they are what the source
does. `AppendingCopy` and `PlusCopy` give the corrected behaviour. On separate buffers
`+` builds the same content either way it is grouped (`Usage.PlusAssociates`). On a
shared buffer it does not (`Usage.PlusSharedNotAssociative`). The copying `+` is
associative for any operands (`Usage.PlusCopyAssociates`).

/** escapeXml, against an independent decoder of XML character data (sections 2.2, 2.4, 4.1 and 4.6 of XML 1.0). */
module XmlText {
  import opened Wrappers
  import opened Bytes

  const AMP := 0x26
  const SEMICOLON := 0x3B

  // ---- What the code does -------------------------------------------------------------------

  /** The control characters that XML 1.0 does not allow. */
  predicate Illegal(c: Byte) {
    c < 0x20 && c != 0x09 && c != 0x0A && c != 0x0D
  }

  const AMP_REF: Bytes := [0x26, 0x61, 0x6D, 0x70, 0x3B]
  const LT_REF: Bytes := [0x26, 0x6C, 0x74, 0x3B]
  const GT_REF: Bytes := [0x26, 0x67, 0x74, 0x3B]
  const QUOT_REF: Bytes := [0x26, 0x71, 0x75, 0x6F, 0x74, 0x3B]
  const APOS_REF: Bytes := [0x26, 0x61, 0x70, 0x6F, 0x73, 0x3B]
  const COPY_REF: Bytes := [0x26, 0x23, 0x31, 0x36, 0x39, 0x3B]
  const REG_REF: Bytes := [0x26, 0x23, 0x31, 0x37, 0x34, 0x3B]
  const EURO_REF: Bytes := [0x26, 0x23, 0x38, 0x33, 0x36, 0x34, 0x3B]

  const COPY: Bytes := [0xC2, 0xA9]
  const REG: Bytes := [0xC2, 0xAE]
  const EURO: Bytes := [0xE2, 0x82, 0xAC]

  /** How many bytes one turn of the loop reads. */
  function Width(s: Bytes): (n: nat)
    requires s != []
    ensures 1 <= n <= |s|
  {
    if COPY <= s || REG <= s then 2 else if EURO <= s then 3 else 1
  }

  /** What one turn of the loop writes. */
  function Piece(s: Bytes): Bytes
    requires s != []
  {
    if Illegal(s[0]) then []
    else if s[0] == 0x26 then AMP_REF
    else if s[0] == 0x3C then LT_REF
    else if s[0] == 0x3E then GT_REF
    else if s[0] == 0x22 then QUOT_REF
    else if s[0] == 0x27 then APOS_REF
    else if COPY <= s then COPY_REF
    else if REG <= s then REG_REF
    else if EURO <= s then EURO_REF
    else [s[0]]
  }

  function Escaped(s: Bytes): Bytes
    decreases |s|
  {
    if s == [] then [] else Piece(s) + Escaped(s[Width(s)..])
  }

  /** The text that a document can carry: the input without the illegal control characters. */
  function Strip(s: Bytes): Bytes {
    if s == [] then [] else (if Illegal(s[0]) then [] else [s[0]]) + Strip(s[1..])
  }

  ghost predicate Remains(s: Bytes, i: nat, out: Bytes, whole: Bytes) {
    i <= |s| && out + Escaped(s[i..]) == whole
  }

  lemma Turn(s: Bytes, i: nat, out: Bytes, whole: Bytes)
    requires i < |s| && Remains(s, i, out, whole)
    ensures Remains(s, i + Width(s[i..]), out + Piece(s[i..]), whole)
  {
    var n := Width(s[i..]);
    assert s[i..][n..] == s[i + n..];
    assert out + (Piece(s[i..]) + Escaped(s[i + n..])) == (out + Piece(s[i..])) + Escaped(s[i + n..]);
  }

  method EscapeXml(value: Bytes) returns (out: Bytes)
    ensures out == Escaped(value)
  {
    out := [];
    assert value[0..] == value;
    var i := 0;
    while i < |value|
      invariant Remains(value, i, out, Escaped(value))
      decreases |value| - i
    {
      Turn(value, i, out, Escaped(value));
      var piece, width := EscapeAt(value, i);
      out, i := out + piece, i + width;
    }
  }

  method EscapeAt(value: Bytes, i: nat) returns (piece: Bytes, width: nat)
    requires i < |value|
    ensures piece == Piece(value[i..]) && width == Width(value[i..])
  {
    var c := value[i];
    ghost var s := value[i..];
    width := 1;
    if c < 0x20 && c != 0x09 && c != 0x0A && c != 0x0D {
      piece := [];
    } else if c == 0x26 {
      piece := AMP_REF;
    } else if c == 0x3C {
      piece := LT_REF;
    } else if c == 0x3E {
      piece := GT_REF;
    } else if c == 0x22 {
      piece := QUOT_REF;
    } else if c == 0x27 {
      piece := APOS_REF;
    } else if c == 0xC2 && i + 1 < |value| && value[i + 1] == 0xA9 {
      assert s[..2] == COPY;
      piece, width := COPY_REF, 2;
    } else if c == 0xC2 && i + 1 < |value| && value[i + 1] == 0xAE {
      assert s[..2] == REG;
      piece, width := REG_REF, 2;
    } else if c == 0xE2 && i + 2 < |value| && value[i + 1] == 0x82 && value[i + 2] == 0xAC {
      assert s[..3] == EURO;
      piece, width := EURO_REF, 3;
    } else {
      piece := [c];
    }
  }

  // ---- What a reader of XML does ------------------------------------------------------------

  function Digit(c: Byte): Option<nat> {
    if 0x30 <= c <= 0x39 then Some(c - 0x30) else None
  }

  /** The code point of a decimal character reference. */
  function Decimal(digits: Bytes): Option<nat>
    decreases |digits|
  {
    if digits == [] then Some(0)
    else
      var n := |digits| - 1;
      var high, low := Decimal(digits[..n]), Digit(digits[n]);
      if high.Some? && low.Some? then Some(10 * high.value + low.value) else None
  }

  /** UTF-8, section 3 of RFC 3629. */
  function Encode(cp: nat): Option<Bytes> {
    if cp < 0x80 then Some([cp])
    else if cp < 0x800 then Some([0xC0 + cp / 64, 0x80 + cp % 64])
    else if cp < 0x10000 then Some([0xE0 + cp / 4096, 0x80 + cp / 64 % 64, 0x80 + cp % 64])
    else if cp < 0x110000 then Some([0xF0 + cp / 262144, 0x80 + cp / 4096 % 64, 0x80 + cp / 64 % 64, 0x80 + cp % 64])
    else None
  }

  /** The replacement text of the reference with this name. */
  function Resolve(name: Bytes): Option<Bytes> {
    if name == [0x61, 0x6D, 0x70] then Some([0x26])
    else if name == [0x6C, 0x74] then Some([0x3C])
    else if name == [0x67, 0x74] then Some([0x3E])
    else if name == [0x71, 0x75, 0x6F, 0x74] then Some([0x22])
    else if name == [0x61, 0x70, 0x6F, 0x73] then Some([0x27])
    else if |name| > 1 && name[0] == 0x23 then
      var cp := Decimal(name[1..]);
      if cp.Some? then Encode(cp.value) else None
    else None
  }

  /** Index of the first semicolon, or the length. */
  function Semicolon(s: Bytes): (n: nat)
    ensures n <= |s|
  {
    if s == [] || s[0] == SEMICOLON then 0 else 1 + Semicolon(s[1..])
  }

  /** The text of well-formed character data; `None` for a raw '<' or a '&' that starts no reference. */
  function Decoded(s: Bytes): Option<Bytes>
    decreases |s|
  {
    if s == [] then Some([])
    else if s[0] == 0x3C then None
    else if s[0] == AMP then
      var end := Semicolon(s);
      if end == |s| then None
      else
        var text, rest := Resolve(s[1..end]), Decoded(s[end + 1..]);
        if text.Some? && rest.Some? then Some(text.value + rest.value) else None
    else
      var rest := Decoded(s[1..]);
      if rest.Some? then Some([s[0]] + rest.value) else None
  }

  // ---- The round trip -----------------------------------------------------------------------

  lemma {:induction false} SemicolonAt(s: Bytes, n: nat)
    requires n < |s| && s[n] == SEMICOLON && forall k :: 0 <= k < n ==> s[k] != SEMICOLON
    ensures Semicolon(s) == n
    decreases n
  {
    if n > 0 {
      SemicolonAt(s[1..], n - 1);
    }
  }

  lemma DecodeReference(ref: Bytes, name: Bytes, text: Bytes, rest: Bytes)
    requires ref == [AMP] + name + [SEMICOLON] && SEMICOLON !in name
    requires Resolve(name) == Some(text) && Decoded(rest).Some?
    ensures Decoded(ref + rest) == Some(text + Decoded(rest).value)
  {
    var s := ref + rest;
    var end := |name| + 1;
    assert forall k :: 0 <= k < end ==> s[k] == ref[k] && (k > 0 ==> ref[k] == name[k - 1]);
    SemicolonAt(s, end);
    assert s[1..end] == name;
    assert s[end + 1..] == rest;
  }

  lemma DecimalSnoc(digits: Bytes, d: Byte, high: nat)
    requires Decimal(digits) == Some(high) && 0x30 <= d <= 0x39
    ensures Decimal(digits + [d]) == Some(10 * high + (d - 0x30))
  {
    assert (digits + [d])[..|digits|] == digits;
  }

  lemma CopyReference()
    ensures Resolve([0x23, 0x31, 0x36, 0x39]) == Some(COPY)
  {
    assert [0x23, 0x31, 0x36, 0x39][1..] == [0x31, 0x36, 0x39];
    DecimalSnoc([], 0x31, 0);
    assert [] + [0x31] == [0x31];
    DecimalSnoc([0x31], 0x36, 1);
    assert [0x31] + [0x36] == [0x31, 0x36];
    DecimalSnoc([0x31, 0x36], 0x39, 16);
    assert [0x31, 0x36] + [0x39] == [0x31, 0x36, 0x39];
  }

  lemma RegisteredReference()
    ensures Resolve([0x23, 0x31, 0x37, 0x34]) == Some(REG)
  {
    assert [0x23, 0x31, 0x37, 0x34][1..] == [0x31, 0x37, 0x34];
    DecimalSnoc([], 0x31, 0);
    assert [] + [0x31] == [0x31];
    DecimalSnoc([0x31], 0x37, 1);
    assert [0x31] + [0x37] == [0x31, 0x37];
    DecimalSnoc([0x31, 0x37], 0x34, 17);
    assert [0x31, 0x37] + [0x34] == [0x31, 0x37, 0x34];
  }

  lemma EuroReference()
    ensures Resolve([0x23, 0x38, 0x33, 0x36, 0x34]) == Some(EURO)
  {
    assert [0x23, 0x38, 0x33, 0x36, 0x34][1..] == [0x38, 0x33, 0x36, 0x34];
    DecimalSnoc([], 0x38, 0);
    assert [] + [0x38] == [0x38];
    DecimalSnoc([0x38], 0x33, 8);
    assert [0x38] + [0x33] == [0x38, 0x33];
    DecimalSnoc([0x38, 0x33], 0x36, 83);
    assert [0x38, 0x33] + [0x36] == [0x38, 0x33, 0x36];
    DecimalSnoc([0x38, 0x33, 0x36], 0x34, 836);
    assert [0x38, 0x33, 0x36] + [0x34] == [0x38, 0x33, 0x36, 0x34];
  }

  /** The text that one turn stands for. */
  function Kept(s: Bytes): Bytes
    requires s != []
  {
    if Illegal(s[0]) then [] else s[..Width(s)]
  }

  /** A leading byte of no special sequence stands alone. */
  lemma Alone(s: Bytes)
    requires s != [] && s[0] != 0xC2 && s[0] != 0xE2
    ensures Width(s) == 1 && s[..1] == [s[0]]
    ensures !(COPY <= s) && !(REG <= s) && !(EURO <= s)
  {
  }

  lemma DecodeNamed(s: Bytes, rest: Bytes)
    requires s != [] && Decoded(rest).Some? && (Markup(s[0]) || s[0] == AMP)
    ensures Decoded(Piece(s) + rest) == Some([s[0]] + Decoded(rest).value)
  {
    hide Decoded;
    if s[0] == 0x26 {
      DecodeReference(Piece(s), [0x61, 0x6D, 0x70], [0x26], rest);
    } else if s[0] == 0x3C {
      DecodeReference(Piece(s), [0x6C, 0x74], [0x3C], rest);
    } else if s[0] == 0x3E {
      DecodeReference(Piece(s), [0x67, 0x74], [0x3E], rest);
    } else if s[0] == 0x22 {
      DecodeReference(Piece(s), [0x71, 0x75, 0x6F, 0x74], [0x22], rest);
    } else {
      DecodeReference(Piece(s), [0x61, 0x70, 0x6F, 0x73], [0x27], rest);
    }
  }

  lemma NumberedPiece(s: Bytes)
    requires s != []
    ensures COPY <= s ==> Piece(s) == COPY_REF && s[..Width(s)] == COPY
    ensures REG <= s ==> Piece(s) == REG_REF && s[..Width(s)] == REG
    ensures EURO <= s ==> Piece(s) == EURO_REF && s[..Width(s)] == EURO
  {
    assert COPY <= s ==> s[0] == COPY[0] && s[1] == COPY[1];
    assert REG <= s ==> s[0] == REG[0] && s[1] == REG[1];
    assert EURO <= s ==> s[0] == EURO[0];
  }

  lemma DecodeNumbered(s: Bytes, rest: Bytes)
    requires s != [] && Decoded(rest).Some? && (COPY <= s || REG <= s || EURO <= s)
    ensures Decoded(Piece(s) + rest) == Some(s[..Width(s)] + Decoded(rest).value)
  {
    hide Decoded, Resolve, Piece;
    NumberedPiece(s);
    if COPY <= s {
      CopyReference();
      DecodeReference(COPY_REF, [0x23, 0x31, 0x36, 0x39], COPY, rest);
    } else if REG <= s {
      RegisteredReference();
      DecodeReference(REG_REF, [0x23, 0x31, 0x37, 0x34], REG, rest);
    } else {
      EuroReference();
      DecodeReference(EURO_REF, [0x23, 0x38, 0x33, 0x36, 0x34], EURO, rest);
    }
  }

  lemma DecodePiece(s: Bytes, rest: Bytes)
    requires s != [] && Decoded(rest).Some?
    ensures Decoded(Piece(s) + rest) == Some(Kept(s) + Decoded(rest).value)
  {
    if Illegal(s[0]) {
      assert Piece(s) + rest == rest && Kept(s) + Decoded(rest).value == Decoded(rest).value;
    } else if Markup(s[0]) || s[0] == AMP {
      DecodeNamed(s, rest);
      Alone(s);
    } else if COPY <= s || REG <= s || EURO <= s {
      DecodeNumbered(s, rest);
    } else {
      assert ([s[0]] + rest)[1..] == rest;
      assert s[..1] == [s[0]];
    }
  }

  lemma {:induction false} StripPlain(p: Bytes, rest: Bytes)
    requires forall k :: 0 <= k < |p| ==> !Illegal(p[k])
    ensures Strip(p + rest) == p + Strip(rest)
    decreases |p|
  {
    if p == [] {
      assert p + rest == rest;
    } else {
      StripPlain(p[1..], rest);
      assert (p + rest)[1..] == p[1..] + rest;
      assert [p[0]] + p[1..] == p;
    }
  }

  lemma StripTurn(s: Bytes)
    requires s != []
    ensures Strip(s) == Kept(s) + Strip(s[Width(s)..])
  {
    if Illegal(s[0]) {
      Alone(s);
    } else {
      var p := s[..Width(s)];
      assert s == p + s[Width(s)..];
      assert forall k :: 0 <= k < |p| ==> !Illegal(p[k]) by {
        assert COPY <= s ==> s[0] == COPY[0] && s[1] == COPY[1];
        assert REG <= s ==> s[0] == REG[0] && s[1] == REG[1];
        assert EURO <= s ==> s[0] == EURO[0] && s[1] == EURO[1] && s[2] == EURO[2];
      }
      StripPlain(p, s[Width(s)..]);
    }
  }

  /** Reading the escaped text gives the input without its illegal control characters, for every byte string. */
  lemma {:induction false} EscapingRoundTrips(s: Bytes)
    ensures Decoded(Escaped(s)) == Some(Strip(s))
    decreases |s|
  {
    if s != [] {
      EscapingRoundTrips(s[Width(s)..]);
      DecodePiece(s, Escaped(s[Width(s)..]));
      StripTurn(s);
    }
  }

  lemma {:induction false} StripConcat(s: Bytes, t: Bytes)
    ensures Strip(s + t) == Strip(s) + Strip(t)
    decreases |s|
  {
    hide Illegal;
    if s == [] {
      assert s + t == t;
    } else {
      StripConcat(s[1..], t);
      assert (s + t)[1..] == s[1..] + t;
    }
  }

  lemma StripOne(c: Byte)
    ensures Strip([c]) == if c >= 0x20 || c in {0x09, 0x0A, 0x0D} then [c] else []
  {
    assert [c][1..] == [];
  }

  /** What is taken out: the bytes below 0x20 that are no tab, line feed or carriage return, each on its own. */
  lemma StripIsExact(s: Bytes, c: Byte, t: Bytes)
    ensures Strip([]) == []
    ensures Strip(s + [c] + t) == Strip(s) + (if c >= 0x20 || c in {0x09, 0x0A, 0x0D} then [c] else []) + Strip(t)
  {
    StripConcat(s + [c], t);
    StripConcat(s, [c]);
    StripOne(c);
  }

  // ---- What the output looks like -----------------------------------------------------------

  predicate IsReference(ref: Bytes) {
    || ref == AMP_REF || ref == LT_REF || ref == GT_REF || ref == QUOT_REF || ref == APOS_REF
    || ref == COPY_REF || ref == REG_REF || ref == EURO_REF
  }

  predicate StartsReference(s: Bytes) {
    || AMP_REF <= s || LT_REF <= s || GT_REF <= s || QUOT_REF <= s || APOS_REF <= s
    || COPY_REF <= s || REG_REF <= s || EURO_REF <= s
  }

  predicate Markup(c: Byte) {
    c == 0x3C || c == 0x3E || c == 0x22 || c == 0x27
  }

  lemma PieceIsSafe(s: Bytes)
    requires s != []
    ensures forall i :: 0 <= i < |Piece(s)| ==> !Markup(Piece(s)[i]) && !Illegal(Piece(s)[i])
    ensures forall i :: 0 <= i < |Piece(s)| && Piece(s)[i] == AMP ==> i == 0 && IsReference(Piece(s))
  {
  }

  /** No raw markup, no illegal control, and every '&' starts one of the eight references. */
  lemma {:induction false} OutputIsSafe(s: Bytes, i: nat)
    requires i < |Escaped(s)|
    ensures Escaped(s)[i] !in {0x3C, 0x3E, 0x22, 0x27}
    ensures Escaped(s)[i] >= 0x20 || Escaped(s)[i] in {0x09, 0x0A, 0x0D}
    ensures Escaped(s)[i] == AMP ==> StartsReference(Escaped(s)[i..])
    decreases |s|
  {
    PieceIsSafe(s);
    var p, rest := Piece(s), Escaped(s[Width(s)..]);
    if i < |p| {
      assert i == 0 ==> (p + rest)[i..] == p + rest;
    } else {
      OutputIsSafe(s[Width(s)..], i - |p|);
      assert (p + rest)[i..] == rest[i - |p|..];
    }
  }

  predicate Symbol(s: Bytes) {
    || (|s| >= 2 && s[0] == 0xC2 && (s[1] == 0xA9 || s[1] == 0xAE))
    || (|s| >= 3 && s[0] == 0xE2 && s[1] == 0x82 && s[2] == 0xAC)
  }

  predicate NoControls(s: Bytes) {
    forall k :: 0 <= k < |s| ==> s[k] >= 0x20 || s[k] in {0x09, 0x0A, 0x0D}
  }

  lemma SymbolIsReplaced(s: Bytes)
    requires Symbol(s)
    ensures Piece(s) != [] && Piece(s)[0] == AMP
  {
    assert s[..2] == [s[0], s[1]];
    assert |s| >= 3 ==> s[..3] == [s[0], s[1], s[2]];
  }

  lemma RawPiece(s: Bytes)
    requires s != [] && (s[0] >= 0x20 || s[0] in {0x09, 0x0A, 0x0D})
    ensures Piece(s) != [] && (Piece(s)[0] == AMP || (Piece(s) == [s[0]] && Width(s) == 1))
  {
  }

  /** The first byte of the text is written as it is, or there is a reference instead. */
  lemma FirstByte(s: Bytes)
    requires s != [] && NoControls(s)
    ensures Escaped(s) != [] && (Escaped(s)[0] == AMP || (Escaped(s)[0] == s[0] && !Symbol(s)))
    ensures Escaped(s)[0] != AMP ==> Escaped(s) == [s[0]] + Escaped(s[1..])
  {
    hide Piece, Width, Symbol;
    RawPiece(s);
    if Symbol(s) {
      SymbolIsReplaced(s);
    }
  }

  lemma HeadIsNoSymbol(s: Bytes)
    requires s != [] && NoControls(s)
    ensures !Symbol(Escaped(s))
  {
    hide Escaped;
    FirstByte(s);
    if Escaped(s)[0] != AMP && |Escaped(s)| > 1 {
      SecondByte(s);
    }
  }

  lemma SecondByte(s: Bytes)
    requires s != [] && NoControls(s) && |Escaped(s)| > 1 && Escaped(s)[0] != AMP
    ensures !Symbol(Escaped(s))
  {
    hide Escaped;
    FirstByte(s);
    var rest := s[1..];
    assert Escaped(s)[1..] == Escaped(rest);
    if rest != [] {
      FirstByte(rest);
      if Escaped(rest)[0] != AMP && rest[1..] != [] {
        FirstByte(rest[1..]);
        assert Escaped(s)[2..] == Escaped(rest)[1..];
      }
    }
    NothingEscaped();
  }

  lemma NothingEscaped()
    ensures Escaped([]) == []
  {
  }

  lemma References(s: Bytes)
    requires s != []
    ensures |Piece(s)| > 1 ==> forall k :: 0 <= k < |Piece(s)| ==> Piece(s)[k] < 0x80
  {
  }

  /** What a turn wrote, seen from position `i` of the output. */
  lemma OutputFrom(s: Bytes, i: nat)
    requires s != [] && i <= |Escaped(s)|
    ensures var p, rest := Piece(s), Escaped(s[Width(s)..]);
            && |Escaped(s)| == |p| + |rest|
            && (i < |p| ==> Escaped(s)[i] == p[i]) && (i >= |p| ==> Escaped(s)[i..] == rest[i - |p|..])
  {
    hide Piece, Width;
    assert Escaped(s) == Piece(s) + Escaped(s[Width(s)..]);
  }

  /** Copyright, registered and euro signs are written as references, in any text without controls. */
  lemma {:induction false} SymbolsAreReferences(s: Bytes, i: nat)
    requires NoControls(s) && i <= |Escaped(s)|
    ensures !Symbol(Escaped(s)[i..])
    decreases |s|
  {
    hide Piece, Width, Escaped, Symbol;
    if s == [] {
      NothingEscaped();
      NoSymbolInNothing();
    } else {
      OutputFrom(s, i);
      if i == 0 {
        HeadIsNoSymbol(s);
        assert Escaped(s)[0..] == Escaped(s);
      } else if i >= |Piece(s)| {
        SymbolsAreReferences(s[Width(s)..], i - |Piece(s)|);
      } else {
        References(s);
        LowIsNoSymbol(Escaped(s)[i..]);
      }
    }
  }

  lemma NoSymbolInNothing()
    ensures !Symbol([])
  {
  }

  lemma LowIsNoSymbol(s: Bytes)
    requires s != [] && s[0] < 0x80
    ensures !Symbol(s)
  {
  }

  /** Different texts stay different. */
  lemma EscapingIsInjective(s: Bytes, t: Bytes)
    requires Escaped(s) == Escaped(t)
    ensures Strip(s) == Strip(t)
  {
    EscapingRoundTrips(s);
    EscapingRoundTrips(t);
  }
}

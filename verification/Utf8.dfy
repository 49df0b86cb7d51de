/** truncateUtf8: cut a byte string after a number of characters, as sections 3 and 4 of RFC 3629 count them. */
module Utf8 {
  import opened Bytes

  // ---- What the code does -------------------------------------------------------------------

  /** Length announced by a leading byte; 0 for a byte that announces none. */
  function Announced(c: Byte): nat {
    if c / 128 == 0 then 1
    else if c / 32 == 6 then 2
    else if c / 16 == 14 then 3
    else if c / 8 == 30 then 4
    else 0
  }

  predicate Continuation(c: Byte) {
    c / 64 == 2
  }

  predicate AllContinue(s: Bytes, n: nat)
    requires n <= |s|
  {
    forall k :: 1 <= k < n ==> Continuation(s[k])
  }

  /** An announced character whose bytes are there but do not continue it. */
  predicate Broken(s: Bytes)
    requires s != []
  {
    0 < Announced(s[0]) <= |s| && !AllContinue(s, Announced(s[0]))
  }

  /** The bytes that one turn of the loop takes; 0 when it stops before a character cut short. */
  function Taken(s: Bytes): (n: nat)
    requires s != []
    ensures n <= |s|
  {
    var n := Announced(s[0]);
    if n == 0 then 1 else if n > |s| then 0 else if AllContinue(s, n) then n else 1
  }

  function Truncated(s: Bytes, max: nat): Bytes
    decreases |s|
  {
    if s == [] || max == 0 || Taken(s) == 0 then []
    else s[..Taken(s)] + Truncated(s[Taken(s)..], max - 1)
  }

  /** For every byte string the result is a prefix of the input. */
  lemma {:induction false} TruncatedIsAPrefix(s: Bytes, max: nat)
    ensures Truncated(s, max) <= s
    decreases |s|
  {
    if s != [] && max > 0 && Taken(s) > 0 {
      TruncatedIsAPrefix(s[Taken(s)..], max - 1);
      assert s == s[..Taken(s)] + s[Taken(s)..];
    }
  }

  lemma Unfolded(s: Bytes, max: nat)
    requires s != [] && max > 0 && Taken(s) > 0
    ensures var n, t := Taken(s), Truncated(s, max);
            && t == s[..n] + Truncated(s[n..], max - 1)
            && n <= |t| && t[..n] == s[..n] && t[n..] == Truncated(s[n..], max - 1)
  {
  }

  /** What the loop has passed, followed by what it would still take, is the result. */
  ghost predicate Remains(str: Bytes, i: nat, left: nat, whole: Bytes) {
    i <= |str| && str[..i] + Truncated(str[i..], left) == whole
  }

  lemma Pieces(str: Bytes, i: nat, n: nat, rest: Bytes)
    requires i + n <= |str|
    ensures str[i..][n..] == str[i + n..]
    ensures str[..i] + (str[i..][..n] + rest) == str[..i + n] + rest
  {
    assert str[..i + n] == str[..i] + str[i..][..n];
  }

  /** One turn of the loop moves one piece from the rest to the result. */
  lemma Turn(str: Bytes, i: nat, left: nat, n: nat, whole: Bytes)
    requires i < |str| && left > 0 && n == Taken(str[i..]) && Remains(str, i, left, whole)
    ensures n > 0 ==> Remains(str, i + n, left - 1, whole)
    ensures n == 0 ==> str[..i] == whole
  {
    if n > 0 {
      assert Truncated(str[i..], left) == str[i..][..n] + Truncated(str[i..][n..], left - 1)
        by { Unfolded(str[i..], left); }
      hide Taken, Truncated;
      Pieces(str, i, n, Truncated(str[i..][n..], left - 1));
    }
  }

  lemma Finished(str: Bytes, i: nat, left: nat, whole: Bytes)
    requires Remains(str, i, left, whole) && (i == |str| || left == 0)
    ensures str[..i] == whole
  {
  }

  lemma Started(str: Bytes, max: nat)
    ensures Remains(str, 0, max, Truncated(str, max))
  {
    assert str[0..] == str;
  }

  /** The continuation bytes of the character that starts at `i`. */
  method Continues(str: Bytes, i: nat, charLen: nat) returns (valid: bool)
    requires i + charLen <= |str|
    ensures valid <==> AllContinue(str[i..], charLen)
  {
    var k := 1;
    while k < charLen
      invariant 1 <= k
      invariant forall j :: 1 <= j < k && j < charLen ==> Continuation(str[i..][j])
    {
      if str[i + k] / 64 != 2 {
        assert !Continuation(str[i..][k]);
        return false;
      }
      k := k + 1;
    }
    valid := true;
  }

  /** The bytes that the loop takes at index `i`; 0 to stop before an incomplete sequence. */
  method StepAt(str: Bytes, i: nat) returns (step: nat)
    requires i < |str|
    ensures step == Taken(str[i..])
  {
    var charLen := Announced(str[i]);
    if charLen == 0 {
      return 1;
    }
    if i + charLen > |str| {
      return 0;
    }
    var valid := Continues(str, i, charLen);
    step := if valid then charLen else 1;
  }

  /** One turn of the loop; `false` is the break. */
  method OneTurn(str: Bytes, i: nat, ghost left: nat, ghost whole: Bytes) returns (more: bool, next: nat)
    requires i < |str| && left > 0 && Remains(str, i, left, whole)
    ensures !more ==> str[..i] == whole
    ensures more ==> i < next <= |str| && Remains(str, next, left - 1, whole)
  {
    var step := StepAt(str, i);
    Turn(str, i, left, step, whole);
    more, next := step > 0, i + step;
  }

  lemma NothingToTake(str: Bytes, max: nat)
    requires str == [] || max == 0
    ensures Truncated(str, max) == []
  {
  }

  method TruncateUtf8(str: Bytes, maxChars: nat) returns (r: Bytes)
    ensures r == Truncated(str, maxChars)
  {
    hide Truncated, Remains;
    if str == [] || maxChars == 0 {
      NothingToTake(str, maxChars);
      return [];
    }
    var charCount, byteIndex := 0, 0;
    ghost var whole := Truncated(str, maxChars);
    Started(str, maxChars);
    while byteIndex < |str| && charCount < maxChars
      invariant 0 <= byteIndex <= |str| && 0 <= charCount <= maxChars
      invariant Remains(str, byteIndex, maxChars - charCount, whole)
      decreases |str| - byteIndex
    {
      var more, next := OneTurn(str, byteIndex, maxChars - charCount, whole);
      if !more {
        return str[..byteIndex];
      }
      byteIndex, charCount := next, charCount + 1;
    }
    Finished(str, byteIndex, maxChars - charCount, whole);
    r := str[..byteIndex];
  }

  // ---- What a character is ------------------------------------------------------------------

  /** The length of the UTF-8 character that starts `s`, by the syntax of section 4 of RFC 3629; 0 if none does. */
  function CharacterLength(s: Bytes): (n: nat)
    ensures n <= |s|
  {
    if |s| >= 1 && s[0] <= 0x7F then 1
    else if |s| >= 2 && 0xC2 <= s[0] <= 0xDF && Tail(s[1]) then 2
    else if |s| >= 3 && Tail(s[2]) && (|| (s[0] == 0xE0 && 0xA0 <= s[1] <= 0xBF)
                                       || (0xE1 <= s[0] <= 0xEC && Tail(s[1]))
                                       || (s[0] == 0xED && 0x80 <= s[1] <= 0x9F)
                                       || (0xEE <= s[0] <= 0xEF && Tail(s[1]))) then 3
    else if |s| >= 4 && Tail(s[2]) && Tail(s[3]) && (|| (s[0] == 0xF0 && 0x90 <= s[1] <= 0xBF)
                                                     || (0xF1 <= s[0] <= 0xF3 && Tail(s[1]))
                                                     || (s[0] == 0xF4 && 0x80 <= s[1] <= 0x8F)) then 4
    else 0
  }

  predicate Tail(c: Byte) {
    0x80 <= c <= 0xBF
  }

  predicate ValidUtf8(s: Bytes) {
    s == [] || (CharacterLength(s) > 0 && ValidUtf8(s[CharacterLength(s)..]))
  }

  function CodePoints(s: Bytes): nat
    requires ValidUtf8(s)
  {
    if s == [] then 0 else 1 + CodePoints(s[CharacterLength(s)..])
  }

  function Min(a: nat, b: nat): nat {
    if a < b then a else b
  }

  /** On a character the code takes exactly that character. */
  lemma TakenIsACharacter(s: Bytes)
    requires CharacterLength(s) > 0
    ensures s != [] && Taken(s) == CharacterLength(s) && !Broken(s)
  {
  }

  lemma CharacterIsLocal(s: Bytes, t: Bytes)
    requires CharacterLength(s) > 0 && s[..CharacterLength(s)] <= t
    ensures CharacterLength(t) == CharacterLength(s)
  {
    assert forall k :: 0 <= k < CharacterLength(s) ==> s[k] == s[..CharacterLength(s)][k] == t[k];
  }

  /** Valid text stays valid and keeps exactly the first `max` characters, or all of them. */
  lemma {:induction false} TruncationCountsCharacters(s: Bytes, max: nat)
    requires ValidUtf8(s)
    ensures ValidUtf8(Truncated(s, max)) && CodePoints(Truncated(s, max)) == Min(max, CodePoints(s))
    decreases |s|
  {
    hide CharacterLength, Taken, Broken;
    if s != [] && max > 0 {
      TakenIsACharacter(s);
      var n := CharacterLength(s);
      TruncationCountsCharacters(s[n..], max - 1);
      var t := Truncated(s, max);
      assert t == s[..n] + Truncated(s[n..], max - 1);
      CharacterIsLocal(s, t);
      assert t[n..] == Truncated(s[n..], max - 1);
    }
  }

  // ---- Truncating twice ---------------------------------------------------------------------

  /** The scan of the whole string never meets a broken character. */
  predicate Unbroken(s: Bytes)
    decreases |s|
  {
    s == [] || (!Broken(s) && (Taken(s) == 0 || Unbroken(s[Taken(s)..])))
  }

  lemma {:induction false} ValidIsUnbroken(s: Bytes)
    requires ValidUtf8(s)
    ensures Unbroken(s)
    decreases |s|
  {
    if s != [] {
      TakenIsACharacter(s);
      ValidIsUnbroken(s[CharacterLength(s)..]);
    }
  }

  /** What the code takes from an unbroken start depends on those bytes alone. */
  lemma TakenIsLocal(s: Bytes, t: Bytes)
    requires s != [] && !Broken(s) && Taken(s) > 0 && s[..Taken(s)] <= t
    ensures t != [] && Taken(t) == Taken(s) && !Broken(t)
  {
    assert forall k :: 0 <= k < Taken(s) ==> s[k] == s[..Taken(s)][k] == t[k];
  }

  /** The first piece of an unbroken text is the first piece of its truncation. */
  lemma TwiceUnfolded(s: Bytes, a: nat, b: nat)
    requires s != [] && !Broken(s) && Taken(s) > 0 && a > 0 && b > 0
    ensures var n := Taken(s);
            Truncated(Truncated(s, a), b) == s[..n] + Truncated(Truncated(s[n..], a - 1), b - 1)
  {
    Unfolded(s, a);
    TakenIsLocal(s, Truncated(s, a));
    hide Broken;
    Unfolded(Truncated(s, a), b);
  }

  lemma {:induction false} UnbrokenComposes(s: Bytes, a: nat, b: nat)
    requires Unbroken(s)
    ensures Truncated(Truncated(s, a), b) == Truncated(s, Min(a, b))
    decreases |s|
  {
    if s != [] && a > 0 && b > 0 && Taken(s) > 0 {
      var n := Taken(s);
      assert Unbroken(s[n..]);
      assert Truncated(s, Min(a, b)) == s[..n] + Truncated(s[n..], Min(a - 1, b - 1)) by { Unfolded(s, Min(a, b)); }
      assert Truncated(Truncated(s, a), b) == s[..n] + Truncated(Truncated(s[n..], a - 1), b - 1)
        by { TwiceUnfolded(s, a, b); }
      hide Taken, Truncated, Unbroken, Broken;
      UnbrokenComposes(s[n..], a - 1, b - 1);
    }
  }

  lemma {:induction false} BrokenDoesNot(s: Bytes) returns (a: nat)
    requires !Unbroken(s)
    ensures Truncated(Truncated(s, a), a) != Truncated(s, a)
    decreases |s|
  {
    if Broken(s) {
      a := 1;
      assert Truncated(s, 1) == [s[0]];
      assert Taken([s[0]]) == 0;
    } else {
      a := BrokenDoesNot(s[Taken(s)..]);
      a := a + 1;
      Unfolded(s, a);
      TakenIsLocal(s, Truncated(s, a));
      Unfolded(Truncated(s, a), a);
    }
  }

  /** Truncating twice is truncating once to the smaller count, for all counts, exactly when no character is broken. */
  lemma ComposesIff(s: Bytes)
    ensures (forall a: nat, b: nat :: Truncated(Truncated(s, a), b) == Truncated(s, Min(a, b))) <==> Unbroken(s)
  {
    if Unbroken(s) {
      forall a: nat, b: nat ensures Truncated(Truncated(s, a), b) == Truncated(s, Min(a, b)) {
        UnbrokenComposes(s, a, b);
      }
    } else {
      var a := BrokenDoesNot(s);
      assert Truncated(Truncated(s, a), a) != Truncated(s, Min(a, a));
    }
  }

  lemma ValidComposes(s: Bytes, a: nat, b: nat)
    requires ValidUtf8(s)
    ensures Truncated(Truncated(s, a), b) == Truncated(s, Min(a, b))
  {
    ValidIsUnbroken(s);
    UnbrokenComposes(s, a, b);
  }

  /** A three-byte leader followed by letters: cut after one character, then the cut is cut again. */
  lemma MalformedExample()
    ensures Truncated([0xE2, 0x41, 0x42], 1) == [0xE2]
    ensures Truncated([0xE2], 1) == []
    ensures !Unbroken([0xE2, 0x41, 0x42])
  {
    assert !Continuation([0xE2, 0x41, 0x42][1]);
  }
}

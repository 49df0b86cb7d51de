/** What the words in DGII's free-text answers are, up to case and surrounding space, without the engine's reading. */
module EstadoWords {
  import Estado

  predicate Space(c: char) {
    c == ' ' || '\t' <= c <= '\r'
  }

  /** The text is blank before `i` and from `j` on. */
  predicate Around(text: string, i: nat, j: nat) {
    i <= j <= |text| && forall k :: 0 <= k < |text| && (k < i || j <= k) ==> Space(text[k])
  }

  predicate Blank(text: string) {
    forall k :: 0 <= k < |text| ==> Space(text[k])
  }

  /** The same letter, or the capital of a small one. */
  predicate SameLetter(c: char, small: char) {
    c == small || ('a' <= small <= 'z' && c as int + 32 == small as int)
  }

  predicate Spells(s: string, word: string) {
    |s| == |word| && forall k :: 0 <= k < |s| ==> SameLetter(s[k], word[k])
  }

  ghost predicate Says(text: string, word: string) {
    exists i: nat, j: nat :: Around(text, i, j) && Spells(text[i..j], word)
  }

  ghost predicate SaysAccepted(text: string) {
    Says(text, "aceptado") || Says(text, "aceptado condicional")
  }

  ghost predicate SaysRejected(text: string) {
    Says(text, "rechazado")
  }

  predicate Denial(core: string) {
    core == "No encontrado" || core == "no encontrado"
  }

  /** Nothing, or one of the two spellings with which DGII denies to know a number. */
  ghost predicate SaysNothing(text: string) {
    Blank(text) || exists i: nat, j: nat :: Around(text, i, j) && Denial(text[i..j])
  }

  // ---- Trimming is unique -------------------------------------------------------------------

  lemma {:induction false} TrimLeftCuts(s: string) returns (i: nat)
    ensures i <= |s| && Estado.TrimLeft(s) == s[i..] && forall k :: 0 <= k < i ==> Space(s[k])
    ensures i < |s| ==> !Space(s[i])
    decreases |s|
  {
    i := 0;
    if s != "" && Estado.IsSpace(s[0]) {
      i := TrimLeftCuts(s[1..]);
      assert s[1..][i..] == s[i + 1..];
      assert forall k :: 0 < k <= i ==> s[k] == s[1..][k - 1];
      assert i < |s| - 1 ==> s[1..][i] == s[i + 1];
      i := i + 1;
    }
  }

  lemma {:induction false} TrimRightCuts(s: string) returns (j: nat)
    ensures j <= |s| && Estado.TrimRight(s) == s[..j] && forall k :: j <= k < |s| ==> Space(s[k])
    ensures j > 0 ==> !Space(s[j - 1])
    decreases |s|
  {
    j := |s|;
    if s != "" && Estado.IsSpace(s[|s| - 1]) {
      j := TrimRightCuts(s[..|s| - 1]);
      assert s[..|s| - 1][..j] == s[..j];
      assert forall k :: 0 <= k < |s| - 1 ==> s[k] == s[..|s| - 1][k];
    }
  }

  /** What is left of a text between its blanks. */
  lemma TrimCuts(text: string) returns (i: nat, j: nat)
    ensures Around(text, i, j) && Estado.Trim(text) == text[i..j]
    ensures i < j ==> !Space(text[i]) && !Space(text[j - 1])
  {
    i := TrimLeftCuts(text);
    var rest := text[i..];
    var k := TrimRightCuts(rest);
    j := i + k;
    assert forall x :: 0 <= x < |rest| ==> rest[x] == text[i + x];
    assert forall x :: j <= x < |text| ==> rest[x - i] == text[x];
    assert rest[..k] == text[i..j];
    assert k > 0 ==> rest[k - 1] == text[j - 1];
  }

  /** A core that begins and ends with no space is the whole of what trimming leaves. */
  lemma OneCut(text: string, i: nat, j: nat, a: nat, b: nat)
    requires Around(text, i, j) && (i < j ==> !Space(text[i]) && !Space(text[j - 1]))
    requires Around(text, a, b) && a < b && !Space(text[a]) && !Space(text[b - 1])
    ensures i == a && j == b
  {
    assert i <= a < j && i < b <= j;
  }

  lemma SpellsIffLower(s: string, word: string)
    requires forall k :: 0 <= k < |word| ==> word[k] == ' ' || 'a' <= word[k] <= 'z'
    ensures Spells(s, word) <==> Estado.Lower(s) == word
  {
    if Spells(s, word) {
      assert forall k :: 0 <= k < |s| ==> Estado.ToLower(s[k]) == word[k];
    } else if |s| == |word| {
      var k :| 0 <= k < |s| && !SameLetter(s[k], word[k]);
      assert Estado.Lower(s)[k] == Estado.ToLower(s[k]);
    }
  }

  predicate SmallWord(word: string) {
    && word != "" && 'a' <= word[0] <= 'z' && 'a' <= word[|word| - 1] <= 'z'
    && forall k :: 0 <= k < |word| ==> word[k] == ' ' || 'a' <= word[k] <= 'z'
  }

  lemma SpelledAt(text: string, a: nat, b: nat, word: string)
    requires a <= b <= |text| && Spells(text[a..b], word) && SmallWord(word)
    ensures a < b && !Space(text[a]) && !Space(text[b - 1])
  {
    assert text[a..b][0] == text[a] && text[a..b][b - a - 1] == text[b - 1];
  }

  /** The trimmed, lowered text is the word exactly when the text says it. */
  lemma SaysIffTrimmed(text: string, word: string)
    requires SmallWord(word)
    ensures Says(text, word) <==> Estado.Lower(Estado.Trim(text)) == word
  {
    hide Estado.Trim, Estado.Lower, Spells, SmallWord;
    var i, j := TrimCuts(text);
    SpellsIffSmall(text[i..j], word);
    if Says(text, word) {
      var a: nat, b: nat :| Around(text, a, b) && Spells(text[a..b], word);
      SpelledAt(text, a, b, word);
      OneCut(text, i, j, a, b);
    }
  }

  lemma SpellsIffSmall(s: string, word: string)
    requires SmallWord(word)
    ensures Spells(s, word) <==> Estado.Lower(s) == word
  {
    SpellsIffLower(s, word);
  }

  lemma NothingIffTrimmed(text: string)
    ensures SaysNothing(text) <==> Estado.Trim(text) == "" || Estado.SaysNotFound(Estado.Trim(text))
  {
    hide Estado.Trim;
    var i, j := TrimCuts(text);
    if a: nat, b: nat :| Around(text, a, b) && Denial(text[a..b]) {
      assert text[a..b][0] == text[a] && text[a..b][b - a - 1] == text[b - 1];
      OneCut(text, i, j, a, b);
    }
    assert Denial(text[i..j]) <==> Estado.SaysNotFound(Estado.Trim(text));
  }

  /** The engine's reading of an answer, in these words. */
  lemma ReadMeans(text: string)
    ensures Estado.Read(text).Accepts? <==> SaysAccepted(text)
    ensures Estado.Read(text).Rejects? <==> SaysRejected(text)
    ensures Estado.Read(text).Missing? <==> SaysNothing(text)
  {
    hide Estado.Trim, Estado.Lower, Says, SaysNothing;
    SaysIffTrimmed(text, "aceptado");
    SaysIffTrimmed(text, "aceptado condicional");
    SaysIffTrimmed(text, "rechazado");
    NothingIffTrimmed(text);
    LoweredWords();
  }

  lemma LoweredWords()
    ensures Estado.Lower("") == "" && Estado.Lower("No encontrado") == "no encontrado"
    ensures Estado.Lower("no encontrado") == "no encontrado"
  {
  }
}

/** Logger names: splitting camel case and delimiters into hyphenated words. */
module LoggerNames {
  datatype State = Delim | Upper | Lower

  predicate IsUpper(c: char) {
    'A' <= c <= 'Z'
  }

  predicate IsLower(c: char) {
    'a' <= c <= 'z'
  }

  predicate IsDelimiter(c: char) {
    c == '-' || c == '_'
  }

  /** char::to_ascii_lowercase on an upper-case letter. */
  function Lowered(c: char): (r: char)
    requires IsUpper(c)
    ensures IsLower(r) && (r as int) - ('a' as int) == (c as int) - ('A' as int)
  {
    (c as int + 32) as char
  }

  /** A capital starts a word unless it follows a delimiter, or stands inside a
      run of capitals that goes on. */
  predicate Splits(state: State, rest: string) {
    if state == Upper then rest != "" && IsLower(rest[0]) else state != Delim
  }

  /** What is written for the text from here on. */
  function Spelled(state: State, text: string): string
    decreases |text|
  {
    if text == "" then ""
    else
      var ch, rest := text[0], text[1..];
      if IsUpper(ch) then (if Splits(state, rest) then "-" else "") + [Lowered(ch)] + Spelled(Upper, rest)
      else if IsLower(ch) then [ch] + Spelled(Lower, rest)
      else if IsDelimiter(ch) then (if state != Delim then "-" else "") + Spelled(Delim, rest)
      else [ch] + Spelled(state, rest)
  }

  method Hyphenate(name: string) returns (out: string)
    ensures out == Spelled(Delim, name)
  {
    out := "";
    var state := Delim;
    var i := 0;
    assert name[0..] == name;
    while i < |name|
      invariant i <= |name| && Spelled(Delim, name) == out + Spelled(state, name[i..])
    {
      var ch := name[i];
      ghost var was, before := out, state;
      if IsUpper(ch) {
        if state == Upper {
          if i + 1 < |name| && IsLower(name[i + 1]) {
            out := out + "-";
          }
        } else if state != Delim {
          out := out + "-";
        }
        out := out + [Lowered(ch)];
        state := Upper;
      } else if IsLower(ch) {
        out := out + [ch];
        state := Lower;
      } else if ch == '-' || ch == '_' {
        if state != Delim {
          out := out + "-";
        }
        state := Delim;
      } else {
        out := out + [ch];
      }
      OneCharacter(name, i, before, was, out, state);
      i := i + 1;
    }
    assert out + "" == out;
  }

  lemma OneCharacter(name: string, i: nat, before: State, was: string, out: string, state: State)
    requires i < |name|
    requires var ch, rest := name[i], name[i + 1..];
      if IsUpper(ch) then state == Upper && out == was + (if Splits(before, rest) then "-" else "") + [Lowered(ch)]
      else if IsLower(ch) then state == Lower && out == was + [ch]
      else if IsDelimiter(ch) then state == Delim && out == was + (if before != Delim then "-" else "")
      else state == before && out == was + [ch]
    ensures was + Spelled(before, name[i..]) == out + Spelled(state, name[i + 1..])
  {
    assert name[i..][1..] == name[i + 1..];
  }

  // ----- what the result looks like -----

  /** The letters and other characters of a text, delimiters left out, in lower case. */
  function Letters(text: string): string {
    if text == "" then ""
    else
      (if IsDelimiter(text[0]) then "" else [if IsUpper(text[0]) then Lowered(text[0]) else text[0]]) + Letters(text[1..])
  }

  lemma LettersCons(c: char, rest: string)
    ensures Letters([c] + rest) == (if IsDelimiter(c) then "" else [if IsUpper(c) then Lowered(c) else c]) + Letters(rest)
  {
    assert ([c] + rest)[1..] == rest;
  }

  lemma SpelledCons(state: State, c: char, rest: string)
    requires !IsUpper(c)
    ensures Spelled(state, [c] + rest) ==
      if IsLower(c) then [c] + Spelled(Lower, rest)
      else if IsDelimiter(c) then (if state != Delim then "-" else "") + Spelled(Delim, rest)
      else [c] + Spelled(state, rest)
  {
    assert ([c] + rest)[1..] == rest;
  }

  lemma UpperLetters(low: char, tail: string, split: string)
    requires IsLower(low) && (split == "" || split == "-")
    ensures Letters(split + [low] + tail) == [low] + Letters(tail)
  {
    LettersCons(low, tail);
    LettersCons('-', [low] + tail);
    assert split == "-" ==> split + [low] + tail == ['-'] + ([low] + tail);
    assert split == "" ==> split + [low] + tail == [low] + tail;
  }

  /** Nothing but hyphens is added or lost: the characters stay, in lower case. */
  lemma {:induction false} KeepsLetters(state: State, text: string)
    ensures Letters(Spelled(state, text)) == Letters(text)
    decreases |text|
  {
    if text != "" {
      var ch, rest := text[0], text[1..];
      if IsUpper(ch) {
        KeepsLetters(Upper, rest);
        UpperLetters(Lowered(ch), Spelled(Upper, rest), if Splits(state, rest) then "-" else "");
      } else if IsDelimiter(ch) {
        KeepsLetters(Delim, rest);
        LettersCons('-', Spelled(Delim, rest));
        assert "" + Spelled(Delim, rest) == Spelled(Delim, rest);
      } else {
        var next := if IsLower(ch) then Lower else state;
        KeepsLetters(next, rest);
        LettersCons(ch, Spelled(next, rest));
      }
    }
  }

  /** No capital and no underscore is left. */
  lemma {:induction false} LowerCase(state: State, text: string)
    ensures forall c :: c in Spelled(state, text) ==> !IsUpper(c) && c != '_'
    decreases |text|
  {
    if text != "" {
      var ch, rest := text[0], text[1..];
      LowerCase(if IsUpper(ch) then Upper else if IsLower(ch) then Lower else if IsDelimiter(ch) then Delim else state, rest);
    }
  }

  /** The same state for a text that has no capitals left. */
  function Settled(state: State): State {
    if state == Upper then Lower else state
  }

  lemma StableUpper(state: State, low: char, tail: string, split: string)
    requires IsLower(low) && Spelled(Lower, tail) == tail && (split == "" || (split == "-" && state != Delim))
    ensures Spelled(Settled(state), split + [low] + tail) == split + [low] + tail
  {
    SpelledCons(Settled(state), low, tail);
    SpelledCons(Delim, low, tail);
    SpelledCons(Settled(state), '-', [low] + tail);
    assert split == "-" ==> split + [low] + tail == ['-'] + ([low] + tail);
    assert split == "" ==> split + [low] + tail == [low] + tail;
  }

  lemma StableDelimiter(state: State, tail: string, written: string)
    requires Spelled(Delim, tail) == tail && written == if state != Delim then "-" else ""
    ensures Spelled(Settled(state), written + tail) == written + tail
  {
    SpelledCons(Settled(state), '-', tail);
    assert "" + tail == tail;
  }

  /** Spelling is stable: a hyphenated name is its own spelling. */
  lemma {:induction false} Stable(state: State, text: string)
    ensures Spelled(Settled(state), Spelled(state, text)) == Spelled(state, text)
    decreases |text|
  {
    if text != "" {
      var ch, rest := text[0], text[1..];
      if IsUpper(ch) {
        Stable(Upper, rest);
        StableUpper(state, Lowered(ch), Spelled(Upper, rest), if Splits(state, rest) then "-" else "");
      } else if IsLower(ch) {
        Stable(Lower, rest);
        SpelledCons(Settled(state), ch, Spelled(Lower, rest));
      } else if IsDelimiter(ch) {
        Stable(Delim, rest);
        StableDelimiter(state, Spelled(Delim, rest), if state != Delim then "-" else "");
      } else {
        Stable(state, rest);
        SpelledCons(Settled(state), ch, Spelled(state, rest));
      }
    }
  }

  lemma HyphenateIdempotent(name: string)
    ensures Spelled(Delim, Spelled(Delim, name)) == Spelled(Delim, name)
  {
    Stable(Delim, name);
  }

  // ----- where the hyphens stand -----

  /** What a position follows: a capital, a small letter, or a delimiter or the
      beginning of the name; other characters are looked through. */
  function Follows(name: string, i: nat): State
    requires i <= |name|
  {
    if i == 0 || IsDelimiter(name[i - 1]) then Delim
    else if IsUpper(name[i - 1]) then Upper
    else if IsLower(name[i - 1]) then Lower
    else Follows(name, i - 1)
  }

  /** A word begins at i: a capital after a small letter, or the last capital of a
      run before a small letter. */
  predicate BeginsWord(name: string, i: nat)
    requires i < |name|
  {
    && IsUpper(name[i])
    && match Follows(name, i)
       case Lower => true
       case Upper => i + 1 < |name| && IsLower(name[i + 1])
       case Delim => false
  }

  /** What becomes of the character at i: a word begins with a hyphen before its
      letter, a delimiter becomes one unless nothing or another one precedes it,
      and letters become small. */
  function Piece(name: string, i: nat): string
    requires i < |name|
  {
    if IsDelimiter(name[i]) then (if Follows(name, i) == Delim then "" else "-")
    else (if BeginsWord(name, i) then "-" else "") + [if IsUpper(name[i]) then Lowered(name[i]) else name[i]]
  }

  function Pieces(name: string, i: nat): string
    requires i <= |name|
    decreases |name| - i
  {
    if i == |name| then "" else Piece(name, i) + Pieces(name, i + 1)
  }

  lemma {:induction false} SpelledPieces(name: string, i: nat)
    requires i <= |name|
    ensures Spelled(Follows(name, i), name[i..]) == Pieces(name, i)
    decreases |name| - i
  {
    if i < |name| {
      SpelledPieces(name, i + 1);
      assert name[i..][0] == name[i] && name[i..][1..] == name[i + 1..];
      assert i + 1 < |name| ==> name[i + 1..][0] == name[i + 1];
    }
  }

  /** Each character's fate depends on its own surroundings only, and hyphens
      stand exactly where words begin and single delimiters stood. */
  lemma HyphensExactly(name: string)
    ensures Spelled(Delim, name) == Pieces(name, 0)
  {
    SpelledPieces(name, 0);
    assert name[0..] == name;
  }
}

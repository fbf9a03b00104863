/**
 * The parts of Rust's `str` and `String` API the program relies on, as functions on
 * `string` (a `seq<char>`): `split(char)`, `join`, `replace`, `trim`, `lines`,
 * `split_ascii_whitespace`, `starts_with`, and `Display` of an unsigned integer.
 * Characters stand for bytes wherever the program writes or measures bytes.
 */
module RustStr {

  predicate StartsWith(s: string, prefix: string) {
    |prefix| <= |s| && s[..|prefix|] == prefix
  }

  /** Concatenation of a sequence of strings (what consecutive `write_all` calls deliver). */
  function Concat(chunks: seq<string>): string {
    if chunks == [] then [] else chunks[0] + Concat(chunks[1..])
  }

  // ---------------------------------------------------------------------------
  // `str::split(c)` and `[&str]::join(sep)`

  /** `s.split(sep)`: the pieces between separators, so always one more piece than separators. */
  function Split(s: string, sep: char): (parts: seq<string>)
    ensures |parts| >= 1
    decreases |s|
  {
    if s == [] then [[]]
    else
      var rest := Split(s[1..], sep);
      if s[0] == sep then [[]] + rest
      else [[s[0]] + rest[0]] + rest[1..]
  }

  /** `parts.join(sep)`. */
  function Join(parts: seq<string>, sep: char): string {
    if |parts| == 0 then []
    else if |parts| == 1 then parts[0]
    else parts[0] + [sep] + Join(parts[1..], sep)
  }

  predicate Free(s: string, c: char) {
    forall i :: 0 <= i < |s| ==> s[i] != c
  }

  /** Joining the pieces back with the separator gives the original string. */
  lemma {:induction false} JoinSplit(s: string, sep: char)
    ensures Join(Split(s, sep), sep) == s
    decreases |s|
  {
    if s != [] {
      var rest := Split(s[1..], sep);
      JoinSplit(s[1..], sep);
      if s[0] == sep {
        assert Split(s, sep) == [[]] + rest;
        assert ([[]] + rest)[1..] == rest;
      } else if |rest| == 1 {
        assert Split(s, sep) == [[s[0]] + rest[0]];
      } else {
        var parts := Split(s, sep);
        assert parts[1..] == rest[1..];
        assert Join(rest, sep) == rest[0] + [sep] + Join(rest[1..], sep);
        assert s == [s[0]] + s[1..];
      }
    }
  }

  /** No piece of a split contains the separator. */
  lemma {:induction false} SplitPiecesFree(s: string, sep: char)
    ensures forall k :: 0 <= k < |Split(s, sep)| ==> Free(Split(s, sep)[k], sep)
    decreases |s|
  {
    if s != [] {
      SplitPiecesFree(s[1..], sep);
      var rest := Split(s[1..], sep);
      var parts := Split(s, sep);
      if s[0] != sep {
        forall k | 0 <= k < |parts| ensures Free(parts[k], sep) {
          if k == 0 {
            assert parts[0] == [s[0]] + rest[0];
          } else {
            assert parts[k] == rest[k];
          }
        }
      }
    }
  }

  /** A string without the separator is one piece. */
  lemma SplitFree(s: string, sep: char)
    requires Free(s, sep)
    ensures Split(s, sep) == [s]
    decreases |s|
  {
    if s != [] {
      SplitFree(s[1..], sep);
      assert s == [s[0]] + s[1..];
    }
  }

  /** One step of `Split`: the first character either ends the first piece or joins it. */
  lemma SplitCons(c: char, t: string, sep: char)
    ensures Split([c] + t, sep) ==
      if c == sep then [[]] + Split(t, sep) else [[c] + Split(t, sep)[0]] + Split(t, sep)[1..]
  {
    assert ([c] + t)[1..] == t;
  }

  /** Splitting at a separator splits the pieces apart. */
  lemma {:induction false} SplitAround(a: string, b: string, sep: char)
    ensures Split(a + [sep] + b, sep) == Split(a, sep) + Split(b, sep)
    decreases |a|
  {
    if a == [] {
      assert a + [sep] + b == [sep] + b;
      SplitCons(sep, b, sep);
    } else {
      var c, a' := a[0], a[1..];
      assert a == [c] + a';
      assert a + [sep] + b == [c] + (a' + [sep] + b);
      SplitAround(a', b, sep);
      SplitCons(c, a' + [sep] + b, sep);
      SplitCons(c, a', sep);
    }
  }

  /** Splitting a join of separator-free pieces gives the pieces back. */
  lemma {:induction false} SplitJoin(parts: seq<string>, sep: char)
    requires |parts| >= 1
    requires forall k :: 0 <= k < |parts| ==> Free(parts[k], sep)
    ensures Split(Join(parts, sep), sep) == parts
    decreases |parts|
  {
    if |parts| == 1 {
      SplitFree(parts[0], sep);
    } else {
      SplitJoin(parts[1..], sep);
      SplitFree(parts[0], sep);
      SplitAround(parts[0], Join(parts[1..], sep), sep);
      assert [parts[0]] + parts[1..] == parts;
    }
  }

  /** Concatenation regroups freely. */
  lemma AppendAssoc<T>(a: seq<T>, b: seq<T>, c: seq<T>)
    ensures a + b + c == a + (b + c)
  {
  }

  /** One step of `Join` on at least two pieces. */
  lemma JoinCons(w: string, rest: seq<string>, sep: char)
    requires |rest| >= 1
    ensures Join([w] + rest, sep) == w + [sep] + Join(rest, sep)
  {
    assert ([w] + rest)[1..] == rest;
  }

  /** Joining two non-empty lists puts one separator between their joins. */
  lemma {:induction false} JoinAppend(a: seq<string>, b: seq<string>, sep: char)
    requires |a| >= 1 && |b| >= 1
    ensures Join(a + b, sep) == Join(a, sep) + [sep] + Join(b, sep)
    decreases |a|
  {
    if |a| == 1 {
      JoinCons(a[0], b, sep);
    } else {
      JoinAppend(a[1..], b, sep);
      assert a + b == [a[0]] + (a[1..] + b);
      JoinCons(a[0], a[1..] + b, sep);
      JoinCons(a[0], a[1..], sep);
      assert [a[0]] + a[1..] == a;
    }
  }

  /** The first piece is the longest separator-free prefix. */
  lemma {:induction false} SplitFirst(s: string, sep: char)
    ensures StartsWith(s, Split(s, sep)[0]) && Free(Split(s, sep)[0], sep)
    ensures |Split(s, sep)[0]| < |s| ==> s[|Split(s, sep)[0]|] == sep
    decreases |s|
  {
    if s != [] && s[0] != sep {
      SplitFirst(s[1..], sep);
      assert Split(s, sep)[0] == [s[0]] + Split(s[1..], sep)[0];
    }
  }

  // ---------------------------------------------------------------------------
  // `str::replace(pat, rep)`

  /** `s.replace(pat, rep)`: every non-overlapping occurrence, scanned from the left. */
  function ReplaceAll(s: string, pat: string, rep: string): string
    requires pat != []
    decreases |s|
  {
    if |s| < |pat| then s
    else if s[..|pat|] == pat then rep + ReplaceAll(s[|pat|..], pat, rep)
    else [s[0]] + ReplaceAll(s[1..], pat, rep)
  }

  /** A prefix that cannot begin an occurrence passes through untouched. */
  lemma {:induction false} ReplaceAfter(v: string, t: string, pat: string, rep: string)
    requires pat != [] && Free(v, pat[0])
    ensures ReplaceAll(v + t, pat, rep) == v + ReplaceAll(t, pat, rep)
    decreases |v|
  {
    if v == [] {
      assert v + t == t;
    } else {
      var s := v + t;
      assert s[0] == v[0];
      assert v == [v[0]] + v[1..];
      if |s| >= |pat| {
        assert s[..|pat|][0] != pat[0];
        assert s[1..] == v[1..] + t;
        ReplaceAfter(v[1..], t, pat, rep);
        assert ReplaceAll(s, pat, rep) == [v[0]] + ReplaceAll(v[1..] + t, pat, rep);
      } else {
        assert ReplaceAll(s, pat, rep) == s;
        assert ReplaceAll(t, pat, rep) == t;
      }
    }
  }

  /** Without the first character of the pattern nothing is replaced. */
  lemma NoReplace(s: string, pat: string, rep: string)
    requires pat != [] && Free(s, pat[0])
    ensures ReplaceAll(s, pat, rep) == s
  {
    ReplaceAfter(s, [], pat, rep);
    assert s + [] == s;
  }

  // ---------------------------------------------------------------------------
  // `str::trim`

  /** `char::is_whitespace`: the Unicode White_Space property. */
  predicate IsWhitespace(c: char) {
    ('\t' <= c <= '\r') || c == ' ' || c == '\U{0085}' || c == '\U{00A0}' || c == '\U{1680}'
    || ('\U{2000}' <= c <= '\U{200A}') || c == '\U{2028}' || c == '\U{2029}' || c == '\U{202F}'
    || c == '\U{205F}' || c == '\U{3000}'
  }

  predicate AllWhitespace(s: string) {
    forall i :: 0 <= i < |s| ==> IsWhitespace(s[i])
  }

  function TrimStart(s: string): string
    decreases |s|
  {
    if s != [] && IsWhitespace(s[0]) then TrimStart(s[1..]) else s
  }

  function TrimEnd(s: string): string
    decreases |s|
  {
    if s != [] && IsWhitespace(s[|s| - 1]) then TrimEnd(s[..|s| - 1]) else s
  }

  /** `s.trim()`. */
  function Trim(s: string): string {
    TrimEnd(TrimStart(s))
  }

  lemma {:induction false} TrimStartShape(s: string)
    ensures |TrimStart(s)| <= |s|
    ensures TrimStart(s) == s[|s| - |TrimStart(s)|..]
    ensures AllWhitespace(s[..|s| - |TrimStart(s)|])
    ensures TrimStart(s) == [] || !IsWhitespace(TrimStart(s)[0])
    decreases |s|
  {
    if s != [] && IsWhitespace(s[0]) {
      TrimStartShape(s[1..]);
      var k := |s| - |TrimStart(s)|;
      assert s[..k] == [s[0]] + s[1..][..k - 1];
    }
  }

  lemma {:induction false} TrimEndShape(s: string)
    ensures |TrimEnd(s)| <= |s|
    ensures TrimEnd(s) == s[..|TrimEnd(s)|]
    ensures AllWhitespace(s[|TrimEnd(s)|..])
    ensures TrimEnd(s) == [] || !IsWhitespace(TrimEnd(s)[|TrimEnd(s)| - 1])
    decreases |s|
  {
    if s != [] && IsWhitespace(s[|s| - 1]) {
      var init := s[..|s| - 1];
      TrimEndShape(init);
      var k := |TrimEnd(s)|;
      assert s[k..] == init[k..] + [s[|s| - 1]];
    }
  }

  /** A string with no whitespace at either end is left alone. */
  lemma TrimClean(s: string)
    requires s == [] || (!IsWhitespace(s[0]) && !IsWhitespace(s[|s| - 1]))
    ensures Trim(s) == s
  {
  }

  /** `trim` leaves no whitespace at either end, so trimming again changes nothing. */
  lemma TrimEnds(s: string)
    ensures var t := Trim(s);
      (t == [] || (!IsWhitespace(t[0]) && !IsWhitespace(t[|t| - 1]))) && Trim(t) == t
  {
    var m := TrimStart(s);
    TrimStartShape(s);
    TrimEndShape(m);
    var t := Trim(s);
    if t != [] {
      assert t[0] == m[0];
    }
    TrimClean(t);
  }

  /** `trim` removes only whitespace, and only at the ends: the result is a slice of the input. */
  lemma TrimSlice(s: string)
    ensures |TrimStart(s)| <= |s|
    ensures var t := Trim(s); var a := |s| - |TrimStart(s)|;
      a + |t| <= |s| && t == s[a..a + |t|]
      && AllWhitespace(s[..a]) && AllWhitespace(s[a + |t|..])
  {
    var m := TrimStart(s);
    TrimStartShape(s);
    TrimEndShape(m);
    var a := |s| - |m|;
    var t := Trim(s);
    assert m[|t|..] == s[a + |t|..];
  }

  // ---------------------------------------------------------------------------
  // `str::lines` and `str::split_ascii_whitespace`

  function StripCr(line: string): string {
    if line != [] && line[|line| - 1] == '\r' then line[..|line| - 1] else line
  }

  /**
   * `s.lines()`: pieces between `\n`, a `\r` before a `\n` removed, and no empty
   * piece after a final line ending.
   */
  function Lines(s: string): seq<string> {
    var pieces := Split(s, '\n');
    var kept := if pieces[|pieces| - 1] == [] then pieces[..|pieces| - 1] else pieces;
    seq(|kept|, i requires 0 <= i < |kept| => if i < |pieces| - 1 then StripCr(kept[i]) else kept[i])
  }

  /** `u8::is_ascii_whitespace` (note: no vertical tab). */
  predicate IsAsciiWhitespace(c: char) {
    c == ' ' || c == '\t' || c == '\n' || c == '\U{000C}' || c == '\r'
  }

  /** Length of the run of non-whitespace at the start of `s`. */
  function WordLen(s: string): (n: nat)
    ensures n <= |s|
    ensures forall i :: 0 <= i < n ==> !IsAsciiWhitespace(s[i])
    ensures n < |s| ==> IsAsciiWhitespace(s[n])
    decreases |s|
  {
    if s == [] || IsAsciiWhitespace(s[0]) then 0 else 1 + WordLen(s[1..])
  }

  /** `s.split_ascii_whitespace()`: the maximal non-empty runs of non-whitespace. */
  function Tokens(s: string): seq<string>
    decreases |s|
  {
    if s == [] then []
    else if IsAsciiWhitespace(s[0]) then Tokens(s[1..])
    else
      var n := WordLen(s);
      [s[..n]] + Tokens(s[n..])
  }

  /** Every token is non-empty and holds no ASCII whitespace. */
  lemma {:induction false} TokensWellFormed(s: string)
    ensures forall k :: 0 <= k < |Tokens(s)| ==>
      Tokens(s)[k] != [] && forall i :: 0 <= i < |Tokens(s)[k]| ==> !IsAsciiWhitespace(Tokens(s)[k][i])
    decreases |s|
  {
    if s != [] {
      if IsAsciiWhitespace(s[0]) {
        TokensWellFormed(s[1..]);
      } else {
        var n := WordLen(s);
        TokensWellFormed(s[n..]);
        var ts := Tokens(s);
        forall k | 0 <= k < |ts|
          ensures ts[k] != [] && forall i :: 0 <= i < |ts[k]| ==> !IsAsciiWhitespace(ts[k][i])
        {
          if k > 0 {
            assert ts[k] == Tokens(s[n..])[k - 1];
          }
        }
      }
    }
  }

  predicate AllAsciiWhitespace(s: string) {
    forall i :: 0 <= i < |s| ==> IsAsciiWhitespace(s[i])
  }

  /** Leading ASCII whitespace yields no token. */
  lemma {:induction false} TokensSkipSpace(sp: string, t: string)
    requires AllAsciiWhitespace(sp)
    ensures Tokens(sp + t) == Tokens(t)
    decreases |sp|
  {
    if sp != [] {
      assert (sp + t)[0] == sp[0];
      assert (sp + t)[1..] == sp[1..] + t;
      TokensSkipSpace(sp[1..], t);
    } else {
      assert sp + t == t;
    }
  }

  /** A whitespace-free word followed by whitespace or the end is one token. */
  lemma TokensWord(w: string, t: string)
    requires w != [] && forall i :: 0 <= i < |w| ==> !IsAsciiWhitespace(w[i])
    requires t == [] || IsAsciiWhitespace(t[0])
    ensures Tokens(w + t) == [w] + Tokens(t)
  {
    var s := w + t;
    assert s[0] == w[0];
    var n := WordLen(s);
    if |w| < |s| {
      assert s[|w|] == t[0];
    }
    assert n == |w|;
    assert s[..n] == w && s[n..] == t;
  }

  /**
   * A text laid out as `gaps[0] words[0] gaps[1] ... words[n-1] gaps[n]`: the words with
   * whitespace around and between them.
   */
  function Spread(words: seq<string>, gaps: seq<string>): string
    requires |gaps| == |words| + 1
    decreases |words|
  {
    if words == [] then gaps[0] else gaps[0] + words[0] + Spread(words[1..], gaps[1..])
  }

  lemma SpreadStart(words: seq<string>, gaps: seq<string>)
    requires |gaps| == |words| + 1 && gaps[0] != []
    ensures Spread(words, gaps) != [] && Spread(words, gaps)[0] == gaps[0][0]
  {
  }

  /**
   * `split_ascii_whitespace` gives back the words of any such layout, in order: the
   * tokens are exactly the maximal runs of non-whitespace. Every text has such a layout,
   * so this determines `Tokens`.
   */
  lemma {:induction false} TokensOfSpread(words: seq<string>, gaps: seq<string>)
    requires |gaps| == |words| + 1
    requires forall k :: 0 <= k < |words| ==>
      words[k] != [] && forall i :: 0 <= i < |words[k]| ==> !IsAsciiWhitespace(words[k][i])
    requires forall k :: 0 <= k < |gaps| ==> AllAsciiWhitespace(gaps[k])
    requires forall k :: 0 < k < |words| ==> gaps[k] != []
    ensures Tokens(Spread(words, gaps)) == words
    decreases |words|
  {
    if words == [] {
      TokensSkipSpace(gaps[0], []);
      assert gaps[0] + [] == gaps[0];
    } else {
      var rest := Spread(words[1..], gaps[1..]);
      TokensOfSpread(words[1..], gaps[1..]);
      if |words| > 1 {
        SpreadStart(words[1..], gaps[1..]);
      } else if gaps[1] != [] {
        assert rest == gaps[1];
      } else {
        assert rest == [];
      }
      TokensWord(words[0], rest);
      AppendAssoc(gaps[0], words[0], rest);
      TokensSkipSpace(gaps[0], words[0] + rest);
      assert [words[0]] + words[1..] == words;
    }
  }

  /**
   * `lines` undoes writing each line followed by `\n`, for lines without `\n` that do
   * not end in `\r`; without the final `\n` the same holds when the last line is not empty.
   */
  lemma LinesOfJoin(ls: seq<string>)
    requires |ls| >= 1
    requires forall k :: 0 <= k < |ls| ==>
      Free(ls[k], '\n') && (ls[k] == [] || ls[k][|ls[k]| - 1] != '\r')
    ensures Lines(Join(ls, '\n') + "\n") == ls
    ensures ls[|ls| - 1] != [] ==> Lines(Join(ls, '\n')) == ls
  {
    var ext := ls + [""];
    JoinAppend(ls, [""], '\n');
    assert Join([""], '\n') == "";
    assert Join(ext, '\n') == Join(ls, '\n') + "\n";
    forall k | 0 <= k < |ext| ensures Free(ext[k], '\n') {
      if k < |ls| {
        assert ext[k] == ls[k];
      }
    }
    SplitJoin(ext, '\n');
    LinesOfPieces(Join(ls, '\n') + "\n", ext, ls);
    if ls[|ls| - 1] != [] {
      SplitJoin(ls, '\n');
      LinesOfPieces(Join(ls, '\n'), ls, ls);
    }
  }

  /** `Lines` from the `\n`-pieces: an empty last piece is dropped, and no piece loses a `\r`. */
  lemma LinesOfPieces(s: string, pieces: seq<string>, ls: seq<string>)
    requires Split(s, '\n') == pieces
    requires pieces == ls + [""] || (pieces == ls && ls != [] && ls[|ls| - 1] != [])
    requires forall k :: 0 <= k < |ls| ==> ls[k] == [] || ls[k][|ls[k]| - 1] != '\r'
    ensures Lines(s) == ls
  {
    var kept := if pieces[|pieces| - 1] == [] then pieces[..|pieces| - 1] else pieces;
    assert kept == ls;
    var r := Lines(s);
    assert |r| == |ls|;
    forall i | 0 <= i < |ls| ensures r[i] == ls[i] {
      assert StripCr(ls[i]) == ls[i];
    }
  }

  /** `lines` of the empty text is no line at all. */
  lemma LinesEmpty()
    ensures Lines("") == []
  {
    assert Split("", '\n') == [[]];
  }

  // ---------------------------------------------------------------------------
  // `Display` of an unsigned integer

  function DigitChar(d: nat): char
    requires d < 10
  {
    ('0' as int + d) as char
  }

  /** Decimal text of `n`, as `format!("{}", n)` prints it. */
  function Decimal(n: nat): string
    decreases n
  {
    (if n < 10 then [] else Decimal(n / 10)) + [DigitChar(n % 10)]
  }

  /** The number a string of decimal digits denotes. */
  function DecimalValue(s: string): int
    decreases |s|
  {
    if s == [] then 0 else 10 * DecimalValue(s[..|s| - 1]) + (s[|s| - 1] as int - '0' as int)
  }

  /** Reading back the digits `Decimal` prints gives `n`. */
  lemma {:induction false} DecimalRoundTrip(n: nat)
    ensures DecimalValue(Decimal(n)) == n
    decreases n
  {
    var s := Decimal(n);
    var init := if n < 10 then [] else Decimal(n / 10);
    assert s == init + [DigitChar(n % 10)];
    assert s[..|s| - 1] == init;
    assert s[|s| - 1] as int - '0' as int == n % 10;
    if n >= 10 {
      DecimalRoundTrip(n / 10);
    }
  }

  /** `Decimal` prints only digits, and a leading zero only for zero itself. */
  lemma {:induction false} DecimalDigits(n: nat)
    ensures |Decimal(n)| >= 1
    ensures forall i :: 0 <= i < |Decimal(n)| ==> '0' <= Decimal(n)[i] <= '9'
    ensures Decimal(n)[0] == '0' ==> n == 0
    decreases n
  {
    var s := Decimal(n);
    if n < 10 {
      assert s == [DigitChar(n)];
    } else {
      DecimalDigits(n / 10);
      var init := Decimal(n / 10);
      assert s == init + [DigitChar(n % 10)];
      assert s[0] == init[0];
    }
  }
}

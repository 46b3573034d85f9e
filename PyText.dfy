/**
 * The Python string operations the server and the report builder rely on:
 * `str.split()` with no separator, `str.join`, `str.upper()`, the `<`, `^`
 * and `>` alignments of format specifications, `str(int)` and `repr(str)`.
 */
module PyText {
  import opened Wrappers

  function Max(a: int, b: int): int { if a < b then b else a }

  /** `c.isspace()`: the characters `str.split()` with no separator splits on. */
  predicate IsSpace(c: char) {
    c == ' ' || ('\t' <= c <= '\r') || ('\U{1C}' <= c <= '\U{1F}')
    || c == '\U{85}' || c == '\U{A0}' || c == '\U{1680}'
    || ('\U{2000}' <= c <= '\U{200A}') || c == '\U{2028}' || c == '\U{2029}'
    || c == '\U{202F}' || c == '\U{205F}' || c == '\U{3000}'
  }

  /** A token as `str.split()` produces it: non-empty, with no whitespace in it. */
  predicate IsWord(w: string) {
    |w| > 0 && forall i :: 0 <= i < |w| ==> !IsSpace(w[i])
  }

  /** The length of the run of non-space characters that starts `s`. */
  function TokenLen(s: string): (n: nat)
    ensures n <= |s|
    ensures forall i :: 0 <= i < n ==> !IsSpace(s[i])
    ensures n < |s| ==> IsSpace(s[n])
  {
    if s == [] || IsSpace(s[0]) then 0 else 1 + TokenLen(s[1..])
  }

  /** `s.split()`: the maximal runs of non-space characters of `s`, in order. */
  function Split(s: string): (words: seq<string>)
    ensures forall k :: 0 <= k < |words| ==> IsWord(words[k])
    decreases |s|
  {
    if s == [] then []
    else if IsSpace(s[0]) then Split(s[1..])
    else
      var n := TokenLen(s);
      [s[..n]] + Split(s[n..])
  }

  /** `sep.join(parts)`. */
  function Join(sep: string, parts: seq<string>): string {
    if parts == [] then ""
    else if |parts| == 1 then parts[0]
    else parts[0] + sep + Join(sep, parts[1..])
  }

  /** Joining two non-empty lists puts one separator between their joins. */
  lemma {:induction false} JoinAppend(sep: string, a: seq<string>, b: seq<string>)
    requires a != [] && b != []
    ensures Join(sep, a + b) == Join(sep, a) + sep + Join(sep, b)
    decreases |a|
  {
    if |a| == 1 {
      assert (a + b)[1..] == b;
    } else {
      assert (a + b)[1..] == a[1..] + b;
      JoinAppend(sep, a[1..], b);
    }
  }

  /** A word followed by whitespace (or nothing) is split off as the first token. */
  lemma SplitLeadingWord(w: string, rest: string)
    requires IsWord(w)
    requires rest == [] || IsSpace(rest[0])
    ensures Split(w + rest) == [w] + Split(rest)
  {
    var s := w + rest;
    assert TokenLen(s) == |w|;
    assert s[..|w|] == w && s[|w|..] == rest;
  }

  /** A string made of whitespace only splits into no tokens. */
  lemma {:induction false} SplitBlank(s: string)
    requires forall i :: 0 <= i < |s| ==> IsSpace(s[i])
    ensures Split(s) == []
    decreases |s|
  {
    if s != [] {
      SplitBlank(s[1..]);
    }
  }

  /** Every character of `s` is whitespace. */
  predicate AllSpace(s: string) {
    forall i :: 0 <= i < |s| ==> IsSpace(s[i])
  }

  /** Whitespace in front of a string never starts or splits a token. */
  lemma {:induction false} SplitSkip(b: string, s: string)
    requires AllSpace(b)
    ensures Split(b + s) == Split(s)
    decreases |b|
  {
    if b != [] {
      var t := b + s;
      assert t[0] == b[0] && t[1..] == b[1..] + s;
      assert Split(t) == Split(t[1..]);
      SplitSkip(b[1..], s);
    } else {
      assert b + s == s;
    }
  }

  /** `words[0] + gaps[0] + words[1] + gaps[1] + ...`: each token followed by its run of whitespace. */
  function Spaced(words: seq<string>, gaps: seq<string>): string
    requires |gaps| == |words|
  {
    if words == [] then "" else words[0] + gaps[0] + Spaced(words[1..], gaps[1..])
  }

  /** Runs of whitespace between tokens: non-empty, except the one after the last token. */
  predicate Separating(gaps: seq<string>) {
    && (forall k :: 0 <= k < |gaps| ==> AllSpace(gaps[k]))
    && (forall k :: 0 <= k < |gaps| - 1 ==> gaps[k] != [])
  }

  /**
   * Tokens separated by any runs of whitespace, with or without trailing
   * whitespace, split back into exactly those tokens.
   */
  lemma {:induction false} SplitSpaced(words: seq<string>, gaps: seq<string>)
    requires |gaps| == |words| && Separating(gaps)
    requires forall k :: 0 <= k < |words| ==> IsWord(words[k])
    ensures Split(Spaced(words, gaps)) == words
    decreases |words|
  {
    if words != [] {
      var rest := Spaced(words[1..], gaps[1..]);
      assert Spaced(words, gaps) == words[0] + (gaps[0] + rest);
      assert gaps[0] == [] ==> rest == [];
      SplitLeadingWord(words[0], gaps[0] + rest);
      SplitSkip(gaps[0], rest);
      SplitSpaced(words[1..], gaps[1..]);
    }
  }

  /**
   * Every string is leading whitespace followed by its tokens, each followed
   * by a run of whitespace. With `SplitSpaced`, this pins `Split` down on every
   * string: its tokens are the maximal runs of non-space characters, in order.
   */
  lemma SplitDecompose(s: string)
    ensures exists lead, gaps ::
      AllSpace(lead) && |gaps| == |Split(s)| && Separating(gaps) && s == lead + Spaced(Split(s), gaps)
  {
    var lead, gaps := SplitPieces(s);
  }

  lemma {:induction false} SplitPieces(s: string) returns (lead: string, gaps: seq<string>)
    ensures AllSpace(lead) && |gaps| == |Split(s)| && Separating(gaps)
    ensures s == lead + Spaced(Split(s), gaps)
    decreases |s|
  {
    if s == [] {
      lead, gaps := "", [];
    } else if IsSpace(s[0]) {
      var l, g := SplitPieces(s[1..]);
      PiecesAfterSpace(s[0], s[1..], l, g, Split(s[1..]));
      assert s == [s[0]] + s[1..];
      lead, gaps := [s[0]] + l, g;
    } else {
      var n := TokenLen(s);
      var l, g := SplitPieces(s[n..]);
      PiecesAfterWord(s[..n], s[n..], l, g, Split(s[n..]));
      assert s == s[..n] + s[n..] && "" + s == s;
      lead, gaps := "", [l] + g;
    }
  }

  /** A leading space joins the leading whitespace of the rest. */
  lemma PiecesAfterSpace(c: char, t: string, l: string, g: seq<string>, ws: seq<string>)
    requires IsSpace(c) && AllSpace(l) && |g| == |ws| && t == l + Spaced(ws, g)
    ensures AllSpace([c] + l) && [c] + t == ([c] + l) + Spaced(ws, g)
  {
  }

  /** A leading token is the first token, and the leading whitespace of the rest is its gap. */
  lemma PiecesAfterWord(w: string, t: string, l: string, g: seq<string>, ws: seq<string>)
    requires AllSpace(l) && |g| == |ws| && Separating(g) && t == l + Spaced(ws, g)
    requires ws != [] ==> IsWord(ws[0]) && t != [] && IsSpace(t[0])
    ensures Separating([l] + g)
    ensures w + t == Spaced([w] + ws, [l] + g)
  {
    if ws != [] {
      LeadBeforeWord(t, l, ws, g);
    }
    SeparatingCons(l, g);
    SpacedCons(w, ws, l, g);
  }

  /** Whitespace in front of spaced-out tokens is all of the string's leading whitespace. */
  lemma LeadBeforeWord(t: string, l: string, ws: seq<string>, g: seq<string>)
    requires |g| == |ws| && ws != [] && IsWord(ws[0])
    requires t == l + Spaced(ws, g) && t != [] && IsSpace(t[0])
    ensures l != []
  {
    SpacedStart(ws, g);
    assert t[0] == (l + Spaced(ws, g))[0];
  }

  lemma SeparatingCons(l: string, g: seq<string>)
    requires AllSpace(l) && Separating(g) && (g != [] ==> l != [])
    ensures Separating([l] + g)
  {
    var gs := [l] + g;
    forall k | 0 <= k < |gs| ensures AllSpace(gs[k]) {
      if k > 0 { assert gs[k] == g[k - 1]; }
    }
    forall k | 0 <= k < |gs| - 1 ensures gs[k] != [] {
      if k > 0 { assert gs[k] == g[k - 1]; }
    }
  }

  lemma SpacedCons(w: string, ws: seq<string>, l: string, g: seq<string>)
    requires |g| == |ws|
    ensures Spaced([w] + ws, [l] + g) == w + l + Spaced(ws, g)
  {
    assert ([w] + ws)[1..] == ws && ([l] + g)[1..] == g;
  }

  /** Tokens spaced out start with a non-space character. */
  lemma SpacedStart(ws: seq<string>, g: seq<string>)
    requires |g| == |ws| && ws != [] && IsWord(ws[0])
    ensures |Spaced(ws, g)| > 0 && !IsSpace(Spaced(ws, g)[0])
  {
    assert Spaced(ws, g) == ws[0] + (g[0] + Spaced(ws[1..], g[1..]));
  }

  /** `c.upper()` for the ASCII letters; every other character is kept. */
  function UpperChar(c: char): char {
    if 'a' <= c <= 'z' then (c as int - 32) as char else c
  }

  /** `s.upper()`, character by character. */
  function Upper(s: string): (r: string)
    ensures |r| == |s|
    ensures forall i :: 0 <= i < |s| ==> r[i] == UpperChar(s[i])
  {
    if s == [] then [] else [UpperChar(s[0])] + Upper(s[1..])
  }

  /** `c * n`. */
  function Repeat(c: char, n: nat): (r: string)
    ensures |r| == n
    ensures forall i :: 0 <= i < n ==> r[i] == c
  {
    if n == 0 then "" else [c] + Repeat(c, n - 1)
  }

  /** `format(s, "<w")`: `s` padded with spaces on the right to width `w`. */
  function AlignLeft(s: string, w: nat): string {
    if |s| >= w then s else s + Repeat(' ', w - |s|)
  }

  /** `format(s, ">w")`: `s` padded with spaces on the left to width `w`. */
  function AlignRight(s: string, w: nat): string {
    if |s| >= w then s else Repeat(' ', w - |s|) + s
  }

  /** `format(s, "^w")`: `s` centred in width `w`, the odd space of the padding on the right. */
  function AlignCenter(s: string, w: nat): string {
    if |s| >= w then s
    else
      var left := (w - |s|) / 2;
      Repeat(' ', left) + s + Repeat(' ', w - |s| - left)
  }

  /** Left alignment: `s` first, then spaces up to the width; a longer `s` is kept whole. */
  lemma AlignLeftShape(s: string, w: nat)
    ensures var r := AlignLeft(s, w);
      && |r| == Max(|s|, w)
      && r[..|s|] == s
      && forall i :: |s| <= i < |r| ==> r[i] == ' '
  {
  }

  /** Right alignment: spaces up to the width, then `s`. */
  lemma AlignRightShape(s: string, w: nat)
    ensures var r := AlignRight(s, w);
      && |r| == Max(|s|, w)
      && r[|r| - |s|..] == s
      && forall i :: 0 <= i < |r| - |s| ==> r[i] == ' '
  {
  }

  /** Centring: half the padding (rounded down) before `s`, the rest after it. */
  lemma AlignCenterShape(s: string, w: nat)
    ensures var r := AlignCenter(s, w);
      var left := (|r| - |s|) / 2;
      && |r| == Max(|s|, w)
      && r[left..left + |s|] == s
      && (forall i :: 0 <= i < left ==> r[i] == ' ')
      && (forall i :: left + |s| <= i < |r| ==> r[i] == ' ')
  {
  }

  predicate IsDigit(c: char) { '0' <= c <= '9' }

  function DigitChar(d: nat): (c: char)
    requires d < 10
    ensures IsDigit(c)
  {
    ('0' as int + d) as char
  }

  /** The number a string of decimal digits denotes. */
  function DecimalValue(s: string): int
    requires forall i :: 0 <= i < |s| ==> IsDigit(s[i])
  {
    if s == [] then 0
    else DecimalValue(s[..|s| - 1]) * 10 + (s[|s| - 1] as int - '0' as int)
  }

  /** `str(n)` for a non-negative integer: decimal digits with no leading zero. */
  function NatToString(n: nat): (r: string)
    ensures |r| > 0
    ensures forall i :: 0 <= i < |r| ==> IsDigit(r[i])
    ensures r[0] == '0' ==> n == 0
  {
    if n < 10 then [DigitChar(n)] else NatToString(n / 10) + [DigitChar(n % 10)]
  }

  /** Reading back what `NatToString` writes gives the number again. */
  lemma {:induction false} NatToStringValue(n: nat)
    ensures DecimalValue(NatToString(n)) == n
  {
    if n >= 10 {
      var s := NatToString(n);
      assert s[..|s| - 1] == NatToString(n / 10);
      NatToStringValue(n / 10);
    }
  }

  /** `str(i)`. */
  function IntToString(i: int): (r: string)
    ensures |r| > 0
    ensures (r[0] == '-') <==> i < 0
    ensures i >= 0 ==> (forall k :: 0 <= k < |r| ==> IsDigit(r[k])) && DecimalValue(r) == i
    ensures i < 0 ==> (forall k :: 1 <= k < |r| ==> IsDigit(r[k])) && DecimalValue(r[1..]) == -i
  {
    if i < 0 then
      NatToStringValue(-i);
      assert ("-" + NatToString(-i))[1..] == NatToString(-i);
      "-" + NatToString(-i)
    else
      NatToStringValue(i);
      NatToString(i)
  }

  /** `repr` picks double quotes only for a string holding `'` and no `"`. */
  function QuoteFor(s: string): char {
    if '\'' in s && '"' !in s then '"' else '\''
  }

  /**
   * `str.isprintable()` for one character, as far as Latin-1 goes: the C0 and
   * C1 control characters, the no-break space and the soft hyphen are not
   * printable; characters beyond U+00FF are treated as printable.
   */
  predicate Printable(c: char) {
    !(c < ' ' || ('\U{7F}' <= c <= '\U{A0}') || c == '\U{AD}')
  }

  /** A lower-case hexadecimal digit. */
  function HexDigit(d: nat): char
    requires d < 16
  {
    if d < 10 then ('0' as int + d) as char else ('a' as int + d - 10) as char
  }

  /** The value of a lower-case hexadecimal digit. */
  function HexValue(c: char): (v: Option<nat>)
    ensures v.Some? ==> v.value < 16
  {
    if '0' <= c <= '9' then Some(c as int - '0' as int)
    else if 'a' <= c <= 'f' then Some(c as int - 'a' as int + 10)
    else None
  }

  /** How `repr` writes one character of a string quoted with `q`. */
  function EscapeChar(c: char, q: char): (r: string)
    ensures |r| >= 1
  {
    if c == '\\' then "\\\\"
    else if c == q then ['\\', q]
    else if c == '\t' then "\\t"
    else if c == '\n' then "\\n"
    else if c == '\r' then "\\r"
    else if !Printable(c) then "\\x" + [HexDigit(c as int / 16), HexDigit(c as int % 16)]
    else [c]
  }

  function Escape(s: string, q: char): (r: string)
    ensures |r| >= |s|
  {
    if s == [] then "" else EscapeChar(s[0], q) + Escape(s[1..], q)
  }

  /** `repr(s)` for a `str`. */
  function Repr(s: string): (r: string)
    ensures |r| >= |s| + 2
    ensures r[0] == QuoteFor(s) && r[|r| - 1] == QuoteFor(s)
  {
    [QuoteFor(s)] + Escape(s, QuoteFor(s)) + [QuoteFor(s)]
  }

  function Prepend(c: char, rest: Option<string>): Option<string> {
    match rest
    case None => None
    case Some(t) => Some([c] + t)
  }

  /** The character a two-character escape `\e` stands for inside quotes `q`. */
  function Escaped(e: char, q: char): Option<char> {
    if e == '\\' then Some('\\')
    else if e == q then Some(q)
    else if e == 't' then Some('\t')
    else if e == 'n' then Some('\n')
    else if e == 'r' then Some('\r')
    else None
  }

  /** Reads back the inside of a quoted `repr`: `None` when `t` holds an escape `repr` does not write. */
  function Unescape(t: string, q: char): Option<string>
    decreases |t|
  {
    if t == [] then Some("")
    else if t[0] != '\\' then Prepend(t[0], Unescape(t[1..], q))
    else if |t| < 2 then None
    else if t[1] == 'x' then
      if |t| < 4 then None
      else
        match (HexValue(t[2]), HexValue(t[3]))
        case (Some(high), Some(low)) => Prepend((16 * high + low) as char, Unescape(t[4..], q))
        case _ => None
    else
      match Escaped(t[1], q)
      case None => None
      case Some(c) => Prepend(c, Unescape(t[2..], q))
  }

  /** Reads a `repr` back: checks the quotes, strips them and undoes the escapes. */
  function Unrepr(r: string): Option<string> {
    if |r| < 2 || r[0] != r[|r| - 1] || (r[0] != '\'' && r[0] != '"') then None
    else Unescape(r[1..|r| - 1], r[0])
  }

  /** `repr` loses nothing: reading it back gives the string again. */
  lemma ReprRoundTrip(s: string)
    ensures Unrepr(Repr(s)) == Some(s)
  {
    var q := QuoteFor(s);
    var r := Repr(s);
    assert r[1..|r| - 1] == Escape(s, q);
    UnescapeEscape(s, q);
  }

  lemma {:induction false} UnescapeEscape(s: string, q: char)
    requires q == '\'' || q == '"'
    ensures Unescape(Escape(s, q), q) == Some(s)
    decreases |s|
  {
    if s != [] {
      UnescapeEscape(s[1..], q);
      UnescapeChar(s[0], q, Escape(s[1..], q));
      assert [s[0]] + s[1..] == s;
    }
  }

  /** One escaped character is read back, and reading goes on after it. */
  lemma UnescapeChar(c: char, q: char, rest: string)
    requires q == '\'' || q == '"'
    ensures Unescape(EscapeChar(c, q) + rest, q) == Prepend(c, Unescape(rest, q))
  {
    var e := EscapeChar(c, q);
    var t := e + rest;
    if |e| == 1 {
      assert t[1..] == rest;
    } else if |e| == 2 {
      assert t[2..] == rest;
    } else {
      var v := c as int;
      assert v < 256;
      HexDigitValue(v / 16);
      HexDigitValue(v % 16);
      assert t[4..] == rest;
      assert (16 * (v / 16) + v % 16) as char == c;
    }
  }

  lemma HexDigitValue(d: nat)
    requires d < 16
    ensures HexValue(HexDigit(d)) == Some(d)
  {
  }

  /** A character `repr` leaves as it is inside single quotes. */
  predicate Plain(c: char) {
    Printable(c) && c != '\\' && c != '\''
  }

  /** A string of plain characters is shown verbatim between single quotes. */
  lemma ReprPlain(s: string)
    requires forall i :: 0 <= i < |s| ==> Plain(s[i])
    ensures Repr(s) == "'" + s + "'"
  {
    EscapePlain(s);
  }

  lemma {:induction false} EscapePlain(s: string)
    requires forall i :: 0 <= i < |s| ==> Plain(s[i])
    ensures Escape(s, '\'') == s
    decreases |s|
  {
    if s != [] {
      EscapePlain(s[1..]);
      assert Plain(s[0]);
    }
  }
}

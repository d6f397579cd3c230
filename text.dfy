/** The pieces of Python's string behaviour that the chat session relies on:
    `str.isspace`, `str.strip`, `str.split()[0]`, `"\n".join`, `str.split("\n")`,
    `str(int)` for a non-negative integer, and `repr` of a string. Strings are
    sequences of Unicode scalar values; the lone surrogates a Python `str` can
    also hold are not modelled. */
module Text {
  import opened Wrappers

  /** Python's `str.isspace` for one character: the ASCII whitespace and
      separator controls, NEL, NBSP and the Unicode space separators. */
  predicate IsSpace(c: char) {
    c == '\t' || c == '\n' || c == '\U{B}' || c == '\U{C}' || c == '\r'
    || ('\U{1C}' <= c <= '\U{1F}') || c == ' ' || c == '\U{85}' || c == '\U{A0}'
    || c == '\U{1680}' || ('\U{2000}' <= c <= '\U{200A}') || c == '\U{2028}'
    || c == '\U{2029}' || c == '\U{202F}' || c == '\U{205F}' || c == '\U{3000}'
  }

  /** Every character of `s` is whitespace (the empty string included). */
  predicate IsBlank(s: string) {
    forall i :: 0 <= i < |s| ==> IsSpace(s[i])
  }

  /** The first index at or after `i` that does not hold whitespace, or `|s|`. */
  function SkipSpace(s: string, i: nat): (k: nat)
    requires i <= |s|
    ensures i <= k <= |s|
    ensures forall j :: i <= j < k ==> IsSpace(s[j])
    ensures k == |s| || !IsSpace(s[k])
    decreases |s| - i
  {
    if i < |s| && IsSpace(s[i]) then SkipSpace(s, i + 1) else i
  }

  /** The start of the whitespace run that ends `s[..e]`. */
  function BackSpace(s: string, e: nat): (k: nat)
    requires e <= |s|
    ensures k <= e
    ensures forall j :: k <= j < e ==> IsSpace(s[j])
    ensures k == 0 || !IsSpace(s[k - 1])
    decreases e
  {
    if e > 0 && IsSpace(s[e - 1]) then BackSpace(s, e - 1) else e
  }

  /** The end of the whitespace-free run that starts at `i`. */
  function WordEnd(s: string, i: nat): (k: nat)
    requires i <= |s|
    ensures i <= k <= |s|
    ensures forall j :: i <= j < k ==> !IsSpace(s[j])
    ensures k == |s| || IsSpace(s[k])
    decreases |s| - i
  {
    if i < |s| && !IsSpace(s[i]) then WordEnd(s, i + 1) else i
  }

  /** Python's `s.strip()`: `s` without its leading and trailing whitespace. It
      is empty exactly when `s` is blank, and otherwise starts and ends with a
      non-whitespace character of `s`. */
  function Strip(s: string): (r: string)
    ensures r == [] <==> IsBlank(s)
    ensures r != [] ==> !IsSpace(r[0]) && !IsSpace(r[|r| - 1])
    ensures |r| <= |s|
  {
    var lo := SkipSpace(s, 0);
    var hi := BackSpace(s, |s|);
    if lo == |s| then
      []
    else
      assert !IsSpace(s[lo]);
      s[lo..hi]
  }

  /** Python's `s.split()[0]`; `None` where that indexing raises, which is
      exactly when `s` is blank. The word is never empty and holds no
      whitespace. */
  function FirstWord(s: string): (r: Option<string>)
    ensures r.None? <==> IsBlank(s)
    ensures r.Some? ==> r.value != [] && forall j :: 0 <= j < |r.value| ==> !IsSpace(r.value[j])
  {
    var i := SkipSpace(s, 0);
    if i == |s| then
      None
    else
      assert !IsSpace(s[i]);
      var e := WordEnd(s, i);
      assert forall j :: 0 <= j < e - i ==> s[i..e][j] == s[i + j];
      Some(s[i..e])
  }

  /** The word `s.split()[0]` is the whitespace-free run `s[i..k]` that follows
      the leading whitespace `s[..i]` and ends at whitespace or at the end. */
  lemma FirstWordOfLeading(s: string, i: nat, k: nat)
    requires i < k <= |s|
    requires forall j :: 0 <= j < i ==> IsSpace(s[j])
    requires forall j :: i <= j < k ==> !IsSpace(s[j])
    requires k == |s| || IsSpace(s[k])
    ensures FirstWord(s) == Some(s[i..k])
  {
    assert SkipSpace(s, 0) == i by {
      var m := SkipSpace(s, 0);
      assert m <= i && i <= m by {
        assert m < |s| ==> !IsSpace(s[m]);
        assert i < |s| && !IsSpace(s[i]);
      }
    }
    assert WordEnd(s, i) == k by {
      var e := WordEnd(s, i);
      assert e == |s| || IsSpace(s[e]);
    }
  }

  /** A word without whitespace followed by whitespace is the first word. */
  lemma FirstWordOfName(word: string, rest: string)
    requires word != [] && forall j :: 0 <= j < |word| ==> !IsSpace(word[j])
    requires rest == [] || IsSpace(rest[0])
    ensures FirstWord(word + rest) == Some(word)
  {
    FirstWordOfLeading(word + rest, 0, |word|);
    assert (word + rest)[0..|word|] == word;
  }

  /** Python's `sep.join(xs)` for a one-character separator. */
  function Join(xs: seq<string>, sep: char): (r: string)
    decreases |xs|
  {
    if |xs| == 0 then ""
    else if |xs| == 1 then xs[0]
    else xs[0] + [sep] + Join(xs[1..], sep)
  }

  /** Python's `s.split(sep)` for a one-character separator: the maximal
      separator-free pieces, one more than there are separators. */
  function Split(s: string, sep: char): (parts: seq<string>)
    ensures |parts| >= 1
    decreases |s|
  {
    if s == [] then [""]
    else if s[0] == sep then [""] + Split(s[1..], sep)
    else
      var rest := Split(s[1..], sep);
      [[s[0]] + rest[0]] + rest[1..]
  }

  /** Splitting a separator-free prefix off at the first separator. */
  lemma {:induction false} SplitAtFirst(w: string, sep: char, tail: string)
    requires sep !in w
    ensures Split(w + [sep] + tail, sep) == [w] + Split(tail, sep)
    decreases |w|
  {
    if w == [] {
      assert w + [sep] + tail == [sep] + tail;
    } else {
      assert (w + [sep] + tail)[1..] == w[1..] + [sep] + tail;
      SplitAtFirst(w[1..], sep, tail);
      assert [w[0]] + w[1..] == w;
    }
  }

  /** A separator-free string splits into itself alone. */
  lemma {:induction false} SplitWithoutSep(w: string, sep: char)
    requires sep !in w
    ensures Split(w, sep) == [w]
    decreases |w|
  {
    if w != [] {
      SplitWithoutSep(w[1..], sep);
      assert [w[0]] + w[1..] == w;
    }
  }

  /** `s.split(sep)` undoes `sep.join(xs)` when no entry holds the separator and
      there is at least one entry (`"".split(sep)` is `[""]`, not `[]`). */
  lemma {:induction false} SplitJoin(xs: seq<string>, sep: char)
    requires xs != []
    requires forall k :: 0 <= k < |xs| ==> sep !in xs[k]
    ensures Split(Join(xs, sep), sep) == xs
    decreases |xs|
  {
    if |xs| == 1 {
      SplitWithoutSep(xs[0], sep);
    } else {
      SplitJoin(xs[1..], sep);
      SplitAtFirst(xs[0], sep, Join(xs[1..], sep));
      assert [xs[0]] + xs[1..] == xs;
    }
  }

  predicate IsDigit(c: char) {
    '0' <= c <= '9'
  }

  function DigitChar(d: nat): (c: char)
    requires d < 10
    ensures IsDigit(c)
  {
    (48 + d) as char
  }

  function DigitValue(c: char): (d: nat)
    requires IsDigit(c)
    ensures d < 10 && DigitChar(d) == c
  {
    (c as int - 48) as nat
  }

  /** Python's `str(n)` for a non-negative integer: decimal digits, no sign and
      no leading zero. */
  function NatToString(n: nat): (s: string)
    ensures |s| >= 1
    ensures forall i :: 0 <= i < |s| ==> IsDigit(s[i])
    ensures |s| > 1 ==> s[0] != '0'
    decreases n
  {
    if n < 10 then [DigitChar(n)] else NatToString(n / 10) + [DigitChar(n % 10)]
  }

  /** The value of a string of decimal digits (Python's `int(s)` on digits). */
  function ParseNat(s: string): nat
    requires forall i :: 0 <= i < |s| ==> IsDigit(s[i])
    decreases |s|
  {
    if s == [] then 0 else ParseNat(s[..|s| - 1]) * 10 + DigitValue(s[|s| - 1])
  }

  /** Reading back the decimal rendering of `n` gives `n`. */
  lemma {:induction false} ParseNatToString(n: nat)
    ensures ParseNat(NatToString(n)) == n
    decreases n
  {
    var s := NatToString(n);
    if n >= 10 {
      ParseNatToString(n / 10);
      assert s[..|s| - 1] == NatToString(n / 10);
      assert DigitValue(s[|s| - 1]) == n % 10;
    } else {
      assert DigitValue(s[0]) == n;
    }
  }

  /** The number of leading decimal digits of `s`. */
  function DigitRun(s: string): (k: nat)
    ensures k <= |s|
    ensures forall i :: 0 <= i < k ==> IsDigit(s[i])
    ensures k == |s| || !IsDigit(s[k])
    decreases |s|
  {
    if s != [] && IsDigit(s[0]) then 1 + DigitRun(s[1..]) else 0
  }

  /** The digit run of a digit string followed by a non-digit is that string. */
  lemma {:induction false} DigitRunOfDigits(d: string, tail: string)
    requires forall i :: 0 <= i < |d| ==> IsDigit(d[i])
    requires tail != [] && !IsDigit(tail[0])
    ensures DigitRun(d + tail) == |d|
    decreases |d|
  {
    if d != [] {
      assert (d + tail)[1..] == d[1..] + tail;
      DigitRunOfDigits(d[1..], tail);
    }
  }

  // ---- repr ----

  /** The characters Python's `str.isprintable` rejects: the controls, the
      format characters, the line and paragraph separators, the spaces other
      than the ASCII space, and the private-use planes. Code points the Unicode
      database leaves unassigned are not listed, apart from those inside the
      ranges below. */
  predicate Unprintable(c: char) {
    c < ' ' || ('\U{7F}' <= c <= '\U{A0}') || c == '\U{AD}'
    || ('\U{600}' <= c <= '\U{605}') || c == '\U{61C}' || c == '\U{6DD}' || c == '\U{70F}'
    || c == '\U{890}' || c == '\U{891}' || c == '\U{8E2}' || c == '\U{180E}' || c == '\U{1680}'
    || ('\U{2000}' <= c <= '\U{200F}') || ('\U{2028}' <= c <= '\U{202F}')
    || ('\U{205F}' <= c <= '\U{206F}') || c == '\U{3000}' || ('\U{E000}' <= c <= '\U{F8FF}')
    || c == '\U{FEFF}' || ('\U{FFF9}' <= c <= '\U{FFFB}') || c == '\U{FFFE}' || c == '\U{FFFF}'
    || c == '\U{110BD}' || c == '\U{110CD}' || ('\U{13430}' <= c <= '\U{1343F}')
    || ('\U{1BCA0}' <= c <= '\U{1BCA3}') || ('\U{1D173}' <= c <= '\U{1D17A}')
    || ('\U{E0001}' <= c <= '\U{E007F}') || c >= '\U{F0000}'
  }

  function HexDigit(d: nat): (c: char)
    requires d < 16
  {
    if d < 10 then (48 + d) as char else (87 + d) as char
  }

  /** `n` in `width` lower-case hexadecimal digits. */
  function Hex(n: nat, width: nat): (s: string)
    ensures |s| == width
  {
    if width == 0 then "" else Hex(n / 16, width - 1) + [HexDigit(n % 16)]
  }

  /** How `repr` writes one character inside the quotes `quote`. */
  function Escape(c: char, quote: char): string {
    if c == quote || c == '\\' then ['\\', c]
    else if c == '\t' then "\\t"
    else if c == '\n' then "\\n"
    else if c == '\r' then "\\r"
    else if Unprintable(c) then
      if c <= '\U{FF}' then "\\x" + Hex(c as int, 2)
      else if c <= '\U{FFFF}' then "\\u" + Hex(c as int, 4)
      else "\\U" + Hex(c as int, 8)
    else [c]
  }

  function EscapeAll(s: string, quote: char): string
    decreases |s|
  {
    if s == [] then [] else Escape(s[0], quote) + EscapeAll(s[1..], quote)
  }

  /** Python's `repr` of a string, which is also what `str` of a `KeyError`
      shows: double quotes when the string holds a single quote and no double
      quote, single quotes otherwise, with the quote, the backslash and the
      unprintable characters escaped. */
  function Repr(s: string): (r: string)
    ensures |r| >= 2 && r[0] == r[|r| - 1] && (r[0] == '\'' || r[0] == '"')
    ensures r[0] == '"' <==> '\'' in s && '"' !in s
  {
    var quote := if '\'' in s && '"' !in s then '"' else '\'';
    [quote] + EscapeAll(s, quote) + [quote]
  }

  /** A character `repr` writes as itself under single quotes. */
  predicate Plain(c: char) {
    c != '\'' && c != '\\' && !Unprintable(c)
  }

  lemma {:induction false} EscapeAllPlain(s: string)
    requires forall i :: 0 <= i < |s| ==> Plain(s[i])
    ensures EscapeAll(s, '\'') == s
    decreases |s|
  {
    if s != [] {
      EscapeAllPlain(s[1..]);
    }
  }

  /** A string of printable characters without quote or backslash is shown
      between single quotes as it is. */
  lemma ReprOfPlain(s: string)
    requires forall i :: 0 <= i < |s| ==> Plain(s[i])
    ensures Repr(s) == "'" + s + "'"
  {
    assert '\'' !in s by {
      forall i | 0 <= i < |s|
        ensures s[i] != '\''
      {
      }
    }
    EscapeAllPlain(s);
  }

  /** Escaping distributes over concatenation. */
  lemma {:induction false} EscapeAllAppend(a: string, b: string, quote: char)
    ensures EscapeAll(a + b, quote) == EscapeAll(a, quote) + EscapeAll(b, quote)
    decreases |a|
  {
    if a == [] {
      assert a + b == b;
    } else {
      assert (a + b)[0] == a[0];
      assert (a + b)[1..] == a[1..] + b;
      EscapeAllAppend(a[1..], b, quote);
    }
  }

  /** The zero-width joiner, which joins the emoji of several role names, is
      unprintable and shown as `\u200d`. */
  lemma EscapeJoiner(quote: char)
    requires quote == '\'' || quote == '"'
    ensures Escape('\U{200D}', quote) == "\\u200d"
  {
    assert Hex(8205, 4) == "200d" by {
      assert Hex(2, 1) == "2";
      assert Hex(32, 2) == "20";
      assert Hex(512, 3) == "200";
    }
  }

  /** A name whose emoji are glued by a zero-width joiner is not shown as it
      is: around printable parts without quote or backslash, `repr` writes the
      joiner as `\u200d`. */
  lemma ReprOfJoined(a: string, b: string)
    requires forall i :: 0 <= i < |a| ==> Plain(a[i])
    requires forall i :: 0 <= i < |b| ==> Plain(b[i])
    ensures Repr(a + "\U{200D}" + b) == "'" + a + "\\u200d" + b + "'"
  {
    var s := a + "\U{200D}" + b;
    assert '\'' !in s by {
      forall i | 0 <= i < |s|
        ensures s[i] != '\''
      {
        if i < |a| {
          assert s[i] == a[i];
        } else if i > |a| {
          assert s[i] == b[i - |a| - 1];
        }
      }
    }
    EscapeAllPlain(a);
    EscapeAllPlain(b);
    EscapeJoiner('\'');
    assert EscapeAll("\U{200D}", '\'') == "\\u200d";
    EscapeAllAppend(a, "\U{200D}", '\'');
    EscapeAllAppend(a + "\U{200D}", b, '\'');
  }
}

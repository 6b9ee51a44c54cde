/**
  `yamlQuote` (internal/reconciler/backing.go:178-201): how a value is written into a rendered compose file.
  Strings are sequences of Unicode scalar values.  The reader is YAML 1.2.2's double-quoted scalar
  (sections 5.7 and 7.3.1), and docker compose's `$$`.
*/
module Yaml {
  import opened Prelude

  // ---------------------------------------------------------------- the writer

  /** `strings.ReplaceAll` of a one-character needle. */
  function ReplaceAll(s: string, needle: char, with: string): string {
    if s == "" then "" else (if s[0] == needle then with else [s[0]]) + ReplaceAll(s[1..], needle, with)
  }

  function HexDigit(n: nat): char
    requires n < 16
  {
    "0123456789abcdef"[n]
  }

  /** `\u%04x` of a control character. */
  function UnicodeEscape(c: char): string
    requires c < ' '
  {
    "\\u00" + [HexDigit(c as int / 16), HexDigit(c as int % 16)]
  }

  function EscapeControl(c: char): string {
    if c < ' ' then UnicodeEscape(c) else [c]
  }

  function Controls(s: string): string {
    if s == "" then "" else Controls(s[..|s| - 1]) + EscapeControl(s[|s| - 1])
  }

  /** What one character becomes. */
  function Escape(c: char): string {
    match c
    case '\\' => "\\\\"
    case '\"' => "\\\""
    case '\n' => "\\n"
    case '\r' => "\\r"
    case '\t' => "\\t"
    case '$' => "$$"
    case _ => EscapeControl(c)
  }

  function Escaped(s: string): string {
    if s == "" then "" else Escape(s[0]) + Escaped(s[1..])
  }

  /** Everything before the control-character loop. */
  function ShortEscapes(s: string): string {
    ReplaceAll(ReplaceAll(ReplaceAll(ReplaceAll(ReplaceAll(s, '\\', "\\\\"), '\"', "\\\""), '\n', "\\n"), '\r', "\\r"),
      '\t', "\\t")
  }

  function Passes(s: string): string {
    ReplaceAll(Controls(ShortEscapes(s)), '$', "$$")
  }

  /** `yamlQuote`: five passes, a builder loop, one more pass, and the quotes. */
  method YamlQuote(s: string) returns (quoted: string)
    ensures quoted == "\"" + Escaped(s) + "\""
  {
    hide ReplaceAll, Escaped;
    var t := ReplaceAll(s, '\\', "\\\\");
    t := ReplaceAll(t, '\"', "\\\"");
    t := ReplaceAll(t, '\n', "\\n");
    t := ReplaceAll(t, '\r', "\\r");
    t := ReplaceAll(t, '\t', "\\t");
    var b := "";
    for i := 0 to |t|
      invariant b == Controls(t[..i])
    {
      assert t[..i + 1][..i] == t[..i];
      if t[i] < ' ' {
        b := b + UnicodeEscape(t[i]);
      } else {
        b := b + [t[i]];
      }
    }
    assert t[..|t|] == t;
    PassesAreEscapes(s);
    quoted := "\"" + ReplaceAll(b, '$', "$$") + "\"";
  }

  // ---------------------------------------------------------------- the passes are one per-character escape

  lemma {:induction false} ReplaceAllConcat(a: string, b: string, needle: char, with: string)
    ensures ReplaceAll(a + b, needle, with) == ReplaceAll(a, needle, with) + ReplaceAll(b, needle, with)
  {
    if a == "" {
      assert a + b == b;
    } else {
      assert (a + b)[1..] == a[1..] + b;
      ReplaceAllConcat(a[1..], b, needle, with);
    }
  }

  lemma {:induction false} ControlsConcat(a: string, b: string)
    ensures Controls(a + b) == Controls(a) + Controls(b)
  {
    hide EscapeControl;
    if b == "" {
      assert a + b == a;
    } else {
      assert (a + b)[..|a + b| - 1] == a + b[..|b| - 1];
      ControlsConcat(a, b[..|b| - 1]);
    }
  }

  lemma PassesConcat(a: string, b: string)
    ensures Passes(a + b) == Passes(a) + Passes(b)
  {
    var a1, b1 := ReplaceAll(a, '\\', "\\\\"), ReplaceAll(b, '\\', "\\\\");
    ReplaceAllConcat(a, b, '\\', "\\\\");
    var a2, b2 := ReplaceAll(a1, '\"', "\\\""), ReplaceAll(b1, '\"', "\\\"");
    ReplaceAllConcat(a1, b1, '\"', "\\\"");
    var a3, b3 := ReplaceAll(a2, '\n', "\\n"), ReplaceAll(b2, '\n', "\\n");
    ReplaceAllConcat(a2, b2, '\n', "\\n");
    var a4, b4 := ReplaceAll(a3, '\r', "\\r"), ReplaceAll(b3, '\r', "\\r");
    ReplaceAllConcat(a3, b3, '\r', "\\r");
    var a5, b5 := ReplaceAll(a4, '\t', "\\t"), ReplaceAll(b4, '\t', "\\t");
    ReplaceAllConcat(a4, b4, '\t', "\\t");
    ControlsConcat(a5, b5);
    ReplaceAllConcat(Controls(a5), Controls(b5), '$', "$$");
  }

  lemma ReplaceOne(c: char, needle: char, with: string)
    ensures ReplaceAll([c], needle, with) == if c == needle then with else [c]
  {
    assert [c][1..] == "";
  }

  lemma ReplaceTwo(c: char, d: char, needle: char, with: string)
    requires c != needle && d != needle
    ensures ReplaceAll([c, d], needle, with) == [c, d]
  {
    assert [c, d] == [c] + [d];
    ReplaceAllConcat([c], [d], needle, with);
    ReplaceOne(c, needle, with);
    ReplaceOne(d, needle, with);
  }

  lemma PassesOfOne(c: char)
    ensures Passes([c]) == Escape(c)
  {
    hide ReplaceAll, Controls, UnicodeEscape;
    ShortEscapesOfOne(c);
    if c in {'\\', '\"', '\n', '\r', '\t'} {
      var e := ShortEscapes([c]);
      assert e == [e[0], e[1]];
      ControlsOfTwo(e[0], e[1]);
      ReplaceTwo(e[0], e[1], '$', "$$");
    } else {
      ControlsOfOne(c);
      if c < ' ' {
        NoDollarInEscape(c);
      } else {
        ReplaceOne(c, '$', "$$");
      }
    }
  }

  lemma ShortEscapesOfOne(c: char)
    ensures ShortEscapes([c]) ==
      match c
      case '\\' => "\\\\"
      case '\"' => "\\\""
      case '\n' => "\\n"
      case '\r' => "\\r"
      case '\t' => "\\t"
      case _ => [c]
  {
    hide ReplaceAll;
    ReplaceOne(c, '\\', "\\\\");
    if c == '\\' {
      assert "\\\\" == ['\\', '\\'];
      ReplaceTwo('\\', '\\', '\"', "\\\"");
      ReplaceTwo('\\', '\\', '\n', "\\n");
      ReplaceTwo('\\', '\\', '\r', "\\r");
      ReplaceTwo('\\', '\\', '\t', "\\t");
    } else {
      ReplaceOne(c, '\"', "\\\"");
      ReplaceOne(c, '\n', "\\n");
      ReplaceOne(c, '\r', "\\r");
      ReplaceOne(c, '\t', "\\t");
      assert "\\\"" == ['\\', '\"'] && "\\n" == ['\\', 'n'] && "\\r" == ['\\', 'r'];
      ReplaceTwo('\\', '\"', '\n', "\\n");
      ReplaceTwo('\\', '\"', '\r', "\\r");
      ReplaceTwo('\\', '\"', '\t', "\\t");
      ReplaceTwo('\\', 'n', '\r', "\\r");
      ReplaceTwo('\\', 'n', '\t', "\\t");
      ReplaceTwo('\\', 'r', '\t', "\\t");
    }
  }

  lemma ControlsOfOne(c: char)
    ensures Controls([c]) == EscapeControl(c)
  {
    assert [c][..0] == "";
  }

  lemma ControlsOfTwo(c: char, d: char)
    requires c >= ' ' && d >= ' '
    ensures Controls([c, d]) == [c, d]
  {
    assert [c, d] == [c] + [d];
    ControlsConcat([c], [d]);
    ControlsOfOne(c);
    ControlsOfOne(d);
  }

  lemma NoDollarInEscape(c: char)
    requires c < ' '
    ensures ReplaceAll(UnicodeEscape(c), '$', "$$") == UnicodeEscape(c)
  {
    var e := UnicodeEscape(c);
    assert e == ['\\', 'u'] + (['0', '0'] + [e[4], e[5]]);
    ReplaceAllConcat(['\\', 'u'], ['0', '0'] + [e[4], e[5]], '$', "$$");
    ReplaceAllConcat(['0', '0'], [e[4], e[5]], '$', "$$");
    ReplaceTwo('\\', 'u', '$', "$$");
    ReplaceTwo('0', '0', '$', "$$");
    ReplaceTwo(e[4], e[5], '$', "$$");
  }

  /** No pass sees what an earlier one wrote: in order, they amount to escaping each character once. */
  lemma {:induction false} PassesAreEscapes(s: string)
    ensures Passes(s) == Escaped(s)
  {
    if s != "" {
      assert s == [s[0]] + s[1..];
      PassesConcat([s[0]], s[1..]);
      PassesOfOne(s[0]);
      PassesAreEscapes(s[1..]);
    }
  }

  // ---------------------------------------------------------------- the reader

  function DigitValue(c: char): Option<nat> {
    if '0' <= c <= '9' then Some(c as int - '0' as int)
    else if 'a' <= c <= 'f' then Some(c as int - 'a' as int + 10)
    else if 'A' <= c <= 'F' then Some(c as int - 'A' as int + 10)
    else None
  }

  function HexValue(s: string): Option<nat> {
    if s == "" then Some(0)
    else match (HexValue(s[..|s| - 1]), DigitValue(s[|s| - 1]))
      case (Some(high), Some(low)) => Some(16 * high + low)
      case _ => None
  }

  /** The character that `n` hexadecimal digits after a two-character escape name. */
  function HexEscape(t: string, n: nat): Option<char> {
    if |t| < 2 + n then None
    else match HexValue(t[2..2 + n])
      case Some(v) => if v < 0xD800 || 0xE000 <= v < 0x11_0000 then Some(v as char) else None
      case None => None
  }

  /** The one-letter escapes. */
  function ShortEscape(c: char): Option<char> {
    match c
    case '0' => Some(0 as char)
    case 'a' => Some(7 as char)
    case 'b' => Some(8 as char)
    case 't' => Some('\t')
    case '\t' => Some('\t')
    case 'n' => Some('\n')
    case 'v' => Some(11 as char)
    case 'f' => Some(12 as char)
    case 'r' => Some('\r')
    case 'e' => Some(27 as char)
    case ' ' => Some(' ')
    case '\"' => Some('\"')
    case '/' => Some('/')
    case '\\' => Some('\\')
    case 'N' => Some(0x85 as char)
    case '_' => Some(0xA0 as char)
    case 'L' => Some(0x2028 as char)
    case 'P' => Some(0x2029 as char)
    case _ => None
  }

  function Cons(c: char, rest: Option<string>): Option<string> {
    match rest
    case Some(s) => Some([c] + s)
    case None => None
  }

  /**
    The content of a double-quoted scalar with body `t`.  A bare quote would end the scalar early and a
    control character may not stand in it, so a body with either has no content.
  */
  function Unquote(t: string): Option<string>
    decreases |t|
  {
    if t == "" then Some("")
    else if t[0] == '\"' then None
    else if t[0] == '\\' then
      if |t| < 2 then None
      else
        var n := if t[1] == 'x' then 2 else if t[1] == 'u' then 4 else if t[1] == 'U' then 8 else 0;
        var c := if n == 0 then ShortEscape(t[1]) else HexEscape(t, n);
        if c.None? then None else Cons(c.value, Unquote(t[2 + n..]))
    else if t[0] < ' ' && t[0] != '\t' then None
    else Cons(t[0], Unquote(t[1..]))
  }

  /** Compose's reading of a value: `$$` is a dollar, and any other `$` would start an interpolation. */
  function Undollar(t: string): Option<string>
    decreases |t|
  {
    if t == "" then Some("")
    else if t[0] == '$' then
      if |t| < 2 || t[1] != '$' then None else Cons('$', Undollar(t[2..]))
    else Cons(t[0], Undollar(t[1..]))
  }

  // ---------------------------------------------------------------- round trips

  function Dollared(s: string): string {
    ReplaceAll(s, '$', "$$")
  }

  /** The escapes without the dollar pass. */
  function Quoted(s: string): string {
    if s == "" then "" else (if s[0] == '$' then "$" else Escape(s[0])) + Quoted(s[1..])
  }

  lemma UnquotePlain(c: char, rest: string)
    requires c >= ' ' && c != '\"' && c != '\\'
    ensures Unquote([c] + rest) == Cons(c, Unquote(rest))
  {
    assert ([c] + rest)[1..] == rest;
  }

  lemma UnquoteShort(c: char, d: char, rest: string)
    requires ShortEscape(c) == Some(d) && c !in {'x', 'u', 'U'}
    ensures Unquote(['\\', c] + rest) == Cons(d, Unquote(rest))
  {
    assert (['\\', c] + rest)[2..] == rest;
  }

  lemma HexDigitValue(n: nat)
    requires n < 16
    ensures DigitValue(HexDigit(n)) == Some(n)
  {
  }

  lemma UnquoteControl(c: char, rest: string)
    requires c < ' '
    ensures Unquote(UnicodeEscape(c) + rest) == Cons(c, Unquote(rest))
  {
    var t := UnicodeEscape(c) + rest;
    var high, low := HexDigit(c as int / 16), HexDigit(c as int % 16);
    HexDigitValue(c as int / 16);
    HexDigitValue(c as int % 16);
    assert t[2..6] == ['0', '0', high, low];
    HexOfFour(high, low);
    assert t[6..] == rest;
  }

  lemma HexOfFour(high: char, low: char)
    requires DigitValue(high).Some? && DigitValue(low).Some?
    ensures HexValue(['0', '0', high, low]) == Some(16 * DigitValue(high).value + DigitValue(low).value)
  {
    var s := ['0', '0', high, low];
    assert ['0'][..0] == "" && HexValue(['0']) == Some(0);
    assert ['0', '0'][..1] == ['0'] && HexValue(['0', '0']) == Some(0);
    assert ['0', '0', high][..2] == ['0', '0'] && HexValue(['0', '0', high]) == DigitValue(high);
    assert s[..3] == ['0', '0', high];
  }

  /** Reading back what was written for one character. */
  lemma UnquoteEscape(c: char, rest: string)
    requires c != '$'
    ensures Unquote(Escape(c) + rest) == Cons(c, Unquote(rest))
  {
    hide Unquote, UnicodeEscape;
    match c
    case '\\' => UnquoteShort('\\', '\\', rest);
    case '\"' => UnquoteShort('\"', '\"', rest);
    case '\n' => UnquoteShort('n', '\n', rest);
    case '\r' => UnquoteShort('r', '\r', rest);
    case '\t' => UnquoteShort('t', '\t', rest);
    case _ =>
      if c < ' ' {
        UnquoteControl(c, rest);
      } else {
        UnquotePlain(c, rest);
      }
  }

  lemma {:induction false} UnquoteEscaped(s: string)
    ensures Unquote(Escaped(s)) == Some(Dollared(s))
    ensures Unquote(Quoted(s)) == Some(s)
  {
    hide Unquote, Escape;
    if s == "" {
      UnquoteEmpty();
    } else {
      UnquoteEscaped(s[1..]);
      assert s == [s[0]] + s[1..];
      if s[0] == '$' {
        assert "$$" + Dollared(s[1..]) == ['$'] + (['$'] + Dollared(s[1..]));
        assert Escape('$') == "$$" by { EscapeDollar(); }
        assert "$$" + Escaped(s[1..]) == ['$'] + (['$'] + Escaped(s[1..]));
        UnquotePlain('$', ['$'] + Escaped(s[1..]));
        UnquotePlain('$', Escaped(s[1..]));
        UnquotePlain('$', Quoted(s[1..]));
        assert "$" == ['$'];
      } else {
        UnquoteEscape(s[0], Escaped(s[1..]));
        UnquoteEscape(s[0], Quoted(s[1..]));
      }
    }
  }

  lemma UnquoteEmpty()
    ensures Unquote("") == Some("")
  {
  }

  lemma EscapeDollar()
    ensures Escape('$') == "$$"
  {
  }

  lemma {:induction false} UndollarOver(a: string, rest: string)
    requires '$' !in a
    ensures Undollar(a + rest) == match Undollar(rest) case Some(s) => Some(a + s) case None => None
  {
    if a == "" {
      assert a + rest == rest;
      assert Undollar(rest).Some? ==> a + Undollar(rest).value == Undollar(rest).value;
    } else {
      assert (a + rest)[1..] == a[1..] + rest;
      UndollarOver(a[1..], rest);
      if Undollar(rest).Some? {
        assert a + Undollar(rest).value == [a[0]] + (a[1..] + Undollar(rest).value);
      }
    }
  }

  lemma NoDollarIn(c: char)
    requires c != '$'
    ensures '$' !in Escape(c)
  {
    if c < ' ' && c !in {'\n', '\r', '\t'} {
      assert HexDigit(c as int / 16) != '$' && HexDigit(c as int % 16) != '$';
    }
  }

  lemma {:induction false} UndollarEscaped(s: string)
    ensures Undollar(Escaped(s)) == Some(Quoted(s))
    ensures Undollar(Dollared(s)) == Some(s)
  {
    hide Escape;
    if s != "" {
      UndollarEscaped(s[1..]);
      assert s == [s[0]] + s[1..];
      if s[0] == '$' {
        EscapeDollar();
        assert ("$$" + Escaped(s[1..]))[2..] == Escaped(s[1..]);
        assert ("$$" + Dollared(s[1..]))[2..] == Dollared(s[1..]);
      } else {
        NoDollarIn(s[0]);
        UndollarOver(Escape(s[0]), Escaped(s[1..]));
        UndollarOver([s[0]], Dollared(s[1..]));
      }
    }
  }

  function Then(a: Option<string>, f: string -> Option<string>): Option<string> {
    if a.None? then None else f(a.value)
  }

  /** The value comes back whether the scalar is read first and then interpolated, or the other way round. */
  lemma YamlQuoteRoundTrips(s: string)
    ensures Then(Unquote(Escaped(s)), t => Undollar(t)) == Some(s)
    ensures Then(Undollar(Escaped(s)), t => Unquote(t)) == Some(s)
  {
    UnquoteEscaped(s);
    UndollarEscaped(s);
  }

  // ---------------------------------------------------------------- what the body may contain

  /** Where a scanner that has just passed the opening quote finds the closing one; -1 if it never does. */
  function ClosingQuote(t: string, i: nat): int
    requires i <= |t|
    decreases |t| - i
  {
    if i == |t| then -1
    else if t[i] == '\"' then i
    else if t[i] == '\\' then (if i + 1 == |t| then -1 else ClosingQuote(t, i + 2))
    else ClosingQuote(t, i + 1)
  }

  lemma {:induction false} ScansOver(before: string, s: string, after: string)
    ensures ClosingQuote(before + Escaped(s) + "\"" + after, |before|) == |before| + |Escaped(s)|
    decreases |s|
  {
    hide Escape;
    var t := before + Escaped(s) + "\"" + after;
    if s == "" {
      assert t[|before|] == '\"';
    } else {
      var e := Escape(s[0]);
      assert before + e + Escaped(s[1..]) + "\"" + after == t;
      ScansOver(before + e, s[1..], after);
      ScansEscape(t, |before|, s[0]);
    }
  }

  lemma ScansEscape(t: string, i: nat, c: char)
    requires i + |Escape(c)| <= |t| && t[i..i + |Escape(c)|] == Escape(c)
    ensures ClosingQuote(t, i) == ClosingQuote(t, i + |Escape(c)|)
  {
    var e := Escape(c);
    forall k | 0 <= k < |e| ensures t[i + k] == e[k] {
      assert t[i..i + |e|][k] == e[k];
    }
    if c < ' ' && c !in {'\n', '\r', '\t'} {
      assert |e| == 6 && e[0] == '\\' && e[1] == 'u' && e[2] == '0' && e[3] == '0';
      assert HexDigit(c as int / 16) !in {'\"', '\\'} && HexDigit(c as int % 16) !in {'\"', '\\'};
      assert ClosingQuote(t, i) == ClosingQuote(t, i + 2);
      assert ClosingQuote(t, i + 2) == ClosingQuote(t, i + 3);
      assert ClosingQuote(t, i + 3) == ClosingQuote(t, i + 4);
      assert ClosingQuote(t, i + 4) == ClosingQuote(t, i + 5);
    }
  }

  /** The scalar ends where it should: the first unescaped quote is the one `yamlQuote` closes with. */
  lemma QuoteIsNotEscapable(s: string, after: string)
    ensures ClosingQuote(Escaped(s) + "\"" + after, 0) == |Escaped(s)|
  {
    ScansOver("", s, after);
    assert "" + Escaped(s) + "\"" + after == Escaped(s) + "\"" + after;
  }

  lemma EscapeHasNoControls(c: char)
    ensures forall e | e in Escape(c) :: e >= ' '
  {
    if c < ' ' && c !in {'\n', '\r', '\t'} {
      assert HexDigit(c as int / 16) >= ' ' && HexDigit(c as int % 16) >= ' ';
    }
  }

  /** No line break or other control character reaches the document. */
  lemma {:induction false} NoControls(s: string)
    ensures forall c | c in Escaped(s) :: c >= ' '
  {
    hide Escape;
    if s != "" {
      EscapeHasNoControls(s[0]);
      NoControls(s[1..]);
    }
  }

  /** The length of the run of dollars that starts at `i`. */
  function DollarRun(t: string, i: nat): nat
    requires i <= |t|
    decreases |t| - i
  {
    if i == |t| || t[i] != '$' then 0 else 1 + DollarRun(t, i + 1)
  }

  lemma {:induction false} DollarRunTail(t: string, i: nat)
    requires 1 <= i <= |t|
    ensures DollarRun(t, i) == DollarRun(t[1..], i - 1)
    decreases |t| - i
  {
    if i < |t| { DollarRunTail(t, i + 1); }
  }

  /** Whatever reads back without an interpolation has dollars in pairs only. */
  lemma {:induction false} PairedDollars(t: string, i: nat)
    requires Undollar(t).Some? && i < |t| && t[i] == '$' && (i == 0 || t[i - 1] != '$')
    ensures DollarRun(t, i) % 2 == 0
    decreases |t|
  {
    if i > 0 {
      DollarRunTail(t, i);
      if t[0] != '$' {
        PairedDollars(t[1..], i - 1);
      } else {
        DollarRunTail(t[1..], i - 1);
        PairedDollars(t[2..], i - 2);
      }
    } else {
      LeadingDollars(t);
    }
  }

  lemma {:induction false} LeadingDollars(t: string)
    requires Undollar(t).Some?
    ensures DollarRun(t, 0) % 2 == 0
    decreases |t|
  {
    if t != "" && t[0] == '$' {
      LeadingDollars(t[2..]);
      DollarRunTail(t, 1);
      DollarRunTail(t, 2);
      DollarRunTail(t[1..], 1);
    }
  }

  /** Every maximal run of dollars in the body has even length, so compose interpolates nothing. */
  lemma DollarsComeInPairs(s: string, i: nat)
    requires i < |Escaped(s)| && Escaped(s)[i] == '$' && (i == 0 || Escaped(s)[i - 1] != '$')
    ensures DollarRun(Escaped(s), i) % 2 == 0
  {
    UndollarEscaped(s);
    PairedDollars(Escaped(s), i);
  }
}

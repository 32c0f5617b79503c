/** `escapeForJS` (app.js:729-731), which prepares the executed code for the
    copy button's handler, where it is placed inside a JavaScript template
    literal (app.js:690); and the text such a template literal denotes. */
module Escaping {
  import opened Wrappers

  /** The characters `escapeForJS` escapes. */
  predicate IsSpecial(c: char) {
    c == '`' || c == '$'
  }

  /** The number of occurrences of `c` in `s`. */
  function Count(s: string, c: char): nat {
    if s == [] then 0 else (if s[0] == c then 1 else 0) + Count(s[1..], c)
  }

  /** `s.replace(/c/g, '\\' + c)`: every occurrence of `c` gains a backslash in
      front of it, every other character is copied. */
  function ReplaceChar(s: string, c: char): (r: string)
    ensures |r| == |s| + Count(s, c)
  {
    if s == [] then []
    else (if s[0] == c then ['\\', c] else [s[0]]) + ReplaceChar(s[1..], c)
  }

  lemma {:induction false} ReplaceCharAppend(a: string, b: string, c: char)
    ensures ReplaceChar(a + b, c) == ReplaceChar(a, c) + ReplaceChar(b, c)
    decreases |a|
  {
    if a == [] {
      assert a + b == b;
    } else {
      assert (a + b)[0] == a[0] && (a + b)[1..] == a[1..] + b;
      ReplaceCharAppend(a[1..], b, c);
    }
  }

  /** Reference definition: each backtick and each `$` is replaced by itself
      behind a backslash, every other character stands for itself. */
  function EscapeEach(s: string): (r: string)
    ensures |r| == |s| + Count(s, '`') + Count(s, '$')
  {
    if s == [] then []
    else (if IsSpecial(s[0]) then ['\\', s[0]] else [s[0]]) + EscapeEach(s[1..])
  }

  lemma ReplaceCharSingle(c: char, d: char)
    ensures ReplaceChar([c], d) == if c == d then ['\\', d] else [c]
  {
    assert [c][1..] == [];
  }

  /** The two global replacements compose into one per-character escape,
      because the backslashes the first one inserts are not `$`. */
  lemma {:induction false} TwoPassesEscapeEach(s: string)
    ensures ReplaceChar(ReplaceChar(s, '`'), '$') == EscapeEach(s)
    decreases |s|
  {
    if s != [] {
      var c := s[0];
      var head := if c == '`' then ['\\', '`'] else [c];
      assert ReplaceChar(s, '`') == head + ReplaceChar(s[1..], '`');
      ReplaceCharAppend(head, ReplaceChar(s[1..], '`'), '$');
      if c == '`' {
        assert head == ['\\'] + ['`'];
        ReplaceCharAppend(['\\'], ['`'], '$');
        ReplaceCharSingle('\\', '$');
        ReplaceCharSingle('`', '$');
      } else {
        ReplaceCharSingle(c, '$');
      }
      TwoPassesEscapeEach(s[1..]);
    }
  }

  /** `escapeForJS`: backticks are escaped first, then dollar signs. The result
      is the per-character escape: one backslash more per backtick and per `$`. */
  function EscapeForJS(text: string): (r: string)
    ensures r == EscapeEach(text)
    ensures |r| == |text| + Count(text, '`') + Count(text, '$')
  {
    TwoPassesEscapeEach(text);
    ReplaceChar(ReplaceChar(text, '`'), '$')
  }

  /** Every backtick and `$` of an escaped text sits directly behind a backslash. */
  lemma {:induction false} EscapedSpecialsAreGuarded(s: string)
    ensures forall i :: 0 <= i < |EscapeEach(s)| && IsSpecial(EscapeEach(s)[i])
                        ==> i > 0 && EscapeEach(s)[i - 1] == '\\'
    decreases |s|
  {
    if s != [] {
      var head := if IsSpecial(s[0]) then ['\\', s[0]] else [s[0]];
      var e := EscapeEach(s);
      var tail := EscapeEach(s[1..]);
      assert e == head + tail;
      EscapedSpecialsAreGuarded(s[1..]);
      forall i | 0 <= i < |e| && IsSpecial(e[i]) ensures i > 0 && e[i - 1] == '\\' {
        if i >= |head| {
          assert e[i] == tail[i - |head|];
        }
      }
    }
  }

  lemma EscapeEachNeverStartsSpecial(s: string)
    ensures EscapeEach(s) != [] ==> !IsSpecial(EscapeEach(s)[0])
  {
  }

  /** Inverse of the escape: a backslash followed by a backtick or `$` stands for
      that character, anything else for itself. */
  function UnescapeForJS(r: string): string {
    if r == [] then []
    else if |r| >= 2 && r[0] == '\\' && IsSpecial(r[1]) then [r[1]] + UnescapeForJS(r[2..])
    else [r[0]] + UnescapeForJS(r[1..])
  }

  /** No information is lost: unescaping the output of `escapeForJS` gives back
      the original text. */
  lemma {:induction false} EscapeForJSRoundTrip(s: string)
    ensures UnescapeForJS(EscapeForJS(s)) == s
    decreases |s|
  {
    if s != [] {
      var tail := EscapeEach(s[1..]);
      EscapeForJSRoundTrip(s[1..]);
      EscapeEachNeverStartsSpecial(s[1..]);
      if IsSpecial(s[0]) {
        assert EscapeEach(s) == ['\\', s[0]] + tail;
        assert (['\\', s[0]] + tail)[2..] == tail;
      } else {
        assert EscapeEach(s) == [s[0]] + tail;
        assert ([s[0]] + tail)[1..] == tail;
      }
    }
  }

  // ---------------------------------------------------------------------------
  // Reading the escaped text back as the body of a template literal.

  /** Escape letters whose meaning (hexadecimal, unicode, octal-like digits, line
      continuations) this model does not interpret. */
  predicate IsUninterpretedEscape(c: char) {
    ('0' <= c <= '9') || c == 'x' || c == 'u'
    || c == '\n' || c == '\r' || c == '\U{2028}' || c == '\U{2029}'
  }

  /** The character a backslash followed by `c` denotes: the six control-character
      escapes, and `c` itself for every other interpreted escape. */
  function EscapedChar(c: char): char {
    match c
    case 'b' => '\U{0008}'
    case 'f' => '\U{000C}'
    case 'n' => '\n'
    case 'r' => '\r'
    case 't' => '\t'
    case 'v' => '\U{000B}'
    case _ => c
  }

  function Prepend(c: char, rest: Option<string>): Option<string> {
    match rest
    case Some(t) => Some([c] + t)
    case None => None
  }

  /** The text denoted by a template literal whose body is `body`, or None when
      an unescaped backtick closes the literal early, an unescaped `${` opens a
      substitution, the body ends in a lone backslash, or an escape is one this
      model leaves uninterpreted. A carriage return in the body, alone or before a
      line feed, denotes a line feed. */
  function TemplateLiteralText(body: string): Option<string>
    decreases |body|
  {
    if body == [] then Some([])
    else if body[0] == '`' then None
    else if body[0] == '$' && |body| >= 2 && body[1] == '{' then None
    else if body[0] == '\\' then
      if |body| < 2 || IsUninterpretedEscape(body[1]) then None
      else Prepend(EscapedChar(body[1]), TemplateLiteralText(body[2..]))
    else if body[0] == '\r' then
      if |body| >= 2 && body[1] == '\n' then Prepend('\n', TemplateLiteralText(body[2..]))
      else Prepend('\n', TemplateLiteralText(body[1..]))
    else Prepend(body[0], TemplateLiteralText(body[1..]))
  }

  /** Reading an interpreted escape: a backslash and `e` denote `EscapedChar(e)`. */
  lemma ReadEscape(e: char, tail: string)
    requires !IsUninterpretedEscape(e)
    ensures TemplateLiteralText(['\\', e] + tail) == Prepend(EscapedChar(e), TemplateLiteralText(tail))
  {
    var body := ['\\', e] + tail;
    assert body[0] == '\\' && body[1] == e && body[2..] == tail;
  }

  /** Reading a character that is neither a delimiter, a backslash, `$` nor a
      carriage return: it denotes itself. */
  lemma ReadPlain(c: char, tail: string)
    requires c != '\\' && !IsSpecial(c) && c != '\r'
    ensures TemplateLiteralText([c] + tail) == Prepend(c, TemplateLiteralText(tail))
  {
    assert ([c] + tail)[0] == c && ([c] + tail)[1..] == tail;
  }

  /** On text without backslashes and carriage returns, `escapeForJS` does what
      the copy button needs: the template literal denotes the original text. */
  lemma {:induction false} EscapeForJSReadsBackWithoutBackslash(s: string)
    requires forall i :: 0 <= i < |s| ==> s[i] != '\\' && s[i] != '\r'
    ensures TemplateLiteralText(EscapeForJS(s)) == Some(s)
    decreases |s|
  {
    if s != [] {
      var tail := EscapeEach(s[1..]);
      EscapeForJSReadsBackWithoutBackslash(s[1..]);
      assert EscapeForJS(s[1..]) == tail;
      assert [s[0]] + s[1..] == s;
      if IsSpecial(s[0]) {
        assert EscapeEach(s) == ['\\', s[0]] + tail;
        ReadEscape(s[0], tail);
      } else {
        assert EscapeEach(s) == [s[0]] + tail;
        ReadPlain(s[0], tail);
      }
    }
  }

  /** The discrepancy: a backslash followed by a backtick is escaped to two
      backslashes and a backtick, which a template literal reads as one escaped
      backslash followed by the backtick that closes the literal. */
  lemma EscapeForJSBreaksTemplate()
    ensures EscapeForJS(['\\', '`']) == ['\\', '\\', '`']
    ensures TemplateLiteralText(EscapeForJS(['\\', '`'])) == None
  {
    assert EscapeEach(['\\', '`']) == ['\\'] + EscapeEach(['`']);
    assert EscapeEach(['`']) == ['\\', '`'] + EscapeEach([]);
  }

  /** How the corrected escape writes one character: a backslash, backtick or
      `$` behind a backslash, a carriage return as `\\r`, anything else as itself. */
  function TemplateEscape(c: char): string {
    if c == '\r' then ['\\', 'r']
    else if c == '\\' || IsSpecial(c) then ['\\', c]
    else [c]
  }

  /** A template literal reads an escaped character back as that character. */
  lemma ReadTemplateEscape(c: char, tail: string)
    ensures TemplateLiteralText(TemplateEscape(c) + tail) == Prepend(c, TemplateLiteralText(tail))
  {
    if c == '\r' {
      ReadEscape('r', tail);
    } else if c == '\\' || IsSpecial(c) {
      ReadEscape(c, tail);
    } else {
      ReadPlain(c, tail);
    }
  }

  /** The escape the copy button needs: backslashes are escaped as well, and a
      carriage return is written as its escape so the literal does not turn it
      into a line feed. The template literal then denotes exactly the original
      text. */
  function EscapeForTemplate(text: string): (r: string)
    ensures TemplateLiteralText(r) == Some(text)
  {
    if text == [] then []
    else
      var tail := EscapeForTemplate(text[1..]);
      ReadTemplateEscape(text[0], tail);
      assert [text[0]] + text[1..] == text;
      TemplateEscape(text[0]) + tail
  }

  /** The corrected escape adds exactly one backslash per backslash, backtick,
      `$` and carriage return. */
  lemma {:induction false} EscapeForTemplateLength(text: string)
    ensures |EscapeForTemplate(text)|
            == |text| + Count(text, '\\') + Count(text, '`') + Count(text, '$') + Count(text, '\r')
    decreases |text|
  {
    if text != [] {
      EscapeForTemplateLength(text[1..]);
      assert EscapeForTemplate(text) == TemplateEscape(text[0]) + EscapeForTemplate(text[1..]);
    }
  }
}

/**
 * The quote escaping that `openWithFork` applies to the root path before it is
 * placed between double quotes in the shell command (`rootPath.replace(/"/g, '\\"')`),
 * and a reader for a double-quoted argument written in that convention, which is
 * the inverse the escaping is meant to have.
 */
module Quoting {
  import opened Wrappers

  /** Number of occurrences of `c` in `s`. */
  function Count(s: string, c: char): nat
  {
    if s == [] then 0 else (if s[0] == c then 1 else 0) + Count(s[1..], c)
  }

  /** True if the last character of `s` is a backslash. */
  predicate EndsWithBackslash(s: string)
  {
    |s| > 0 && s[|s| - 1] == '\\'
  }

  /**
   * Every `"` becomes `\"`; every other character is kept. The result is longer by
   * the number of quotes, and every quote in it is preceded by a backslash.
   */
  function Escape(s: string): (r: string)
    ensures |r| == |s| + Count(s, '"')
    ensures forall i :: 0 <= i < |r| && r[i] == '"' ==> 0 < i && r[i - 1] == '\\'
  {
    if s == [] then []
    else if s[0] == '"' then ['\\', '"'] + Escape(s[1..])
    else [s[0]] + Escape(s[1..])
  }

  lemma {:induction false} CountPositive(s: string, c: char)
    ensures Count(s, c) > 0 <==> c in s
  {
    if s != [] {
      CountPositive(s[1..], c);
      assert s == [s[0]] + s[1..];
    }
  }

  /** Escaping distributes over concatenation. */
  lemma {:induction false} EscapeConcat(a: string, b: string)
    ensures Escape(a + b) == Escape(a) + Escape(b)
  {
    if a != [] {
      var e := if a[0] == '"' then ['\\', '"'] else [a[0]];
      assert (a + b)[0] == a[0];
      assert (a + b)[1..] == a[1..] + b;
      EscapeConcat(a[1..], b);
      calc {
        Escape(a + b);
        e + Escape(a[1..] + b);
        e + (Escape(a[1..]) + Escape(b));
        (e + Escape(a[1..])) + Escape(b);
      }
    } else {
      assert a + b == b;
    }
  }

  /**
   * Escaping replaces each quote by backslash-quote wherever it stands, and leaves
   * every other character where it was.
   */
  lemma EscapeReplacesQuotes(a: string, c: char, b: string)
    ensures Escape(a + [c] + b) == Escape(a) + (if c == '"' then ['\\', '"'] else [c]) + Escape(b)
  {
    EscapeConcat(a + [c], b);
    EscapeConcat(a, [c]);
    assert Escape([c]) == (if c == '"' then ['\\', '"'] else [c]) by {
      assert [c][1..] == [];
    }
  }

  /** Escaping is the identity exactly on the strings without a quote. */
  lemma {:induction false} EscapeIdentity(s: string)
    ensures Escape(s) == s <==> '"' !in s
  {
    CountPositive(s, '"');
    if '"' !in s && s != [] {
      EscapeIdentity(s[1..]);
      assert s == [s[0]] + s[1..];
    }
  }

  /** Puts `x` in front of the text of a successful read. */
  function Prepend(x: string, o: Option<(string, string)>): Option<(string, string)>
  {
    match o
    case None => None
    case Some(p) => Some((x + p.0, p.1))
  }

  /**
   * Reads the body of a double-quoted argument whose opening quote has already been
   * consumed: `\"` stands for a quote, every other character for itself, and the
   * first quote not escaped that way closes the argument. Gives the text read and
   * what follows the closing quote, or None when there is no closing quote.
   */
  function ReadQuoted(t: string): Option<(string, string)>
    decreases |t|
  {
    if t == [] then None
    else if t[0] == '"' then Some(([], t[1..]))
    else if t[0] == '\\' && |t| > 1 && t[1] == '"' then Prepend(['"'], ReadQuoted(t[2..]))
    else Prepend([t[0]], ReadQuoted(t[1..]))
  }

  lemma PrependPrepend(x: string, y: string, o: Option<(string, string)>)
    ensures Prepend(x, Prepend(y, o)) == Prepend(x + y, o)
  {
    match o
    case None =>
    case Some(p) => assert x + (y + p.0) == (x + y) + p.0;
  }

  lemma ReadQuotedEscapedQuote(u: string)
    ensures ReadQuoted(['\\', '"'] + u) == Prepend(['"'], ReadQuoted(u))
  {
    assert (['\\', '"'] + u)[2..] == u;
  }

  lemma ReadQuotedLiteral(c: char, u: string)
    requires c != '"'
    requires c == '\\' ==> u == [] || u[0] != '"'
    ensures ReadQuoted([c] + u) == Prepend([c], ReadQuoted(u))
  {
    assert ([c] + u)[1..] == u;
  }

  /**
   * Reading an escaped text followed by `t` reads the text back and then goes on
   * with `t`, unless a trailing backslash of the text meets a quote opening `t`.
   */
  lemma {:induction false} ReadQuotedPrepend(s: string, t: string)
    requires !EndsWithBackslash(s) || t == [] || t[0] != '"'
    ensures ReadQuoted(Escape(s) + t) == Prepend(s, ReadQuoted(t))
  {
    if s == [] {
      assert Escape(s) + t == t;
      match ReadQuoted(t)
      case None =>
      case Some(p) => assert [] + p.0 == p.0;
    } else {
      var c, s' := s[0], s[1..];
      ReadQuotedPrepend(s', t);
      var u := Escape(s') + t;
      if c == '"' {
        assert Escape(s) + t == ['\\', '"'] + u;
        ReadQuotedEscapedQuote(u);
      } else {
        assert Escape(s) + t == [c] + u;
        if c == '\\' && u != [] {
          if s' != [] {
            assert u[0] == Escape(s')[0];
          } else {
            assert u == t;
          }
        }
        ReadQuotedLiteral(c, u);
      }
      PrependPrepend([c], s', ReadQuoted(t));
      assert [c] + s' == s;
    }
  }

  /**
   * Whatever a successful read returns is an escaped text, its closing quote and
   * the rest; the text read never ends in a backslash.
   */
  lemma {:induction false} ReadQuotedSound(t: string)
    ensures ReadQuoted(t).Some? ==>
      var (x, y) := ReadQuoted(t).value;
      t == Escape(x) + ['"'] + y && !EndsWithBackslash(x)
  {
    if t != [] && t[0] != '"' {
      if t[0] == '\\' && |t| > 1 && t[1] == '"' {
        ReadQuotedSound(t[2..]);
        if ReadQuoted(t[2..]).Some? {
          var (x', y) := ReadQuoted(t[2..]).value;
          assert Escape(['"'] + x') == ['\\', '"'] + Escape(x') by {
            assert (['"'] + x')[1..] == x';
          }
          assert t == ['\\', '"'] + t[2..];
        }
      } else {
        ReadQuotedSound(t[1..]);
        if ReadQuoted(t[1..]).Some? {
          var (x', y) := ReadQuoted(t[1..]).value;
          assert Escape([t[0]] + x') == [t[0]] + Escape(x') by {
            assert ([t[0]] + x')[1..] == x';
          }
          assert t == [t[0]] + t[1..];
          if x' == [] {
            assert t[1..] == ['"'] + y;
          }
        }
      }
    }
  }

  /**
   * The quoted argument `"` + Escape(s) + `"` reads back as exactly `s`, with the
   * text after it untouched, if and only if `s` does not end in a backslash.
   */
  lemma QuotedRoundTrip(s: string, rest: string)
    ensures ReadQuoted(Escape(s) + ['"'] + rest) == Some((s, rest)) <==> !EndsWithBackslash(s)
  {
    var t := Escape(s) + ['"'] + rest;
    assert t == Escape(s) + (['"'] + rest);
    ReadQuotedSound(t);
    if !EndsWithBackslash(s) {
      ReadQuotedPrepend(s, ['"'] + rest);
      assert (['"'] + rest)[1..] == rest;
      assert s + [] == s;
    }
  }
}

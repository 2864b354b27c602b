/** Text helpers standing in for the few string operations of Python that
    the generator uses: quote wrapping, `", ".join`, `str.splitlines`,
    `str.upper` and `str.isidentifier` (the last two restricted to ASCII). */
module Text {

  /** `quote_wrap`: the text between double quotes, with no escaping. */
  function QuoteWrap(s: string): (r: string)
    ensures |r| == |s| + 2
    ensures r[0] == '"' && r[|r| - 1] == '"'
    ensures r[1..|r| - 1] == s
  {
    "\"" + s + "\""
  }

  /** `sep.join(xs)`. */
  function Join(sep: string, xs: seq<string>): string
    decreases |xs|
  {
    if |xs| == 0 then ""
    else if |xs| == 1 then xs[0]
    else xs[0] + sep + Join(sep, xs[1..])
  }

  /** Concatenation of a sequence of text segments (what a stream holds). */
  function Concat(xs: seq<string>): string
    decreases |xs|
  {
    if xs == [] then "" else xs[0] + Concat(xs[1..])
  }

  lemma {:induction false} JoinSnoc(sep: string, xs: seq<string>, y: string)
    requires xs != []
    ensures Join(sep, xs + [y]) == Join(sep, xs) + sep + y
    decreases |xs|
  {
    if |xs| == 1 {
      assert xs + [y] == [xs[0], y];
      assert (xs + [y])[1..] == [y];
    } else {
      assert (xs + [y])[1..] == xs[1..] + [y];
      JoinSnoc(sep, xs[1..], y);
    }
  }

  lemma {:induction false} AppendAssoc<T>(a: seq<T>, b: seq<T>, c: seq<T>)
    ensures a + (b + c) == (a + b) + c
  {
  }

  lemma {:induction false} ConcatPair(a: string, b: string)
    ensures Concat([a, b]) == a + b
  {
    assert [a, b][1..] == [b];
    assert Concat([b]) == b + Concat([]);
  }

  /** The parts one after another. */
  function Flatten<T>(parts: seq<seq<T>>): seq<T>
    decreases |parts|
  {
    if parts == [] then [] else Flatten(parts[..|parts| - 1]) + parts[|parts| - 1]
  }

  lemma {:induction false} FlattenSnoc<T>(parts: seq<seq<T>>, i: nat)
    requires i < |parts|
    ensures Flatten(parts[..i + 1]) == Flatten(parts[..i]) + parts[i]
  {
    assert parts[..i + 1][..i] == parts[..i];
  }

  lemma {:induction false} FlattenAppend<T>(a: seq<seq<T>>, b: seq<seq<T>>)
    ensures Flatten(a + b) == Flatten(a) + Flatten(b)
    decreases |b|
  {
    if b == [] {
      assert a + b == a;
    } else {
      var init, last := b[..|b| - 1], b[|b| - 1];
      assert (a + b)[..|a + b| - 1] == a + init;
      assert (a + b)[|a + b| - 1] == last;
      FlattenAppend(a, init);
      AppendAssoc(Flatten(a), Flatten(init), last);
    }
  }

  /** Part `i` sits, whole, between the parts before it and the parts
      after it. */
  lemma {:induction false} FlattenSplit<T>(parts: seq<seq<T>>, i: nat)
    requires i < |parts|
    ensures Flatten(parts) == Flatten(parts[..i]) + parts[i] + Flatten(parts[i + 1..])
    ensures Flatten(parts[..i + 1]) == Flatten(parts[..i]) + parts[i]
  {
    assert parts == parts[..i + 1] + parts[i + 1..];
    FlattenAppend(parts[..i + 1], parts[i + 1..]);
    FlattenSnoc(parts, i);
  }

  // ---------------------------------------------------------------------
  // Lines

  /** Index of the first line feed in `s`, or `|s|` when there is none. */
  function LineEnd(s: string): (k: nat)
    ensures k <= |s|
    ensures k < |s| ==> s[k] == '\n'
    ensures forall j :: 0 <= j < k ==> s[j] != '\n'
    decreases |s|
  {
    if s == [] || s[0] == '\n' then 0 else 1 + LineEnd(s[1..])
  }

  /** `s.splitlines()` for text whose only line separator is '\n': every
      line feed ends a line, and a final line feed does not open an empty
      last line (so the empty text has no lines at all). */
  function SplitLines(s: string): (r: seq<string>)
    ensures s != [] <==> r != []
    ensures forall i :: 0 <= i < |r| ==> '\n' !in r[i]
    decreases |s|
  {
    if s == [] then []
    else
      var k := LineEnd(s);
      if k == |s| then [s] else [s[..k]] + SplitLines(s[k + 1..])
  }

  /** Each line followed by a line feed, all concatenated. */
  function Terminate(lines: seq<string>): string
    decreases |lines|
  {
    if lines == [] then "" else lines[0] + "\n" + Terminate(lines[1..])
  }

  /** Text that itself ends with a line feed. */
  predicate EndsWithNewline(s: string)
  {
    s != [] && s[|s| - 1] == '\n'
  }

  /** Text with a line feed splits there: its first line, then the lines
      of the rest. */
  lemma {:induction false} LineSplit(s: string)
    requires LineEnd(s) < |s|
    ensures var k := LineEnd(s);
      && s == s[..k] + "\n" + s[k + 1..]
      && SplitLines(s) == [s[..k]] + SplitLines(s[k + 1..])
  {
    Around(s, LineEnd(s));
  }

  /** A sequence is what comes before index `k`, the element there, and
      what comes after. */
  lemma {:induction false} Around<T>(s: seq<T>, k: nat)
    requires k < |s|
    ensures s == s[..k] + [s[k]] + s[k + 1..]
  {
    assert s[..k] + s[k..] == s;
    assert s[k..] == [s[k]] + s[k + 1..];
  }

  /** Joining the lines with line feeds gives back the text, unless the
      text ends with a line feed (which splitting drops). */
  lemma {:induction false} JoinSplitLines(s: string)
    requires !EndsWithNewline(s)
    ensures Join("\n", SplitLines(s)) == s
    decreases |s|
  {
    if s != [] && LineEnd(s) < |s| {
      var k := LineEnd(s);
      var line, rest := s[..k], s[k + 1..];
      LineSplit(s);
      assert rest != [] && rest[|rest| - 1] == s[|s| - 1];
      JoinSplitLines(rest);
      assert Join("\n", [line] + SplitLines(rest)) == line + "\n" + Join("\n", SplitLines(rest));
    }
  }

  /** Every line followed by a line feed gives the text with exactly one
      line feed at its end. */
  lemma {:induction false} TerminateSplitLines(s: string)
    ensures Terminate(SplitLines(s)) == if s == [] || EndsWithNewline(s) then s else s + "\n"
    decreases |s|
  {
    if s != [] {
      var k := LineEnd(s);
      if k == |s| {
        assert SplitLines(s) == [s];
        assert Terminate([s]) == s + "\n";
      } else {
        var line, rest := s[..k], s[k + 1..];
        LineSplit(s);
        TerminateSplitLines(rest);
        assert Terminate([line] + SplitLines(rest)) == line + "\n" + Terminate(SplitLines(rest));
        if rest == [] {
          assert EndsWithNewline(s);
        } else {
          assert rest[|rest| - 1] == s[|s| - 1];
          if !EndsWithNewline(rest) {
            AppendAssoc(line + "\n", rest, "\n");
          }
        }
      }
    }
  }

  /** Text has more than one line exactly when a line feed sits somewhere
      before its last character. */
  lemma {:induction false} ManyLinesIff(s: string)
    ensures |SplitLines(s)| > 1 <==> exists i :: 0 <= i < |s| - 1 && s[i] == '\n'
  {
    if s != [] {
      var k := LineEnd(s);
      if k < |s| {
        var rest := s[k + 1..];
        if rest == [] {
          assert SplitLines(s) == [s[..k]];
        } else {
          assert k < |s| - 1 && s[k] == '\n';
        }
      }
    }
  }

  // ---------------------------------------------------------------------
  // Characters and identifiers (ASCII only)

  function UpperChar(c: char): char
  {
    if 'a' <= c <= 'z' then (c as int - 'a' as int + 'A' as int) as char else c
  }

  /** `str.upper` on ASCII letters; every other character is kept. */
  function Upper(s: string): (r: string)
    ensures |r| == |s|
    ensures forall i :: 0 <= i < |s| ==> r[i] == UpperChar(s[i])
  {
    seq(|s|, i requires 0 <= i < |s| => UpperChar(s[i]))
  }

  lemma {:induction false} UpperAppend(a: string, b: string)
    ensures Upper(a + b) == Upper(a) + Upper(b)
  {
    assert forall i :: 0 <= i < |a + b| ==> Upper(a + b)[i] == (Upper(a) + Upper(b))[i];
  }

  predicate IsLetter(c: char)
  {
    ('a' <= c <= 'z') || ('A' <= c <= 'Z') || c == '_'
  }

  predicate IsDigit(c: char)
  {
    '0' <= c <= '9'
  }

  /** `str.isidentifier` for ASCII text: not empty, a letter or underscore
      first, then letters, digits and underscores. Keywords count as
      identifiers, as in Python. */
  predicate IsIdentifier(s: string)
  {
    |s| > 0 && IsLetter(s[0]) && forall i :: 1 <= i < |s| ==> IsLetter(s[i]) || IsDigit(s[i])
  }

  /** Letters, digits and underscores only. */
  predicate IdentChars(s: string)
  {
    forall i :: 0 <= i < |s| ==> IsLetter(s[i]) || IsDigit(s[i])
  }

  lemma {:induction false} IdentifierChars(s: string)
    requires IsIdentifier(s)
    ensures IdentChars(s)
  {
  }

  /** An identifier followed by letters, digits and underscores is an
      identifier. */
  lemma {:induction false} IdentifierAppend(a: string, b: string)
    requires IsIdentifier(a) && IdentChars(b)
    ensures IsIdentifier(a + b)
  {
    forall i | 1 <= i < |a + b|
      ensures IsLetter((a + b)[i]) || IsDigit((a + b)[i])
    {
      if i < |a| {
        assert (a + b)[i] == a[i];
      } else {
        assert (a + b)[i] == b[i - |a|];
      }
    }
  }

  /** Upper case keeps an identifier an identifier. */
  lemma {:induction false} UpperIdentifier(s: string)
    requires IsIdentifier(s)
    ensures IsIdentifier(Upper(s))
  {
    var u := Upper(s);
    forall i | 0 <= i < |s|
      ensures IsLetter(u[i]) || IsDigit(u[i])
    {
      assert u[i] == UpperChar(s[i]);
      assert i == 0 ==> IsLetter(s[i]);
    }
  }
}

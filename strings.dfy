/** The string operations the share route relies on: JavaScript's
    `String.prototype.split` with a one-character separator, its inverse `Join`,
    and a few small scanners used by the tag reader. */
module Strings {

  /** Concatenation regroups freely; stated once so that proofs need not rediscover it. */
  lemma AppendAssoc<T>(a: seq<T>, b: seq<T>, c: seq<T>)
    ensures a + (b + c) == (a + b) + c
  {
  }

  /** `s.split(sep)` as JavaScript computes it: the pieces between separators,
      empty pieces kept, and `[""]` for the empty string. */
  function Split(s: string, sep: char): (parts: seq<string>)
    ensures |parts| >= 1
    decreases |s|
  {
    if s == [] then [""]
    else
      var rest := Split(s[1..], sep);
      if s[0] == sep then [""] + rest
      else [[s[0]] + rest[0]] + rest[1..]
  }

  /** No piece of a split holds the separator. */
  lemma {:induction false} SplitPiecesLackSeparator(s: string, sep: char)
    ensures forall i :: 0 <= i < |Split(s, sep)| ==> sep !in Split(s, sep)[i]
    decreases |s|
  {
    if s != [] {
      SplitPiecesLackSeparator(s[1..], sep);
      var rest := Split(s[1..], sep);
      var parts := Split(s, sep);
      if s[0] == sep {
        assert forall i :: 1 <= i < |parts| ==> parts[i] == rest[i - 1];
      } else {
        assert sep !in [s[0]] + rest[0];
        assert forall i :: 1 <= i < |parts| ==> parts[i] == rest[i];
      }
    }
  }

  /** A character absent from the string is absent from every piece of its split. */
  lemma {:induction false} SplitPiecesLack(s: string, sep: char, c: char)
    requires c !in s
    ensures forall i :: 0 <= i < |Split(s, sep)| ==> c !in Split(s, sep)[i]
    decreases |s|
  {
    if s != [] {
      SplitPiecesLack(s[1..], sep, c);
      var rest := Split(s[1..], sep);
      var parts := Split(s, sep);
      if s[0] == sep {
        assert forall i :: 1 <= i < |parts| ==> parts[i] == rest[i - 1];
      } else {
        assert c !in [s[0]] + rest[0];
        assert forall i :: 1 <= i < |parts| ==> parts[i] == rest[i];
      }
    }
  }

  /** The pieces glued back together with `sep` between neighbours. */
  function Join(parts: seq<string>, sep: char): (s: string)
  {
    if |parts| == 0 then ""
    else if |parts| == 1 then parts[0]
    else parts[0] + [sep] + Join(parts[1..], sep)
  }

  /** Gluing the pieces of a split restores the string. */
  lemma {:induction false} JoinSplit(s: string, sep: char)
    ensures Join(Split(s, sep), sep) == s
    decreases |s|
  {
    if s != [] {
      JoinSplit(s[1..], sep);
      var rest := Split(s[1..], sep);
      if s[0] == sep {
        assert Split(s, sep) == [""] + rest;
        assert ([""] + rest)[1..] == rest;
      } else if |rest| == 1 {
        assert Split(s, sep) == [[s[0]] + rest[0]];
        assert s == [s[0]] + s[1..];
      } else {
        var parts := Split(s, sep);
        assert parts == [[s[0]] + rest[0]] + rest[1..];
        assert parts[1..] == rest[1..];
        assert s == [s[0]] + s[1..];
      }
    }
  }

  /** A string without the separator splits into itself alone. */
  lemma {:induction false} SplitWithoutSeparator(s: string, sep: char)
    requires sep !in s
    ensures Split(s, sep) == [s]
    decreases |s|
  {
    if s != [] {
      SplitWithoutSeparator(s[1..], sep);
      assert s == [s[0]] + s[1..];
    }
  }

  /** One step of the split: a leading separator closes an empty piece. */
  lemma SplitConsSeparator(t: string, sep: char)
    ensures Split([sep] + t, sep) == [""] + Split(t, sep)
  {
    assert ([sep] + t)[0] == sep && ([sep] + t)[1..] == t;
  }

  /** One step of the split: any other leading character starts the first piece. */
  lemma SplitConsChar(c: char, t: string, sep: char)
    requires c != sep
    ensures Split([c] + t, sep) == [[c] + Split(t, sep)[0]] + Split(t, sep)[1..]
  {
    assert ([c] + t)[0] == c && ([c] + t)[1..] == t;
  }

  /** Prepending to the first piece commutes with appending more pieces. */
  lemma PrependToFirst(p: string, r: seq<string>, q: seq<string>)
    requires |r| >= 1
    ensures [p + (r + q)[0]] + (r + q)[1..] == ([p + r[0]] + r[1..]) + q
  {
    assert (r + q)[0] == r[0];
    assert (r + q)[1..] == r[1..] + q;
  }

  /** A non-empty string is its first character followed by the rest;
      stated for a string followed by more. */
  lemma ConsShift(a: string, sep: char, b: string)
    requires a != []
    ensures a + [sep] + b == [a[0]] + (a[1..] + [sep] + b)
    ensures a == [a[0]] + a[1..]
  {
  }

  /** The inductive step of `SplitAround` when the leading character is a separator. */
  lemma SplitAroundStepSeparator(x: string, t: string, rb: seq<string>, sep: char)
    requires Split(x, sep) == Split(t, sep) + rb
    ensures Split([sep] + x, sep) == Split([sep] + t, sep) + rb
  {
    SplitConsSeparator(x, sep);
    SplitConsSeparator(t, sep);
    AppendAssoc([""], Split(t, sep), rb);
  }

  /** The inductive step of `SplitAround` for any other leading character. */
  lemma SplitAroundStepChar(c: char, x: string, t: string, rb: seq<string>, sep: char)
    requires c != sep
    requires Split(x, sep) == Split(t, sep) + rb
    ensures Split([c] + x, sep) == Split([c] + t, sep) + rb
  {
    SplitConsChar(c, x, sep);
    SplitConsChar(c, t, sep);
    PrependToFirst([c], Split(t, sep), rb);
  }

  /** Splitting distributes over a separator joining two strings. */
  lemma {:induction false} SplitAround(a: string, b: string, sep: char)
    ensures Split(a + [sep] + b, sep) == Split(a, sep) + Split(b, sep)
    decreases |a|
  {
    if a == [] {
      assert a + [sep] + b == [sep] + b;
      SplitConsSeparator(b, sep);
    } else {
      var c, t := a[0], a[1..];
      SplitAround(t, b, sep);
      ConsShift(a, sep, b);
      if c == sep {
        SplitAroundStepSeparator(t + [sep] + b, t, Split(b, sep), sep);
      } else {
        SplitAroundStepChar(c, t + [sep] + b, t, Split(b, sep), sep);
      }
    }
  }

  /** A separator-free first line splits off as one piece. */
  lemma SplitLine(line: string, rest: string, sep: char)
    requires sep !in line
    ensures Split(line + [sep] + rest, sep) == [line] + Split(rest, sep)
  {
    SplitAround(line, rest, sep);
    SplitWithoutSeparator(line, sep);
  }

  /** Splitting undoes joining, for at least one piece and no piece holding the separator. */
  lemma {:induction false} SplitJoin(parts: seq<string>, sep: char)
    requires |parts| >= 1
    requires forall i :: 0 <= i < |parts| ==> sep !in parts[i]
    ensures Split(Join(parts, sep), sep) == parts
    decreases |parts|
  {
    if |parts| == 1 {
      SplitWithoutSeparator(parts[0], sep);
    } else {
      var p, rest := parts[0], parts[1..];
      assert forall i :: 0 <= i < |rest| ==> rest[i] == parts[i + 1];
      SplitJoin(rest, sep);
      assert Join(parts, sep) == p + [sep] + Join(rest, sep);
      SplitLine(p, Join(rest, sep), sep);
      assert parts == [p] + rest;
    }
  }

  /** The last element of a sequence with more in front. */
  lemma LastOfAppend<T>(x: seq<T>, y: seq<T>)
    requires |y| >= 1
    ensures (x + y)[|x + y| - 1] == y[|y| - 1]
  {
  }

  /** The position of the last `c` in `s`, or -1 when there is none. */
  function LastIndexOf(s: string, c: char): (i: int)
    ensures -1 <= i < |s|
    ensures i == -1 ==> c !in s
    ensures i >= 0 ==> s[i] == c && c !in s[i + 1..]
    decreases |s|
  {
    if s == [] then -1
    else if s[|s| - 1] == c then |s| - 1
    else
      var init := s[..|s| - 1];
      var i := LastIndexOf(init, c);
      assert s == init + [s[|s| - 1]];
      assert i >= 0 ==> s[i + 1..] == init[i + 1..] + [s[|s| - 1]];
      i
  }

  /** A string around one of its positions. */
  lemma SplitAt(s: string, i: nat)
    requires i < |s|
    ensures s == s[..i] + [s[i]] + s[i + 1..]
    ensures |s[i + 1..]| == |s| - i - 1 && s[|s| - |s[i + 1..]|..] == s[i + 1..]
  {
  }

  /** The last piece of a split is a suffix of the string that holds no separator;
      it is the whole string exactly when the separator does not occur, and
      otherwise a separator stands right before it. */
  lemma SplitLast(s: string, sep: char)
    ensures var parts := Split(s, sep); var last := parts[|parts| - 1];
      && (|parts| == 1 <==> sep !in s)
      && |last| <= |s| && s[|s| - |last|..] == last
      && (sep !in s ==> last == s)
      && (sep in s ==> |last| < |s| && s[|s| - |last| - 1] == sep)
  {
    var i := LastIndexOf(s, sep);
    if i == -1 {
      SplitWithoutSeparator(s, sep);
    } else {
      var a, b := s[..i], s[i + 1..];
      SplitAt(s, i);
      SplitAround(a, b, sep);
      SplitWithoutSeparator(b, sep);
      LastOfAppend(Split(a, sep), [b]);
      assert |s| - |b| - 1 == i;
    }
  }

  /** `n` blanks, as template-literal indentation. */
  function Spaces(n: nat): (r: string)
    ensures |r| == n
    ensures forall i :: 0 <= i < n ==> r[i] == ' '
  {
    if n == 0 then "" else [' '] + Spaces(n - 1)
  }

  /** `s` with its leading blanks removed. */
  function TrimStart(s: string): (r: string)
    ensures |r| <= |s|
    ensures r != [] ==> r[0] != ' '
    decreases |s|
  {
    if s != [] && s[0] == ' ' then TrimStart(s[1..]) else s
  }

  /** Trimming removes characters and adds none. */
  lemma {:induction false} TrimStartLacks(s: string, c: char)
    requires c !in s
    ensures c !in TrimStart(s)
    decreases |s|
  {
    if s != [] && s[0] == ' ' {
      TrimStartLacks(s[1..], c);
    }
  }

  /** Indentation in front of text that does not start with a blank is trimmed away exactly. */
  lemma {:induction false} TrimIndented(n: nat, s: string)
    requires s != [] && s[0] != ' '
    ensures TrimStart(Spaces(n) + s) == s
  {
    if n > 0 {
      TrimIndented(n - 1, s);
      assert (Spaces(n) + s)[1..] == Spaces(n - 1) + s;
    }
  }

  predicate StartsWith(s: string, prefix: string)
  {
    |prefix| <= |s| && s[..|prefix|] == prefix
  }

  /** The longest prefix of `s` that does not contain `c`. */
  function TakeUntil(s: string, c: char): (p: string)
    ensures |p| <= |s| && p == s[..|p|]
    ensures c !in p
    ensures |p| < |s| ==> s[|p|] == c
    decreases |s|
  {
    if s == [] || s[0] == c then ""
    else
      var p := [s[0]] + TakeUntil(s[1..], c);
      assert s == [s[0]] + s[1..];
      p
  }

  /** Reading up to a character stops at its first occurrence. */
  lemma TakeUntilStops(p: string, c: char, rest: string)
    requires c !in p
    ensures TakeUntil(p + [c] + rest, c) == p
  {
    var s := p + [c] + rest;
    assert s[..|p|] == p && s[|p|] == c;
  }
}

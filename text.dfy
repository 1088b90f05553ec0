/** The JavaScript string operations the pages rely on, on `seq<char>`:
    `trim`, `toLowerCase`, `includes`, and `split` on a one-character separator. */
module Text {

  /** ECMAScript WhiteSpace and LineTerminator code points: what `trim` strips
      and what `Number` ignores around a numeral. */
  predicate IsSpace(c: char)
  {
    c == ' ' || c == '\t' || c == '\n' || c == '\r' || c == '\U{000B}' || c == '\U{000C}'
    || c == '\U{00A0}' || c == '\U{1680}' || ('\U{2000}' <= c <= '\U{200A}')
    || c == '\U{2028}' || c == '\U{2029}' || c == '\U{202F}' || c == '\U{205F}'
    || c == '\U{3000}' || c == '\U{FEFF}'
  }

  predicate IsBlank(s: string)
  {
    forall i :: 0 <= i < |s| ==> IsSpace(s[i])
  }

  function TrimStart(s: string): (r: string)
    ensures r != [] ==> !IsSpace(r[0])
  {
    if s != [] && IsSpace(s[0]) then TrimStart(s[1..]) else s
  }

  function TrimEnd(s: string): (r: string)
    ensures r != [] ==> !IsSpace(r[|r| - 1])
  {
    if s != [] && IsSpace(s[|s| - 1]) then TrimEnd(s[..|s| - 1]) else s
  }

  /** `s.trim()`. */
  function Trim(s: string): string
  {
    TrimEnd(TrimStart(s))
  }

  lemma {:induction false} TrimStartBlank(s: string)
    ensures TrimStart(s) == [] <==> IsBlank(s)
  {
    if s != [] && IsSpace(s[0]) {
      TrimStartBlank(s[1..]);
      assert IsBlank(s) <==> IsBlank(s[1..]) by {
        if IsBlank(s[1..]) {
          forall i | 0 <= i < |s| ensures IsSpace(s[i]) {
            if i > 0 { assert s[i] == s[1..][i - 1]; }
          }
        }
      }
    }
  }

  lemma {:induction false} TrimEndEmpty(s: string)
    ensures TrimEnd(s) == [] <==> IsBlank(s)
  {
    if s != [] && IsSpace(s[|s| - 1]) {
      var t := s[..|s| - 1];
      TrimEndEmpty(t);
      assert IsBlank(s) <==> IsBlank(t) by {
        if IsBlank(t) {
          forall i | 0 <= i < |s| ensures IsSpace(s[i]) {
            if i < |s| - 1 { assert s[i] == t[i]; }
          }
        }
      }
    }
  }

  /** `s.trim() === ''` holds exactly when every character of `s` is white space. */
  lemma TrimEmptyIffBlank(s: string)
    ensures Trim(s) == [] <==> IsBlank(s)
  {
    TrimStartBlank(s);
    TrimEndEmpty(TrimStart(s));
    assert TrimStart(s) != [] ==> !IsBlank(TrimStart(s));
  }

  /** A string that neither starts nor ends with white space is its own trim. */
  lemma TrimUnpadded(s: string)
    requires s != [] ==> !IsSpace(s[0]) && !IsSpace(s[|s| - 1])
    ensures Trim(s) == s
  {
  }

  /** `toLowerCase` on the ASCII letters; every other character is kept. */
  function LowerChar(c: char): char
  {
    if 'A' <= c <= 'Z' then (c as int + 32) as char else c
  }

  function Lower(s: string): (r: string)
    ensures |r| == |s|
  {
    seq(|s|, i requires 0 <= i < |s| => LowerChar(s[i]))
  }

  predicate OccursAt(hay: string, needle: string, i: nat)
  {
    i + |needle| <= |hay| && hay[i..i + |needle|] == needle
  }

  /** `hay.includes(needle)`. */
  predicate Contains(hay: string, needle: string)
  {
    exists i :: 0 <= i <= |hay| - |needle| && OccursAt(hay, needle, i)
  }

  /** Every string includes the empty string, which is why an empty search keeps every row. */
  lemma ContainsEmpty(hay: string)
    ensures Contains(hay, [])
  {
    assert OccursAt(hay, [], 0);
  }

  /** `s.split(sep)` for a one-character separator: the pieces between separators,
      with an empty piece wherever two separators meet or one ends the string. */
  function Split(s: string, sep: char): (parts: seq<string>)
    ensures |parts| >= 1
  {
    if s == [] then [[]]
    else
      var rest := Split(s[1..], sep);
      if s[0] == sep then [[]] + rest
      else [[s[0]] + rest[0]] + rest[1..]
  }

  /** No piece of a split holds the separator. */
  lemma {:induction false} SplitPiecesAvoidSep(s: string, sep: char)
    ensures forall i :: 0 <= i < |Split(s, sep)| ==> sep !in Split(s, sep)[i]
  {
    if s != [] {
      SplitPiecesAvoidSep(s[1..], sep);
      var rest := Split(s[1..], sep);
      if s[0] != sep {
        var parts := Split(s, sep);
        forall i | 0 <= i < |parts| ensures sep !in parts[i] {
          if i == 0 {
            assert parts[0] == [s[0]] + rest[0];
          } else {
            assert parts[i] == rest[i];
          }
        }
      }
    }
  }

  /** `parts.join(sep)`, the inverse of `Split`. */
  function Join(parts: seq<string>, sep: char): string
    requires |parts| >= 1
  {
    if |parts| == 1 then parts[0] else parts[0] + [sep] + Join(parts[1..], sep)
  }

  /** Splitting a string whose first piece `w` holds no separator puts `w` in front of
      the first piece of the remainder. */
  lemma {:induction false} SplitPrefix(w: string, t: string, sep: char)
    requires sep !in w
    ensures Split(w + t, sep) == [w + Split(t, sep)[0]] + Split(t, sep)[1..]
  {
    if w != [] {
      var parts := Split(t, sep);
      SplitPrefix(w[1..], t, sep);
      assert (w + t)[1..] == w[1..] + t;
      var rest := Split(w[1..] + t, sep);
      assert rest[0] == w[1..] + parts[0] && rest[1..] == parts[1..];
      assert [w[0]] + rest[0] == w + parts[0];
    } else {
      var parts := Split(t, sep);
      assert w + t == t;
      assert w + parts[0] == parts[0];
      assert [w + parts[0]] + parts[1..] == parts;
    }
  }

  /** The first line of a text, up to its first separator, is split off on its own. */
  lemma SplitFirstLine(head: string, body: string, sep: char)
    requires sep !in head
    ensures Split(head + [sep] + body, sep) == [head] + Split(body, sep)
  {
    var line := [sep] + body;
    SplitPrefix(head, line, sep);
    assert head + [sep] + body == head + line;
    assert line[1..] == body;
    assert Split(line, sep) == [[]] + Split(body, sep);
    assert head + [] == head;
  }

  lemma {:induction false} JoinSplit(s: string, sep: char)
    ensures Join(Split(s, sep), sep) == s
  {
    if s != [] {
      var rest := Split(s[1..], sep);
      JoinSplit(s[1..], sep);
      if s[0] == sep {
        assert ([[]] + rest)[1..] == rest;
      } else if |rest| > 1 {
        var parts := [[s[0]] + rest[0]] + rest[1..];
        assert parts[1..] == rest[1..];
        assert Join(rest, sep) == rest[0] + [sep] + Join(rest[1..], sep);
      }
    }
  }

  lemma {:induction false} SplitJoin(parts: seq<string>, sep: char)
    requires |parts| >= 1
    requires forall i :: 0 <= i < |parts| ==> sep !in parts[i]
    ensures Split(Join(parts, sep), sep) == parts
  {
    if |parts| == 1 {
      SplitPrefix(parts[0], [], sep);
      assert parts[0] + [] == parts[0];
    } else {
      var tail := Join(parts[1..], sep);
      SplitJoin(parts[1..], sep);
      SplitFirstLine(parts[0], tail, sep);
      assert parts == [parts[0]] + parts[1..];
    }
  }

  /** A string without the separator is one piece. */
  lemma SplitNoSep(s: string, sep: char)
    requires sep !in s
    ensures Split(s, sep) == [s]
  {
    SplitPrefix(s, [], sep);
    assert s + [] == s;
  }

  /** A text that starts with the separator begins with an empty piece. */
  lemma SplitConsSep(t: string, sep: char)
    ensures Split([sep] + t, sep) == [[]] + Split(t, sep)
  {
    assert ([sep] + t)[1..] == t;
  }

  /** Any other first character joins the first piece of the rest. */
  lemma SplitConsChar(c: char, t: string, sep: char)
    requires c != sep
    ensures Split([c] + t, sep) == [[c] + Split(t, sep)[0]] + Split(t, sep)[1..]
  {
    assert ([c] + t)[1..] == t;
  }

  /** Gluing a character onto the first piece commutes with appending more pieces. */
  lemma ConsPieces(c: char, first: seq<string>, more: seq<string>)
    requires |first| >= 1
    ensures var rest := first + more;
      [[c] + rest[0]] + rest[1..] == ([[c] + first[0]] + first[1..]) + more
  {
    var rest := first + more;
    assert rest[0] == first[0];
    assert rest[1..] == first[1..] + more;
  }

  lemma AppendAssoc<T>(x: seq<T>, y: seq<T>, z: seq<T>)
    ensures x + (y + z) == (x + y) + z
  {
  }

  /** The step of `SplitConcat` for a first text that starts with the separator:
      `whole` is the separator before `tail`, `front` the separator before `a`. */
  lemma SplitConcatSepStep(a: string, b: string, sep: char, tail: string, whole: string, front: string)
    requires whole == [sep] + tail && front == [sep] + a
    requires Split(tail, sep) == Split(a, sep) + Split(b, sep)
    ensures Split(whole, sep) == Split(front, sep) + Split(b, sep)
  {
    SplitConsSep(tail, sep);
    SplitConsSep(a, sep);
    AppendAssoc([[]], Split(a, sep), Split(b, sep));
  }

  /** The step of `SplitConcat` for a first text that starts with another character. */
  lemma SplitConcatCharStep(c: char, a: string, b: string, sep: char, tail: string, whole: string, front: string)
    requires c != sep
    requires whole == [c] + tail && front == [c] + a
    requires Split(tail, sep) == Split(a, sep) + Split(b, sep)
    ensures Split(whole, sep) == Split(front, sep) + Split(b, sep)
  {
    SplitConsChar(c, tail, sep);
    SplitConsChar(c, a, sep);
    ConsPieces(c, Split(a, sep), Split(b, sep));
  }

  /** Splitting two texts joined by a separator splits each on its own. */
  lemma {:induction false} SplitConcat(a: string, b: string, sep: char)
    ensures Split(a + [sep] + b, sep) == Split(a, sep) + Split(b, sep)
  {
    if a == [] {
      SplitConsSep(b, sep);
      assert a + [sep] + b == [sep] + b;
    } else {
      var tail := a[1..] + [sep] + b;
      SplitConcat(a[1..], b, sep);
      assert a + [sep] + b == [a[0]] + tail;
      assert a == [a[0]] + a[1..];
      if a[0] == sep {
        SplitConcatSepStep(a[1..], b, sep, tail, a + [sep] + b, a);
      } else {
        SplitConcatCharStep(a[0], a[1..], b, sep, tail, a + [sep] + b, a);
      }
    }
  }

  /** Joining pieces that avoid a character other than the separator avoids it too. */
  lemma {:induction false} JoinAvoids(parts: seq<string>, sep: char, c: char)
    requires |parts| >= 1 && c != sep
    requires forall i :: 0 <= i < |parts| ==> c !in parts[i]
    ensures c !in Join(parts, sep)
  {
    if |parts| > 1 {
      JoinAvoids(parts[1..], sep, c);
    }
  }

  lemma LowerConcat(a: string, b: string)
    ensures Lower(a + b) == Lower(a) + Lower(b)
  {
  }

  /** A match in the original text is a match between the lower-cased texts. */
  lemma ContainsLower(hay: string, needle: string)
    requires Contains(hay, needle)
    ensures Contains(Lower(hay), Lower(needle))
  {
    var i :| 0 <= i <= |hay| - |needle| && OccursAt(hay, needle, i);
    assert Lower(hay)[i..i + |needle|] == Lower(hay[i..i + |needle|]);
    assert OccursAt(Lower(hay), Lower(needle), i);
  }

  /** A text that includes `t + u` includes `t`. */
  lemma ContainsPrefix(hay: string, t: string, u: string)
    requires Contains(hay, t + u)
    ensures Contains(hay, t)
  {
    var i :| 0 <= i <= |hay| - |t + u| && OccursAt(hay, t + u, i);
    assert hay[i..i + |t|] == hay[i..i + |t + u|][..|t|] == (t + u)[..|t|] == t;
    assert OccursAt(hay, t, i);
  }
}

/**
 * The few Python `str` operations the model relies on, over `seq<char>`:
 * `split` on one character, `join`, `in` on substrings, `pathlib`'s suffix,
 * code-point ordering, ASCII case mapping and decimal rendering of integers.
 */
module Strings {

  /** Python's `sep.join(parts)`. */
  function Join(parts: seq<string>, sep: string): string
  {
    if |parts| == 0 then ""
    else if |parts| == 1 then parts[0]
    else parts[0] + sep + Join(parts[1..], sep)
  }

  lemma JoinCons(x: string, r0: string, rest: seq<string>, sep: string)
    ensures Join([x + r0] + rest, sep) == x + Join([r0] + rest, sep)
  {
    if |rest| > 0 {
      assert ([x + r0] + rest)[1..] == rest;
      assert ([r0] + rest)[1..] == rest;
    }
  }

  /**
   * Python's `s.split(c)` with a one-character separator. The parts never
   * contain the separator, there is always at least one part, and joining
   * the parts with the separator gives back the string.
   */
  function Split(s: string, c: char): (parts: seq<string>)
    ensures |parts| >= 1
    ensures forall i :: 0 <= i < |parts| ==> c !in parts[i]
    ensures Join(parts, [c]) == s
    decreases |s|
  {
    if |s| == 0 then [""]
    else
      var rest := Split(s[1..], c);
      if s[0] == c then
        assert ([""] + rest)[1..] == rest;
        [""] + rest
      else
        JoinCons([s[0]], rest[0], rest[1..], [c]);
        assert [rest[0]] + rest[1..] == rest;
        [[s[0]] + rest[0]] + rest[1..]
  }

  /** There are at least two parts exactly when the separator occurs. */
  lemma {:induction false} SplitCount(s: string, c: char)
    ensures |Split(s, c)| >= 2 <==> c in s
    decreases |s|
  {
    if |s| > 0 {
      SplitCount(s[1..], c);
      assert c in s <==> s[0] == c || c in s[1..];
    }
  }

  /** Splitting a string without the separator gives the string alone. */
  lemma {:induction false} SplitWithout(s: string, c: char)
    requires c !in s
    ensures Split(s, c) == [s]
    decreases |s|
  {
    if |s| > 0 {
      SplitWithout(s[1..], c);
    }
  }

  /** Splitting `a + [c] + b`, where `a` holds no separator, gives `a` first. */
  lemma {:induction false} SplitAt(a: string, c: char, b: string)
    requires c !in a
    ensures Split(a + [c] + b, c) == [a] + Split(b, c)
    decreases |a|
  {
    if |a| == 0 {
      assert (a + [c] + b)[1..] == b;
    } else {
      assert (a + [c] + b)[1..] == a[1..] + [c] + b;
      SplitAt(a[1..], c, b);
      assert [a[0]] + a[1..] == a;
    }
  }

  /** Joining parts that hold no separator and splitting again gives the parts back. */
  lemma {:induction false} SplitJoin(parts: seq<string>, c: char)
    requires |parts| >= 1
    requires forall i :: 0 <= i < |parts| ==> c !in parts[i]
    ensures Split(Join(parts, [c]), c) == parts
    decreases |parts|
  {
    if |parts| == 1 {
      SplitWithout(parts[0], c);
    } else {
      SplitJoin(parts[1..], c);
      SplitAt(parts[0], c, Join(parts[1..], [c]));
      assert [parts[0]] + parts[1..] == parts;
    }
  }

  /** Python's `sub in s`, searched from the left. */
  predicate Contains(s: string, sub: string)
    decreases |s|
  {
    if sub <= s then true
    else if |s| == 0 then false
    else Contains(s[1..], sub)
  }

  /** `sub` occurs in `s` at offset `i`. */
  predicate OccursAt(s: string, sub: string, i: int)
  {
    0 <= i <= |s| - |sub| && s[i..i + |sub|] == sub
  }

  /** `Contains` holds exactly when `sub` occurs at some offset of `s`. */
  lemma {:induction false} ContainsAt(s: string, sub: string)
    ensures Contains(s, sub) <==> exists i :: OccursAt(s, sub, i)
    decreases |s|
  {
    if sub <= s {
      assert OccursAt(s, sub, 0);
    } else if |s| == 0 {
      assert forall i :: !OccursAt(s, sub, i);
    } else {
      ContainsAt(s[1..], sub);
      if exists i :: OccursAt(s, sub, i) {
        var i :| OccursAt(s, sub, i);
        assert i != 0;
        assert s[1..][i - 1..i - 1 + |sub|] == s[i..i + |sub|];
        assert OccursAt(s[1..], sub, i - 1);
      }
      if exists j :: OccursAt(s[1..], sub, j) {
        var j :| OccursAt(s[1..], sub, j);
        assert s[1..][j..j + |sub|] == s[j + 1..j + 1 + |sub|];
        assert OccursAt(s, sub, j + 1);
      }
    }
  }

  /** From offset `at`, `first` opens the text, then `second` occurs, then `third`, without overlapping. */
  ghost predicate OccursInOrder(s: string, at: int, first: string, second: string, third: string)
  {
    && OccursAt(s, first, at)
    && exists i, j :: at + |first| <= i && i + |second| <= j && OccursAt(s, second, i) && OccursAt(s, third, j)
  }

  /** A text laid out as a block, then two labelled lines, then a tail, shows the pieces in order. */
  lemma LayoutInOrder(first: string, close: string, label1: string, second: string, end1: string,
                      label2: string, third: string, end2: string, tail: string)
    ensures OccursInOrder((first + close) + (label1 + second + end1) + (label2 + third + end2) + tail, 0,
                          first, second, third)
  {
    var block := first + close;
    var line1 := label1 + second + end1;
    var line2 := label2 + third + end2;
    var s := block + line1 + line2 + tail;
    assert s[0..|first|] == first;
    var i := |block| + |label1|;
    assert s[i..i + |second|] == second;
    var j := |block| + |line1| + |label2|;
    assert s[j..j + |third|] == third;
    assert OccursAt(s, second, i) && OccursAt(s, third, j);
  }

  /** Text put in front moves the pieces along but keeps their order. */
  lemma InOrderShift(front: string, s: string, at: int, first: string, second: string, third: string)
    requires OccursInOrder(s, at, first, second, third)
    ensures OccursInOrder(front + s, |front| + at, first, second, third)
  {
    var i, j :| at + |first| <= i && i + |second| <= j && OccursAt(s, second, i) && OccursAt(s, third, j);
    assert (front + s)[|front| + at..|front| + at + |first|] == s[at..at + |first|];
    assert (front + s)[|front| + i..|front| + i + |second|] == s[i..i + |second|];
    assert (front + s)[|front| + j..|front| + j + |third|] == s[j..j + |third|];
    assert OccursAt(front + s, second, |front| + i) && OccursAt(front + s, third, |front| + j);
  }

  predicate EndsWith(s: string, suffix: string)
  {
    |suffix| <= |s| && s[|s| - |suffix|..] == suffix
  }

  /** Text put in front keeps the end. */
  lemma EndsWithAfter(front: string, s: string, suffix: string)
    requires EndsWith(s, suffix)
    ensures EndsWith(front + s, suffix)
  {
    assert (front + s)[|front + s| - |suffix|..] == s[|s| - |suffix|..];
  }

  /** Python's `s.rfind(c)`: the last index of `c`, or -1. */
  function LastIndexOf(s: string, c: char): (i: int)
    ensures -1 <= i < |s|
    ensures i >= 0 ==> s[i] == c
    ensures forall k :: i < k < |s| ==> s[k] != c
    decreases |s|
  {
    if |s| == 0 then -1
    else if s[|s| - 1] == c then |s| - 1
    else LastIndexOf(s[..|s| - 1], c)
  }

  /**
   * `pathlib.PurePath.suffix` of a file name: from its last dot on, when that
   * dot is neither the first nor the last character; otherwise empty.
   */
  function PathSuffix(name: string): string
  {
    var i := LastIndexOf(name, '.');
    if 0 < i < |name| - 1 then name[i..] else ""
  }

  /**
   * A file name has the extension `ext` (a dot followed by at least one
   * character, none of them a dot) as its suffix exactly when it ends with
   * `ext` and something comes before it.
   */
  lemma PathSuffixIs(name: string, ext: string)
    requires |ext| >= 2 && ext[0] == '.' && '.' !in ext[1..]
    ensures PathSuffix(name) == ext <==> |name| > |ext| && EndsWith(name, ext)
  {
    var i := LastIndexOf(name, '.');
    if |name| > |ext| && EndsWith(name, ext) {
      var j := |name| - |ext|;
      assert name[j] == ext[0];
      forall k | j < k < |name| ensures name[k] != '.' {
        assert name[k] == ext[1..][k - j - 1];
      }
      assert i == j;
    }
    if PathSuffix(name) == ext {
      assert 0 < i < |name| - 1 && name[i..] == ext;
    }
  }

  /** Python's `a <= b` on strings: code-point lexicographic order. */
  predicate StrLe(a: string, b: string)
    decreases |a|
  {
    if |a| == 0 then true
    else if |b| == 0 then false
    else if a[0] != b[0] then a[0] < b[0]
    else StrLe(a[1..], b[1..])
  }

  lemma {:induction false} StrLeTotal(a: string, b: string)
    ensures StrLe(a, b) || StrLe(b, a)
    decreases |a|
  {
    if |a| > 0 && |b| > 0 && a[0] == b[0] {
      StrLeTotal(a[1..], b[1..]);
    }
  }

  lemma {:induction false} StrLeAntisymmetric(a: string, b: string)
    requires StrLe(a, b) && StrLe(b, a)
    ensures a == b
    decreases |a|
  {
    if |a| > 0 && |b| > 0 {
      StrLeAntisymmetric(a[1..], b[1..]);
      assert a == [a[0]] + a[1..] && b == [b[0]] + b[1..];
    }
  }

  lemma {:induction false} StrLeTransitive(a: string, b: string, c: string)
    requires StrLe(a, b) && StrLe(b, c)
    ensures StrLe(a, c)
    decreases |a|
  {
    if |a| > 0 && |b| > 0 && |c| > 0 && a[0] == b[0] && b[0] == c[0] {
      StrLeTransitive(a[1..], b[1..], c[1..]);
    }
  }

  predicate IsLower(ch: char) { 'a' <= ch <= 'z' }
  predicate IsUpper(ch: char) { 'A' <= ch <= 'Z' }

  function UpperChar(ch: char): char
  {
    if IsLower(ch) then (ch as int - 32) as char else ch
  }

  function LowerChar(ch: char): char
  {
    if IsUpper(ch) then (ch as int + 32) as char else ch
  }

  /** Python's `s.upper()`, restricted to ASCII letters. */
  function Upper(s: string): (r: string)
    ensures |r| == |s|
    ensures forall i :: 0 <= i < |s| ==> r[i] == UpperChar(s[i])
  {
    if |s| == 0 then "" else [UpperChar(s[0])] + Upper(s[1..])
  }

  function Lower(s: string): (r: string)
    ensures |r| == |s|
    ensures forall i :: 0 <= i < |s| ==> r[i] == LowerChar(s[i])
  {
    if |s| == 0 then "" else [LowerChar(s[0])] + Lower(s[1..])
  }

  /** Python's `s.capitalize()`, restricted to ASCII letters. */
  function Capitalize(s: string): (r: string)
    ensures |r| == |s|
    ensures |s| > 0 ==> r[0] == UpperChar(s[0])
    ensures forall i :: 0 < i < |s| ==> r[i] == LowerChar(s[i])
  {
    if |s| == 0 then "" else [UpperChar(s[0])] + Lower(s[1..])
  }

  /** A word whose tail has no upper-case letter capitalises to its upper-cased first letter and that tail. */
  lemma CapitalizeLowerWord(s: string)
    requires |s| > 0 && forall i :: 0 < i < |s| ==> !IsUpper(s[i])
    ensures Capitalize(s) == [UpperChar(s[0])] + s[1..]
  {
    var r := Capitalize(s);
    assert forall i :: 0 < i < |s| ==> r[i] == s[i];
  }

  function DigitChar(d: nat): char
    requires d < 10
  {
    "0123456789"[d]
  }

  /** Python's `str(n)` for a natural number. */
  function NatToString(n: nat): (r: string)
    ensures |r| >= 1
    ensures forall i :: 0 <= i < |r| ==> '0' <= r[i] <= '9'
  {
    if n < 10 then [DigitChar(n)] else NatToString(n / 10) + [DigitChar(n % 10)]
  }

  /** Python's `str(i)` for an integer. */
  function IntToString(i: int): string
  {
    if i < 0 then "-" + NatToString(-i) else NatToString(i)
  }

  function Repeat(ch: char, n: nat): (r: string)
    ensures |r| == n
    ensures forall k :: 0 <= k < n ==> r[k] == ch
  {
    if n == 0 then "" else Repeat(ch, n - 1) + [ch]
  }

  /** Python's `s.replace("|", "\\|")`: every bar gets a backslash before it. */
  function EscapeBars(s: string): (r: string)
    ensures '|' !in s ==> r == s
  {
    if |s| == 0 then ""
    else (if s[0] == '|' then "\\|" else [s[0]]) + EscapeBars(s[1..])
  }

  /** Every bar of the escaped text is preceded by a backslash. */
  lemma {:induction false} EscapeBarsEscapes(s: string)
    ensures forall k :: 0 <= k < |EscapeBars(s)| && EscapeBars(s)[k] == '|' ==> k > 0 && EscapeBars(s)[k - 1] == '\\'
    ensures |EscapeBars(s)| == |s| + |FilterBars(s)|
    decreases |s|
  {
    if |s| > 0 {
      EscapeBarsEscapes(s[1..]);
      var head := if s[0] == '|' then "\\|" else [s[0]];
      assert EscapeBars(s) == head + EscapeBars(s[1..]);
      forall k | 0 <= k < |EscapeBars(s)| && EscapeBars(s)[k] == '|'
        ensures k > 0 && EscapeBars(s)[k - 1] == '\\'
      {
        if k >= |head| {
          assert EscapeBars(s)[k] == EscapeBars(s[1..])[k - |head|];
          if k - |head| > 0 {
            assert EscapeBars(s)[k - 1] == EscapeBars(s[1..])[k - |head| - 1];
          }
        }
      }
    }
  }

  /** The bars of a string, in order. */
  function FilterBars(s: string): string
  {
    if |s| == 0 then "" else (if s[0] == '|' then "|" else "") + FilterBars(s[1..])
  }
}

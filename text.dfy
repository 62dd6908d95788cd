/** The string built-ins the handlers call: `String.prototype.trim`, `split(' ')`
    with `join(' ')`, `toLowerCase` and the decimal rendering of a number. */
module Text {
  import opened Js

  /** ECMAScript WhiteSpace and LineTerminator code points, which `trim` removes. */
  predicate IsSpace(c: char)
  {
    c == ' ' || c == '\t' || c == '\n' || c == '\r' || c == '\U{000B}' || c == '\U{000C}'
    || c == '\U{00A0}' || c == '\U{1680}' || ('\U{2000}' <= c <= '\U{200A}')
    || c == '\U{2028}' || c == '\U{2029}' || c == '\U{202F}' || c == '\U{205F}'
    || c == '\U{3000}' || c == '\U{FEFF}'
  }

  predicate AllSpace(s: string)
  {
    forall i :: 0 <= i < |s| ==> IsSpace(s[i])
  }

  /** `s` with its leading white space removed: the longest suffix of `s` that
      does not start with white space. */
  function TrimStart(s: string): (r: string)
    ensures |r| <= |s| && r == s[|s| - |r|..]
    ensures r == [] || !IsSpace(r[0])
    ensures forall i :: 0 <= i < |s| - |r| ==> IsSpace(s[i])
  {
    if s == [] || !IsSpace(s[0]) then s else TrimStart(s[1..])
  }

  /** `s` with its trailing white space removed: the longest prefix of `s` that
      does not end with white space. */
  function TrimEnd(s: string): (r: string)
    ensures |r| <= |s| && r == s[..|r|]
    ensures r == [] || !IsSpace(r[|r| - 1])
    ensures forall i :: |r| <= i < |s| ==> IsSpace(s[i])
  {
    if s == [] || !IsSpace(s[|s| - 1]) then s else TrimEnd(s[..|s| - 1])
  }

  /** `s.trim()`: never longer than `s`, and empty exactly when `s` is all white space. */
  function Trim(s: string): (r: string)
    ensures |r| <= |s|
    ensures r == [] <==> AllSpace(s)
  {
    TrimEnd(TrimStart(s))
  }

  /** The cut-off ends of `s` around the slice `s[i..j]` are white space when
      `s[..i]` is, and the rest of `s[i..]` after `j - i` characters is. */
  lemma SpaceAround(s: string, i: nat, j: nat)
    requires i <= j <= |s|
    requires forall k :: 0 <= k < i ==> IsSpace(s[k])
    requires forall k :: j - i <= k < |s| - i ==> IsSpace(s[i..][k])
    ensures AllSpace(s[..i]) && AllSpace(s[j..])
  {
    var after := s[j..];
    forall k | 0 <= k < |after| ensures IsSpace(after[k]) {
      assert after[k] == s[i..][j - i + k];
    }
  }

  /** `trim` keeps the slice of its argument that starts where the leading white
      space ends, and removes only white space: everything before and after that
      slice is white space. */
  lemma TrimSlice(s: string)
    ensures Trim(s) == s[|s| - |TrimStart(s)|..][..|Trim(s)|]
    ensures AllSpace(s[..|s| - |TrimStart(s)|])
    ensures AllSpace(s[|s| - |TrimStart(s)| + |Trim(s)|..])
  {
    var t := TrimStart(s);
    SpaceAround(s, |s| - |t|, |s| - |t| + |TrimEnd(t)|);
  }

  /** Neither end of a trimmed string is white space. */
  lemma TrimEnds(s: string)
    ensures Trim(s) == [] || (!IsSpace(Trim(s)[0]) && !IsSpace(Trim(s)[|Trim(s)| - 1]))
  {
    var t := TrimStart(s);
    var u := TrimEnd(t);
    if u != [] {
      assert u[0] == t[0];
    }
  }

  /** `trim` is idempotent. */
  lemma TrimTwice(s: string)
    ensures Trim(Trim(s)) == Trim(s)
  {
    TrimEnds(s);
    var u := Trim(s);
    assert TrimStart(u) == u;
    assert TrimEnd(u) == u;
  }

  /** The text of `s` between a given opening and a given tail, when `s` starts
      with the one and ends with the other without the two overlapping. */
  function Between(s: string, opening: string, tail: string): Option<string>
  {
    if |opening| + |tail| <= |s| && s[..|opening|] == opening && s[|s| - |tail|..] == tail
    then Some(s[|opening|..|s| - |tail|])
    else None
  }

  /** What is put between an opening and a tail can be read back. */
  lemma BetweenOfConcat(opening: string, middle: string, tail: string)
    ensures Between(opening + middle + tail, opening, tail) == Some(middle)
  {
    var s := opening + middle + tail;
    assert s[..|opening|] == opening;
    assert s[|s| - |tail|..] == tail;
    assert s[|opening|..|s| - |tail|] == middle;
  }

  /** `s.split(sep)` for a one-character separator: the maximal separator-free
      pieces between occurrences of `sep`, always at least one. */
  function Split(s: string, sep: char): (parts: seq<string>)
    ensures |parts| >= 1
    ensures forall p :: p in parts ==> sep !in p
  {
    if s == [] then [""]
    else
      var rest := Split(s[1..], sep);
      if s[0] == sep then [""] + rest
      else [[s[0]] + rest[0]] + rest[1..]
  }

  /** `parts.join(sep)`; the join of no parts is the empty string. */
  function Join(parts: seq<string>, sep: string): string
  {
    if parts == [] then ""
    else if |parts| == 1 then parts[0]
    else parts[0] + sep + Join(parts[1..], sep)
  }

  /** A join starts with the first part and ends with the last one, with each
      separator between two parts; no parts join to the empty string. */
  lemma {:induction false} JoinAffixes(parts: seq<string>, sep: string)
    ensures parts == [] ==> Join(parts, sep) == ""
    ensures parts != [] ==> |parts[0]| <= |Join(parts, sep)| && Join(parts, sep)[..|parts[0]|] == parts[0]
    ensures parts != [] ==> var last := parts[|parts| - 1];
      |last| <= |Join(parts, sep)| && Join(parts, sep)[|Join(parts, sep)| - |last|..] == last
    ensures |parts| >= 2 ==> |Join(parts, sep)| >= |parts[0]| + |sep| + |parts[|parts| - 1]|
  {
    if |parts| >= 2 {
      var r := Join(parts[1..], sep);
      JoinAffixes(parts[1..], sep);
      assert parts[1..][|parts[1..]| - 1] == parts[|parts| - 1];
      assert Join(parts, sep) == (parts[0] + sep) + r;
    }
  }

  /** Splitting at a character and joining with the same character gives back
      the original string. */
  lemma {:induction false} JoinSplit(s: string, sep: char)
    ensures Join(Split(s, sep), [sep]) == s
  {
    if s != [] {
      var rest := Split(s[1..], sep);
      JoinSplit(s[1..], sep);
      if s[0] == sep {
        assert Split(s, sep)[1..] == rest;
      } else {
        var parts := Split(s, sep);
        assert parts[0] == [s[0]] + rest[0];
        if |rest| == 1 {
          assert Join(parts, [sep]) == [s[0]] + rest[0];
        } else {
          assert parts[1..] == rest[1..];
          assert Join(parts, [sep]) == [s[0]] + (rest[0] + [sep] + Join(rest[1..], [sep]));
        }
      }
    }
  }

  /** The first piece of `s.split(' ')` is the text before the first space, and the
      remaining pieces joined by ' ' are the text after it. */
  lemma SplitAtFirst(s: string, sep: char)
    ensures sep !in Split(s, sep)[0]
    ensures sep !in s ==> Split(s, sep) == [s]
    ensures sep in s ==> s == Split(s, sep)[0] + [sep] + Join(Split(s, sep)[1..], [sep])
  {
    var parts := Split(s, sep);
    assert parts[0] in parts;
    JoinSplit(s, sep);
  }

  /** When the separator occurs in `s` but at neither end, the text before its
      first occurrence and the text after it are both non-empty. */
  lemma SplitAtInner(s: string, sep: char)
    requires sep in s && s[0] != sep && s[|s| - 1] != sep
    ensures Split(s, sep)[0] != [] && Join(Split(s, sep)[1..], [sep]) != []
  {
    SplitAtFirst(s, sep);
    var first, rest := Split(s, sep)[0], Join(Split(s, sep)[1..], [sep]);
    assert s[0] == (first + [sep] + rest)[0];
    assert s[|s| - 1] == (first + [sep] + rest)[|s| - 1];
  }

  /** A string written as `first + [sep] + rest` with `sep` not in `first` has its
      first `sep` at index `|first|`. */
  lemma FirstSeparator(s: string, sep: char, i: nat, first: string, rest: string)
    requires s == first + [sep] + rest && sep !in first
    requires i < |s| && s[i] == sep && forall k :: 0 <= k < i ==> s[k] != sep
    ensures first == s[..i] && rest == s[i + 1..]
  {
    assert forall k :: 0 <= k < |first| ==> s[k] == first[k];
    assert s[|first|] == sep;
  }

  /** When the first separator of `s` is at index `i`, the first piece of the split
      is the text before it and the remaining pieces joined are the text after it. */
  lemma SplitAtIndex(s: string, sep: char, i: nat)
    requires i < |s| && s[i] == sep && sep !in s[..i]
    ensures Split(s, sep)[0] == s[..i]
    ensures Join(Split(s, sep)[1..], [sep]) == s[i + 1..]
  {
    forall k | 0 <= k < i ensures s[k] != sep {
      assert s[..i][k] == s[k];
    }
    SplitAtFirst(s, sep);
    FirstSeparator(s, sep, i, Split(s, sep)[0], Join(Split(s, sep)[1..], [sep]));
  }

  /** `toLowerCase` on the ASCII letters: each upper-case letter becomes its
      lower-case letter, and every other character is kept. */
  function ToLower(s: string): (r: string)
    ensures |r| == |s|
    ensures forall i :: 0 <= i < |s| ==> !('A' <= r[i] <= 'Z')
    ensures forall i :: 0 <= i < |s| && 'A' <= s[i] <= 'Z' ==> r[i] as int == s[i] as int + 32
    ensures forall i :: 0 <= i < |s| && !('A' <= s[i] <= 'Z') ==> r[i] == s[i]
  {
    if s == [] then []
    else [if 'A' <= s[0] <= 'Z' then (s[0] as int + 32) as char else s[0]] + ToLower(s[1..])
  }

  function Digit(d: nat): char
    requires d < 10
  {
    ('0' as int + d) as char
  }

  /** The decimal rendering of a non-negative integer, as `${n}` prints it. */
  function NatToString(n: nat): (s: string)
    ensures |s| >= 1 && (s[0] == '0' ==> s == "0")
    ensures forall i :: 0 <= i < |s| ==> '0' <= s[i] <= '9'
  {
    if n < 10 then [Digit(n)] else NatToString(n / 10) + [Digit(n % 10)]
  }

  /** The value of a string of decimal digits. */
  function DecimalValue(s: string): nat
    requires forall i :: 0 <= i < |s| ==> '0' <= s[i] <= '9'
  {
    if s == [] then 0 else DecimalValue(s[..|s| - 1]) * 10 + (s[|s| - 1] as int - '0' as int)
  }

  /** The rendering can be read back, so distinct numbers print differently. */
  lemma {:induction false} NatToStringValue(n: nat)
    ensures DecimalValue(NatToString(n)) == n
  {
    if n >= 10 {
      NatToStringValue(n / 10);
      var s := NatToString(n);
      assert s[..|s| - 1] == NatToString(n / 10);
      assert s[|s| - 1] as int - '0' as int == n % 10;
      assert n == n / 10 * 10 + n % 10;
    }
  }
}

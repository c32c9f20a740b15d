/**
 * The few JavaScript string operations the dashboard relies on, over
 * `seq<char>`: `startsWith`, `includes`, `split` on one character, `trim`,
 * and `toLowerCase` / `toUpperCase` restricted to ASCII letters.
 */
module JsString {

  /** `s.startsWith(prefix)`. */
  predicate StartsWith(s: string, prefix: string)
  {
    |prefix| <= |s| && s[..|prefix|] == prefix
  }

  /** `s.includes(needle)`: the needle occurs at the front or further along. */
  predicate Includes(s: string, needle: string)
    decreases |s|
  {
    StartsWith(s, needle) || (s != [] && Includes(s[1..], needle))
  }

  /** Reference definition of an occurrence of `needle` at position `i` of `s`. */
  ghost predicate OccursAt(s: string, needle: string, i: int)
  {
    0 <= i && i + |needle| <= |s| && s[i..i + |needle|] == needle
  }

  lemma {:induction false} IncludesSound(s: string, needle: string) returns (i: int)
    requires Includes(s, needle)
    ensures OccursAt(s, needle, i)
    decreases |s|
  {
    if StartsWith(s, needle) {
      i := 0;
    } else {
      var j := IncludesSound(s[1..], needle);
      assert s[1..][j..j + |needle|] == s[j + 1..j + 1 + |needle|];
      i := j + 1;
    }
  }

  lemma {:induction false} IncludesComplete(s: string, needle: string, i: int)
    requires OccursAt(s, needle, i)
    ensures Includes(s, needle)
    decreases |s|
  {
    if i > 0 {
      assert s[1..][i - 1..i - 1 + |needle|] == s[i..i + |needle|];
      IncludesComplete(s[1..], needle, i - 1);
    }
  }

  /** `Includes` agrees with the reference definition, in both directions. */
  lemma IncludesIff(s: string, needle: string)
    ensures Includes(s, needle) <==> exists i :: OccursAt(s, needle, i)
  {
    if Includes(s, needle) {
      var i := IncludesSound(s, needle);
    }
    forall i | OccursAt(s, needle, i) ensures Includes(s, needle) {
      IncludesComplete(s, needle, i);
    }
  }

  /** The empty string occurs in every string, and every string occurs in itself. */
  lemma IncludesTrivial(s: string)
    ensures Includes(s, "") && Includes(s, s)
  {
    assert s[..|s|] == s;
    assert s[..0] == "";
  }

  // ----- ASCII case mapping -----

  function LowerChar(c: char): (r: char)
    ensures 'A' <= c <= 'Z' ==> 'a' <= r <= 'z' && r as int == c as int + 32
    ensures !('A' <= c <= 'Z') ==> r == c
  {
    if 'A' <= c <= 'Z' then (c as int + 32) as char else c
  }

  function UpperChar(c: char): (r: char)
    ensures 'a' <= c <= 'z' ==> 'A' <= r <= 'Z' && r as int == c as int - 32
    ensures !('a' <= c <= 'z') ==> r == c
  {
    if 'a' <= c <= 'z' then (c as int - 32) as char else c
  }

  /** `s.toLowerCase()` on ASCII letters; other characters are kept. */
  function ToLower(s: string): (r: string)
    ensures |r| == |s|
    ensures forall i :: 0 <= i < |s| ==> r[i] == LowerChar(s[i])
  {
    seq(|s|, i requires 0 <= i < |s| => LowerChar(s[i]))
  }

  lemma ToLowerIdempotent(s: string)
    ensures ToLower(ToLower(s)) == ToLower(s)
  {
  }

  // ----- trim -----

  /**
   * The characters `String.prototype.trim` removes: ECMAScript WhiteSpace
   * (tab, vertical tab, form feed, space, no-break space, byte order mark and
   * the Unicode space separators) and LineTerminator (LF, CR, LS, PS).
   */
  predicate IsTrimmed(c: char)
  {
    c == '\t' || c == '\n' || c == '\U{B}' || c == '\U{C}' || c == '\r' || c == ' '
    || c == '\U{A0}' || c == '\U{1680}' || ('\U{2000}' <= c <= '\U{200A}')
    || c == '\U{2028}' || c == '\U{2029}' || c == '\U{202F}' || c == '\U{205F}'
    || c == '\U{3000}' || c == '\U{FEFF}'
  }

  /** Drops leading trimmed characters. */
  function TrimStart(s: string): string
    decreases |s|
  {
    if s != [] && IsTrimmed(s[0]) then TrimStart(s[1..]) else s
  }

  /** Drops trailing trimmed characters. */
  function TrimEnd(s: string): string
    decreases |s|
  {
    if s != [] && IsTrimmed(s[|s| - 1]) then TrimEnd(s[..|s| - 1]) else s
  }

  /** `TrimStart` removes a run of trimmed characters and stops at the first other one. */
  lemma {:induction false} TrimStartSpec(s: string)
    ensures |TrimStart(s)| <= |s| && TrimStart(s) == s[|s| - |TrimStart(s)|..]
    ensures forall k :: 0 <= k < |s| - |TrimStart(s)| ==> IsTrimmed(s[k])
    ensures TrimStart(s) != [] ==> !IsTrimmed(TrimStart(s)[0])
    decreases |s|
  {
    if s != [] && IsTrimmed(s[0]) {
      TrimStartSpec(s[1..]);
      assert forall k :: 1 <= k < |s| ==> s[k] == s[1..][k - 1];
    }
  }

  /** `TrimEnd` removes a run of trimmed characters and stops at the last other one. */
  lemma {:induction false} TrimEndSpec(s: string)
    ensures |TrimEnd(s)| <= |s| && TrimEnd(s) == s[..|TrimEnd(s)|]
    ensures forall k :: |TrimEnd(s)| <= k < |s| ==> IsTrimmed(s[k])
    ensures TrimEnd(s) != [] ==> !IsTrimmed(TrimEnd(s)[|TrimEnd(s)| - 1])
    decreases |s|
  {
    if s != [] && IsTrimmed(s[|s| - 1]) {
      TrimEndSpec(s[..|s| - 1]);
      assert forall k :: 0 <= k < |s| - 1 ==> s[k] == s[..|s| - 1][k];
    }
  }

  /** `s.trim()`. */
  function Trim(s: string): (r: string)
  {
    TrimEnd(TrimStart(s))
  }

  /** The trimmed string is a slice of `s` cut only at trimmed characters, and has none at either end. */
  lemma TrimSlice(s: string) returns (i: nat, j: nat)
    ensures i <= j <= |s| && Trim(s) == s[i..j]
    ensures forall k :: 0 <= k < i ==> IsTrimmed(s[k])
    ensures forall k :: j <= k < |s| ==> IsTrimmed(s[k])
    ensures i < j ==> !IsTrimmed(s[i]) && !IsTrimmed(s[j - 1])
  {
    var t := TrimStart(s);
    var u := TrimEnd(t);
    TrimStartSpec(s);
    TrimEndSpec(t);
    assert Trim(s) == u;
    i := |s| - |t|;
    j := i + |u|;
    assert t == s[i..];
    assert u == t[..j - i];
    TrimEndTail(s, t, u, i, j);
    if i < j {
      assert u[0] == s[i];
      assert u[|u| - 1] == s[j - 1];
    }
  }

  lemma TrimEndTail(s: string, t: string, u: string, i: nat, j: nat)
    requires i <= j <= |s| && t == s[i..] && u == t[..j - i]
    requires forall k :: |u| <= k < |t| ==> IsTrimmed(t[k])
    ensures forall k :: j <= k < |s| ==> IsTrimmed(s[k])
  {
    forall k | j <= k < |s| ensures IsTrimmed(s[k]) {
      assert s[k] == t[k - i];
    }
  }

  /** A string with no trimmed character at either end is its own trim. */
  lemma TrimIdempotent(s: string)
    ensures Trim(Trim(s)) == Trim(s)
  {
    var i, j := TrimSlice(s);
    var t := Trim(s);
    assert TrimStart(t) == t;
  }

  // ----- split on one character -----

  /** Inverse of `Split`: the segments joined with `sep`. */
  function Join(parts: seq<string>, sep: char): (r: string)
    requires |parts| >= 1
    decreases |parts|
  {
    if |parts| == 1 then parts[0] else parts[0] + [sep] + Join(parts[1..], sep)
  }

  /** `s.split(sep)` for a one-character separator. */
  function Split(s: string, sep: char): (r: seq<string>)
    ensures |r| >= 1
    ensures forall k :: 0 <= k < |r| ==> sep !in r[k]
    decreases |s|
  {
    if s == [] then [""]
    else if s[0] == sep then [""] + Split(s[1..], sep)
    else
      var rest := Split(s[1..], sep);
      [[s[0]] + rest[0]] + rest[1..]
  }

  lemma {:induction false} JoinSplit(s: string, sep: char)
    ensures Join(Split(s, sep), sep) == s
    decreases |s|
  {
    if s == [] {
    } else if s[0] == sep {
      JoinSplit(s[1..], sep);
      assert Split(s, sep)[1..] == Split(s[1..], sep);
    } else {
      JoinSplit(s[1..], sep);
      var rest := Split(s[1..], sep);
      var r := Split(s, sep);
      assert r[1..] == rest[1..];
      if |rest| == 1 {
        assert r == [[s[0]] + rest[0]];
      } else {
        calc {
          Join(r, sep);
          ([s[0]] + rest[0]) + [sep] + Join(rest[1..], sep);
          [s[0]] + (rest[0] + [sep] + Join(rest[1..], sep));
          [s[0]] + Join(rest, sep);
          [s[0]] + s[1..];
        }
      }
    }
  }

  /** A separator-free head followed by the separator splits off as one segment. */
  lemma {:induction false} SplitAfterSegment(a: string, t: string, sep: char)
    requires sep !in a
    ensures Split(a + [sep] + t, sep) == [a] + Split(t, sep)
    decreases |a|
  {
    if a == [] {
      assert ([] + [sep] + t)[1..] == t;
    } else {
      SplitAfterSegment(a[1..], t, sep);
      assert (a + [sep] + t)[1..] == a[1..] + [sep] + t;
      assert [a[0]] + a[1..] == a;
    }
  }

  /** The first segment of `Split` is the longest separator-free prefix. */
  lemma {:induction false} SplitHead(s: string, sep: char)
    ensures StartsWith(s, Split(s, sep)[0])
    ensures |Split(s, sep)[0]| == |s| || s[|Split(s, sep)[0]|] == sep
    decreases |s|
  {
    if s != [] && s[0] != sep {
      SplitHead(s[1..], sep);
    }
  }

  // ----- decimal rendering of a number -----

  predicate IsDigit(c: char)
  {
    '0' <= c <= '9'
  }

  /** The number a string of decimal digits denotes. */
  function DecimalValue(s: string): nat
    requires forall k :: 0 <= k < |s| ==> IsDigit(s[k])
    decreases |s|
  {
    if s == [] then 0
    else
      assert IsDigit(s[|s| - 1]);
      DecimalValue(s[..|s| - 1]) * 10 + (s[|s| - 1] as int - '0' as int)
  }

  /** `String(n)` for a non-negative integer: its decimal digits, without leading zeros. */
  function NatToString(n: nat): (r: string)
    ensures |r| >= 1 && forall k :: 0 <= k < |r| ==> IsDigit(r[k])
    ensures DecimalValue(r) == n
    ensures r[0] == '0' ==> n == 0
    ensures |r| > 1 ==> r[0] != '0'
    decreases n
  {
    var last := ['0' + (n % 10) as char];
    if n < 10 then last
    else
      var front := NatToString(n / 10);
      var r := front + last;
      assert r[..|r| - 1] == front;
      r
  }
}

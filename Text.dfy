/** The string operations of Python the scripts rely on, on `seq<char>`: `lower` of one
    character, `split`, `partition`, `strip`, `endswith`, and what it means for a
    delimiter to occur in a text. */
module Text {
  import opened Wrappers

  /** `str.lower` on one character, for ASCII letters. */
  function Lower(c: char): (r: char)
    ensures 'A' <= c <= 'Z' ==> 'a' <= r <= 'z' && r as int - c as int == 32
    ensures !('A' <= c <= 'Z') ==> r == c
  {
    if 'A' <= c <= 'Z' then (c as int + 32) as char else c
  }

  /** `d` occurs in `s` at position `i`. */
  predicate OccursAt(s: string, d: string, i: int) {
    0 <= i && i + |d| <= |s| && s[i..i + |d|] == d
  }

  /** `d` occurs nowhere in `s`. */
  predicate Free(s: string, d: string) {
    forall i :: 0 <= i <= |s| ==> !OccursAt(s, d, i)
  }

  /** `s.find(d, k)`: the first position from `k` on where `d` occurs. */
  function FindFrom(s: string, d: string, k: nat): (r: Option<nat>)
    requires |d| > 0
    ensures r.Some? ==> k <= r.value && OccursAt(s, d, r.value)
    ensures r.Some? ==> forall j :: k <= j < r.value ==> !OccursAt(s, d, j)
    ensures r.None? ==> forall j :: k <= j ==> !OccursAt(s, d, j)
    decreases |s| - k
  {
    if k + |d| > |s| then None
    else if s[k..k + |d|] == d then Some(k)
    else FindFrom(s, d, k + 1)
  }

  function Find(s: string, d: string): (r: Option<nat>)
    requires |d| > 0
    ensures r.Some? ==> OccursAt(s, d, r.value) && forall j :: 0 <= j < r.value ==> !OccursAt(s, d, j)
    ensures r.None? <==> Free(s, d)
  {
    FindFrom(s, d, 0)
  }

  /** No occurrence before `i` means none in the text up to `i`. */
  lemma FreeBefore(s: string, d: string, i: nat)
    requires |d| > 0 && i <= |s|
    requires forall j :: 0 <= j < i ==> !OccursAt(s, d, j)
    ensures Free(s[..i], d)
  {
    forall j | 0 <= j <= i
      ensures !OccursAt(s[..i], d, j)
    {
      if j + |d| <= i {
        assert s[..i][j..j + |d|] == s[j..j + |d|];
        assert !OccursAt(s, d, j);
      }
    }
  }

  lemma Pieces(s: string, i: nat, j: nat)
    requires i <= j <= |s|
    ensures s == s[..i] + s[i..j] + s[j..]
  {
  }

  /** `s.split(d)`: the pieces between the occurrences of `d`, found left to right
      without overlap. */
  function SplitOn(s: string, d: string): (r: seq<string>)
    requires |d| > 0
    ensures |r| >= 1
    ensures forall i :: 0 <= i < |r| - 1 ==> Free(r[i], d)
    ensures Free(r[|r| - 1], d)
    decreases |s|
  {
    match Find(s, d)
    case None => [s]
    case Some(i) =>
      FreeBefore(s, d, i);
      [s[..i]] + SplitOn(s[i + |d|..], d)
  }

  /** The pieces joined again with the delimiter between them. */
  function JoinWith(pieces: seq<string>, d: string): string
    requires |pieces| >= 1
  {
    if |pieces| == 1 then pieces[0] else pieces[0] + d + JoinWith(pieces[1..], d)
  }

  /** Splitting loses nothing: joining the pieces with the delimiter gives the text back. */
  lemma {:induction false} SplitJoin(s: string, d: string)
    requires |d| > 0
    ensures JoinWith(SplitOn(s, d), d) == s
    decreases |s|
  {
    match Find(s, d)
    case None =>
    case Some(i) =>
      SplitJoin(s[i + |d|..], d);
      var tail := SplitOn(s[i + |d|..], d);
      assert SplitOn(s, d) == [s[..i]] + tail;
      assert ([s[..i]] + tail)[1..] == tail;
      Pieces(s, i, i + |d|);
  }

  /** `s.partition(d)`: the text before the first occurrence, the delimiter, and the text
      after it; the whole text and two empty strings when `d` does not occur. */
  function Partition(s: string, d: string): (r: (string, string, string))
    requires |d| > 0
    ensures r.0 + r.1 + r.2 == s
    ensures r.1 == "" <==> Free(s, d)
    ensures r.1 != "" ==> r.1 == d && Free(r.0, d)
  {
    match Find(s, d)
    case None => (s, "", "")
    case Some(i) =>
      Pieces(s, i, i + |d|);
      FreeBefore(s, d, i);
      (s[..i], d, s[i + |d|..])
  }

  /** The characters `str.strip()` removes: Python's whitespace. */
  predicate IsSpace(c: char) {
    var n := c as int;
    n == 0x20 || 0x09 <= n <= 0x0D || 0x1C <= n <= 0x1F || n == 0x85 || n == 0xA0
    || n == 0x1680 || 0x2000 <= n <= 0x200A || n == 0x2028 || n == 0x2029
    || n == 0x202F || n == 0x205F || n == 0x3000
  }

  function TrimStart(s: string): (r: string)
    ensures |r| <= |s| && r == s[|s| - |r|..]
    ensures r == [] || !IsSpace(r[0])
    ensures forall i :: 0 <= i < |s| - |r| ==> IsSpace(s[i])
  {
    if s != [] && IsSpace(s[0]) then TrimStart(s[1..]) else s
  }

  function TrimEnd(s: string): (r: string)
    ensures |r| <= |s| && r == s[..|r|]
    ensures r == [] || !IsSpace(r[|r| - 1])
    ensures forall i :: |r| <= i < |s| ==> IsSpace(s[i])
  {
    if s != [] && IsSpace(s[|s| - 1]) then TrimEnd(s[..|s| - 1]) else s
  }

  /** `str.strip()`. */
  function Strip(s: string): (r: string)
    ensures |r| <= |s|
    ensures r == [] || (!IsSpace(r[0]) && !IsSpace(r[|r| - 1]))
  {
    TrimEnd(TrimStart(s))
  }

  /** A text with no whitespace at either end is its own `strip()`. */
  lemma StripUnspaced(s: string)
    requires s == [] || (!IsSpace(s[0]) && !IsSpace(s[|s| - 1]))
    ensures Strip(s) == s
  {
  }

  predicate EndsWith(s: string, t: string) {
    |t| <= |s| && s[|s| - |t|..] == t
  }

  /** Two texts free of a delimiter without newlines stay free of it when joined at a
      newline: no occurrence can straddle the newline. */
  lemma FreeAcrossNewline(a: string, b: string, d: string)
    requires Free(a, d) && Free(b, d) && '\n' !in d
    requires (|a| > 0 && a[|a| - 1] == '\n') || (|b| > 0 && b[0] == '\n')
    ensures Free(a + b, d)
  {
    forall i | 0 <= i <= |a + b|
      ensures !OccursAt(a + b, d, i)
    {
      if i + |d| > |a + b| {
      } else if i + |d| <= |a| {
        assert (a + b)[i..i + |d|] == a[i..i + |d|];
        assert !OccursAt(a, d, i);
      } else if i >= |a| {
        assert (a + b)[i..i + |d|] == b[i - |a|..i - |a| + |d|];
        assert !OccursAt(b, d, i - |a|);
      } else if |a| > 0 && a[|a| - 1] == '\n' {
        assert (a + b)[i..i + |d|][|a| - 1 - i] == '\n';
      } else {
        assert (a + b)[i..i + |d|][|a| - i] == '\n';
      }
    }
  }

  /** Where a prefix free of a delimiter without newlines ends with a newline, no occurrence
      in a longer text starts inside the prefix. */
  lemma NoneBeforeNewline(a: string, t: string, d: string)
    requires Free(a, d) && '\n' !in d && |a| > 0 && a[|a| - 1] == '\n'
    ensures forall j :: 0 <= j < |a| ==> !OccursAt(a + t, d, j)
  {
    forall j | 0 <= j < |a|
      ensures !OccursAt(a + t, d, j)
    {
      if j + |d| > |a + t| {
      } else if j + |d| <= |a| {
        assert (a + t)[j..j + |d|] == a[j..j + |d|];
        assert !OccursAt(a, d, j);
      } else {
        assert (a + t)[j..j + |d|][|a| - 1 - j] == '\n';
      }
    }
  }

  /** The first occurrence is where one occurs with none before it. */
  lemma FindIs(s: string, d: string, k: nat)
    requires |d| > 0 && OccursAt(s, d, k)
    requires forall j :: 0 <= j < k ==> !OccursAt(s, d, j)
    ensures Find(s, d) == Some(k)
  {
  }
}

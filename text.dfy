/** The two string operations the loaders use on each line: `str.strip()`
    and `str.split(',')`. */
module Text {

  /** The characters `str.strip()` removes: the characters Python's `str`
      classes as whitespace. */
  predicate IsSpace(c: char) {
    c == ' ' || c == '\t' || c == '\n' || c == '\r' ||
    c == 11 as char || c == 12 as char ||
    (28 <= c as int <= 31) || c as int == 0x85 || c as int == 0xA0 ||
    c as int == 0x1680 || (0x2000 <= c as int <= 0x200A) ||
    c as int == 0x2028 || c as int == 0x2029 || c as int == 0x202F ||
    c as int == 0x205F || c as int == 0x3000
  }

  /** `s` with its leading whitespace removed. */
  function TrimLeft(s: string): (r: string)
    ensures |r| <= |s| && r == s[|s| - |r|..]
    ensures forall k :: 0 <= k < |s| - |r| ==> IsSpace(s[k])
    ensures r == [] || !IsSpace(r[0])
  {
    if s != [] && IsSpace(s[0]) then TrimLeft(s[1..]) else s
  }

  /** `s` with its trailing whitespace removed. */
  function TrimRight(s: string): (r: string)
    ensures |r| <= |s| && r == s[..|r|]
    ensures forall k :: |r| <= k < |s| ==> IsSpace(s[k])
    ensures r == [] || !IsSpace(r[|r| - 1])
  {
    if s != [] && IsSpace(s[|s| - 1]) then TrimRight(s[..|s| - 1]) else s
  }

  /** `r` is the slice of `s` starting at `a`, and everything of `s` before
      and after that slice is whitespace. */
  predicate Framed(s: string, a: int, r: string) {
    0 <= a && a + |r| <= |s| && r == s[a..a + |r|] &&
    (forall k :: 0 <= k < a ==> IsSpace(s[k])) &&
    (forall k :: a + |r| <= k < |s| ==> IsSpace(s[k]))
  }

  /** `s.strip()`: the part of `s` between its leading and trailing whitespace. */
  function Strip(s: string): (r: string)
    ensures exists a :: Framed(s, a, r)
    ensures r == [] || (!IsSpace(r[0]) && !IsSpace(r[|r| - 1]))
  {
    var l := TrimLeft(s);
    var r := TrimRight(l);
    var a := |s| - |l|;
    assert r == s[a..a + |r|];
    forall k | a + |r| <= k < |s|
      ensures IsSpace(s[k])
    {
      assert s[k] == l[k - a];
    }
    assert Framed(s, a, r);
    r
  }

  /** Every character of the line is whitespace. */
  predicate IsBlank(line: string)
    decreases |line|
  {
    line == [] || (IsSpace(line[0]) && IsBlank(line[1..]))
  }

  lemma {:induction false} BlankIsAllSpace(line: string)
    ensures IsBlank(line) <==> forall k :: 0 <= k < |line| ==> IsSpace(line[k])
    decreases |line|
  {
    if line != [] {
      BlankIsAllSpace(line[1..]);
      assert forall k :: 1 <= k < |line| ==> line[k] == line[1..][k - 1];
    }
  }

  lemma StripEmptyIffAllSpace(line: string)
    ensures Strip(line) == [] <==> forall k :: 0 <= k < |line| ==> IsSpace(line[k])
  {
    var left := TrimLeft(line);
    if !forall k :: 0 <= k < |line| ==> IsSpace(line[k]) {
      var k :| 0 <= k < |line| && !IsSpace(line[k]);
      assert k >= |line| - |left|;
      assert left[k - (|line| - |left|)] == line[k];
      var right := TrimRight(left);
      assert k - (|line| - |left|) < |right|;
    }
  }

  /** `line.strip()` is empty (so the loaders skip the line) exactly when the
      line is blank. */
  lemma StripEmptyIffBlank(line: string)
    ensures Strip(line) == [] <==> IsBlank(line)
  {
    BlankIsAllSpace(line);
    StripEmptyIffAllSpace(line);
  }

  /** The fields joined back together with the separator between them. */
  function Join(fields: seq<string>, sep: char): string
    requires |fields| >= 1
  {
    if |fields| == 1 then fields[0] else fields[0] + [sep] + Join(fields[1..], sep)
  }

  /** `s.split(sep)`: the maximal separator-free pieces of `s`, in order;
      always at least one, possibly empty, piece. */
  function Split(s: string, sep: char): (fields: seq<string>)
    ensures |fields| >= 1
    ensures forall i :: 0 <= i < |fields| ==> sep !in fields[i]
    ensures Join(fields, sep) == s
    decreases |s|
  {
    if s == [] then [[]]
    else
      var rest := Split(s[1..], sep);
      if s[0] == sep then
        assert ([[]] + rest)[1..] == rest;
        [[]] + rest
      else
        var fields := [[s[0]] + rest[0]] + rest[1..];
        assert |rest| > 1 ==> fields[1..] == rest[1..] && Join(rest, sep) == rest[0] + [sep] + Join(rest[1..], sep);
        assert s == [s[0]] + s[1..];
        fields
  }

  /** Splitting a string with no separator in it gives the string itself. */
  lemma {:induction false} SplitWithoutSeparator(s: string, sep: char)
    requires sep !in s
    ensures Split(s, sep) == [s]
    decreases |s|
  {
    if s != [] {
      SplitWithoutSeparator(s[1..], sep);
      assert [s[0]] + s[1..] == s;
    }
  }
}

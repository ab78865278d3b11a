/**
 * The two string operations of Go that the reminder engine relies on: len(),
 * which counts the bytes of a string's UTF-8 encoding, and strings.ReplaceAll.
 */
module Text {

  /** The number of bytes UTF-8 uses for one character. */
  function Utf8Width(c: char): (n: nat)
    ensures 1 <= n <= 4
    ensures n == 1 <==> c < 0x80 as char
  {
    if c < 0x80 as char then 1
    else if c < 0x800 as char then 2
    else if c < 0x1_0000 as char then 3
    else 4
  }

  /** Go's len(s): the length in bytes of the UTF-8 encoding of s. */
  function ByteLen(s: string): (n: nat)
    ensures n >= |s|
    ensures n == |s| <==> forall i :: 0 <= i < |s| ==> s[i] < 0x80 as char
  {
    if s == [] then 0
    else
      var n := Utf8Width(s[0]) + ByteLen(s[1..]);
      assert forall i :: 1 <= i < |s| ==> s[i] == s[1..][i - 1];
      n
  }

  /** The pattern p starts at position i of s. */
  predicate Occurs(s: string, p: string, i: int) {
    0 <= i && i + |p| <= |s| && s[i..i + |p|] == p
  }

  /** s with rep inserted before every character and at the end (Go's rule for an empty pattern). */
  function InsertAround(s: string, rep: string): (r: string)
    ensures |r| == |s| + (|s| + 1) * |rep|
  {
    if s == [] then rep else rep + [s[0]] + InsertAround(s[1..], rep)
  }

  /**
   * strings.ReplaceAll(s, pat, rep): every leftmost, non-overlapping occurrence
   * of pat in s replaced by rep, scanning from the left.
   */
  function ReplaceAll(s: string, pat: string, rep: string): (r: string)
    // A replacement as long as the pattern keeps the length; the pattern for itself keeps the text.
    ensures |pat| > 0 && |rep| == |pat| ==> |r| == |s|
    ensures |pat| > 0 && rep == pat ==> r == s
    decreases |s|
  {
    if |pat| == 0 then InsertAround(s, rep)
    else if s == [] then []
    else if |pat| <= |s| && s[..|pat|] == pat then
      assert s[..|pat|] + s[|pat|..] == s;
      rep + ReplaceAll(s[|pat|..], pat, rep)
    else
      assert [s[0]] + s[1..] == s;
      [s[0]] + ReplaceAll(s[1..], pat, rep)
  }

  /** Where pat does not start at 0, ReplaceAll keeps the first character and goes on. */
  lemma ReplaceAllSkip(s: string, pat: string, rep: string)
    requires |pat| > 0 && s != [] && !Occurs(s, pat, 0)
    ensures ReplaceAll(s, pat, rep) == [s[0]] + ReplaceAll(s[1..], pat, rep)
  {
  }

  /** Where pat starts at 0, ReplaceAll writes rep and goes on after the occurrence. */
  lemma ReplaceAllTake(s: string, pat: string, rep: string)
    requires |pat| > 0 && Occurs(s, pat, 0)
    ensures ReplaceAll(s, pat, rep) == rep + ReplaceAll(s[|pat|..], pat, rep)
  {
    assert s[..|pat|] == pat;
  }

  /** Occurrences move one place to the left when the first character is dropped. */
  lemma OccursShift(s: string, pat: string, i: int)
    requires s != [] && 0 <= i
    ensures Occurs(s[1..], pat, i) <==> Occurs(s, pat, i + 1)
  {
    if i + |pat| <= |s[1..]| {
      assert s[1..][i..i + |pat|] == s[i + 1..i + 1 + |pat|];
    }
  }

  /** A string in which pat never occurs comes back unchanged. */
  lemma {:induction false} ReplaceAllAbsent(s: string, pat: string, rep: string)
    ensures |pat| > 0 && (forall i :: 0 <= i < |s| ==> !Occurs(s, pat, i)) ==> ReplaceAll(s, pat, rep) == s
    decreases |s|
  {
    if |pat| > 0 && s != [] && forall i :: 0 <= i < |s| ==> !Occurs(s, pat, i) {
      ReplaceAllSkip(s, pat, rep);
      forall i | 0 <= i < |s[1..]|
        ensures !Occurs(s[1..], pat, i)
      {
        OccursShift(s, pat, i);
      }
      ReplaceAllAbsent(s[1..], pat, rep);
      assert [s[0]] + s[1..] == s;
    }
  }

  /** A pattern at the very start is replaced first. */
  lemma ReplaceAllAtStart(pat: string, y: string, rep: string)
    requires |pat| > 0
    ensures ReplaceAll(pat + y, pat, rep) == rep + ReplaceAll(y, pat, rep)
  {
    var s := pat + y;
    assert s[..|pat|] == pat && s[|pat|..] == y;
    ReplaceAllTake(s, pat, rep);
  }

  /** A first character that cannot start pat is kept. */
  lemma ReplaceAllKeepFirst(x: string, pat: string, y: string, rep: string)
    requires |pat| > 0 && x != [] && x[0] != pat[0]
    ensures ReplaceAll(x + pat + y, pat, rep) == [x[0]] + ReplaceAll(x[1..] + pat + y, pat, rep)
  {
    var s := x + pat + y;
    assert s[..|pat|][0] == x[0] != pat[0];
    ReplaceAllSkip(s, pat, rep);
    DropFirst(x, pat + y);
    assert x + pat + y == x + (pat + y) && x[1..] + pat + y == x[1..] + (pat + y);
  }

  lemma DropFirst(x: string, z: string)
    requires x != []
    ensures (x + z)[1..] == x[1..] + z
  {
  }

  /**
   * When no character of x can start pat, the first occurrence of pat in
   * x + pat + y is the one right after x: x is kept, that occurrence becomes
   * rep, and the scan goes on in y.
   */
  lemma {:induction false} ReplaceAllAfter(x: string, pat: string, y: string, rep: string)
    requires |pat| > 0 && forall i :: 0 <= i < |x| ==> x[i] != pat[0]
    ensures ReplaceAll(x + pat + y, pat, rep) == x + rep + ReplaceAll(y, pat, rep)
    decreases |x|
  {
    if x == [] {
      assert x + pat + y == pat + y;
      ReplaceAllAtStart(pat, y, rep);
    } else {
      var rest := x[1..];
      assert forall i :: 0 <= i < |rest| ==> rest[i] != pat[0] by {
        forall i | 0 <= i < |rest| ensures rest[i] != pat[0] {
          assert rest[i] == x[i + 1];
        }
      }
      ReplaceAllKeepFirst(x, pat, y, rep);
      ReplaceAllAfter(rest, pat, y, rep);
      ConsRegroup(x, rep, ReplaceAll(y, pat, rep));
    }
  }

  lemma ConsRegroup(x: string, rep: string, tail: string)
    requires x != []
    ensures [x[0]] + (x[1..] + rep + tail) == x + rep + tail
  {
    assert [x[0]] + x[1..] == x;
  }
}

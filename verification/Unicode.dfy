/** Well-formed UTF-8, which every string of the program is: section 4 of RFC 3629. */
module Unicode {
  import opened Basics

  predicate Continuation(b: byte) {
    0x80 <= b <= 0xBF
  }

  /** The first two bytes of a character of three. */
  predicate LeadsThree(a: byte, b: byte) {
    || (a == 0xE0 && 0xA0 <= b <= 0xBF)
    || (a == 0xED && 0x80 <= b <= 0x9F)
    || (0xE1 <= a <= 0xEF && a != 0xED && Continuation(b))
  }

  /** The first two bytes of a character of four. */
  predicate LeadsFour(a: byte, b: byte) {
    || (a == 0xF0 && 0x90 <= b <= 0xBF)
    || (a == 0xF4 && 0x80 <= b <= 0x8F)
    || (0xF1 <= a <= 0xF3 && Continuation(b))
  }

  /** The length of the well-formed character in front, 0 if there is none. */
  function CharLength(s: seq<byte>): (n: nat)
    ensures n <= |s| && n <= 4
  {
    if s == [] then 0
    else if s[0] <= 0x7F then 1
    else if |s| >= 2 && 0xC2 <= s[0] <= 0xDF && Continuation(s[1]) then 2
    else if |s| >= 3 && LeadsThree(s[0], s[1]) && Continuation(s[2]) then 3
    else if |s| >= 4 && LeadsFour(s[0], s[1]) && Continuation(s[2]) && Continuation(s[3]) then 4
    else 0
  }

  predicate Utf8(s: seq<byte>)
    decreases |s|
  {
    s == [] || (CharLength(s) > 0 && Utf8(s[CharLength(s)..]))
  }

  lemma {:induction false} Ascii(s: seq<byte>)
    requires forall i :: 0 <= i < |s| ==> s[i] <= 0x7F
    ensures Utf8(s)
    decreases |s|
  {
    if s == [] {
    } else {
      Ascii(s[1..]);
    }
  }

  lemma {:induction false} Utf8Concat(a: seq<byte>, b: seq<byte>)
    requires Utf8(a)
    ensures Utf8(a + b) <==> Utf8(b)
    decreases |a|
  {
    if a == [] {
      assert a + b == b;
    } else {
      var n := CharLength(a);
      assert (a + b)[n..] == a[n..] + b;
      Utf8Concat(a[n..], b);
    }
  }

  /** A string can be cut in front of any byte that does not continue a character. */
  lemma {:induction false} Utf8Cut(a: seq<byte>, b: seq<byte>)
    requires Utf8(a + b) && b != [] && !Continuation(b[0])
    ensures Utf8(a)
    decreases |a|
  {
    if a == [] {
    } else {
      var n := CharLength(a + b);
      assert forall i :: 1 <= i < n ==> Continuation((a + b)[i]);
      assert (a + b)[|a|] == b[0];
      assert n <= |a| && a[..n] == (a + b)[..n];
      assert (a + b)[n..] == a[n..] + b;
      Utf8Cut(a[n..], b);
    }
  }
}

/**
 A thread's error text: the message of its last call, cut to a bound without splitting a character.
 */
module ErrorText {

  const BB_ERROR_MAX := 4095

  type Byte = b: nat | b < 256

  /** The bytes of a C string, before its terminating zero. */
  type CString = s: seq<Byte> | 0 !in s witness []

  // ---- UTF-8, section 4 of RFC 3629 -----------------------------------------------------------

  /** A byte 10xxxxxx: one that is not the first of its character. */
  predicate Continues(b: Byte) { 0x80 <= b <= 0xBF }

  /** The length of the character a byte begins, 0 when it begins none. */
  function Length(first: Byte): nat {
    if first <= 0x7F then 1
    else if 0xC2 <= first <= 0xDF then 2
    else if 0xE0 <= first <= 0xEF then 3
    else if 0xF0 <= first <= 0xF4 then 4
    else 0
  }

  /** What the second byte may be: no overlong form, no surrogate, nothing past U+10FFFF. */
  predicate Second(first: Byte, second: Byte) {
    && Continues(second)
    && (first == 0xE0 ==> second >= 0xA0)
    && (first == 0xED ==> second <= 0x9F)
    && (first == 0xF0 ==> second >= 0x90)
    && (first == 0xF4 ==> second <= 0x8F)
  }

  /** `s` begins with a character of `n` bytes. */
  predicate Begins(s: seq<Byte>, n: nat) {
    && 1 <= n <= |s| && n == Length(s[0])
    && (n >= 2 ==> Second(s[0], s[1])) && (n >= 3 ==> Continues(s[2])) && (n == 4 ==> Continues(s[3]))
  }

  /** The characters there are, and their bytes, section 3 of RFC 3629. */
  predicate Scalar(c: nat) { c <= 0x10FFFF && !(0xD800 <= c <= 0xDFFF) }

  function Encoded(c: nat): seq<Byte>
    requires Scalar(c)
  {
    if c < 0x80 then [c]
    else if c < 0x800 then [0xC0 + c / 64, 0x80 + c % 64]
    else if c < 0x1_0000 then [0xE0 + c / 4096, 0x80 + c / 64 % 64, 0x80 + c % 64]
    else [0xF0 + c / 262144, 0x80 + c / 4096 % 64, 0x80 + c / 64 % 64, 0x80 + c % 64]
  }

  lemma TwoSpell(s: seq<Byte>) returns (c: nat)
    requires Begins(s, 2)
    ensures Scalar(c) && s[..2] == Encoded(c)
  {
    var x: int, y: int := s[0] - 0xC0, s[1] - 0x80;
    c := 64 * x + y;
    assert c / 64 == x && c % 64 == y;
  }

  lemma ThreeSpell(s: seq<Byte>) returns (c: nat)
    requires Begins(s, 3)
    ensures Scalar(c) && s[..3] == Encoded(c)
  {
    var x: int, y: int, z: int := s[0] - 0xE0, s[1] - 0x80, s[2] - 0x80;
    c := 64 * (64 * x + y) + z;
    assert c / 64 == 64 * x + y && c % 64 == z && c / 4096 == x;
  }

  lemma FourSpell(s: seq<Byte>) returns (c: nat)
    requires Begins(s, 4)
    ensures Scalar(c) && s[..4] == Encoded(c)
  {
    var w: int, x: int, y: int, z: int := s[0] - 0xF0, s[1] - 0x80, s[2] - 0x80, s[3] - 0x80;
    c := 64 * (64 * (64 * w + x) + y) + z;
    assert c / 64 == 64 * (64 * w + x) + y && c % 64 == z && c / 4096 == 64 * w + x && c / 262144 == w;
  }

  /** The character that the first `n` bytes spell. */
  lemma Spell(s: seq<Byte>, n: nat) returns (c: nat)
    requires Begins(s, n)
    ensures Scalar(c) && s[..n] == Encoded(c)
  {
    match n
    case 1 => c := s[0];
    case 2 => c := TwoSpell(s);
    case 3 => c := ThreeSpell(s);
    case 4 => c := FourSpell(s);
  }

  lemma EncodedBegins(s: seq<Byte>, n: nat, c: nat)
    requires Scalar(c) && n <= |s| && s[..n] == Encoded(c)
    ensures Begins(s, n)
  {
    assert n == |Encoded(c)| && forall i :: 0 <= i < n ==> s[i] == s[..n][i];
  }

  /** A text begins with a character of so many bytes exactly if they are some character's encoding. */
  lemma BeginsIff(s: seq<Byte>, n: nat)
    ensures Begins(s, n) <==> n <= |s| && exists c :: Scalar(c) && s[..n] == Encoded(c)
  {
    if Begins(s, n) { var c := Spell(s, n); }
    if c :| n <= |s| && Scalar(c) && s[..n] == Encoded(c) { EncodedBegins(s, n, c); }
  }

  /** A byte goes on with a character exactly if its top two bits are 10. */
  lemma ContinuesIff(b: Byte)
    ensures Continues(b) <==> b / 64 == 2
  {}

  /** Whole characters, one after another. */
  predicate Utf8(s: seq<Byte>) {
    s == [] || (var n := Length(s[0]); Begins(s, n) && Utf8(s[n..]))
  }

  /** A prefix of valid text is whole exactly when no character goes on after it. */
  lemma {:induction false} WholePrefix(s: seq<Byte>, i: nat)
    requires Utf8(s) && i <= |s|
    ensures Utf8(s[..i]) <==> i == |s| || !Continues(s[i])
  {
    if i > 0 {
      var n := Length(s[0]);
      if i < n {
        assert s[..i][0] == s[0];
        assert Continues(s[i]);
      } else {
        WholePrefix(s[n..], i - n);
        assert s[..i][n..] == s[n..][..i - n];
        assert s[..i][..n] == s[..n];
        assert i < |s| ==> s[n..][i - n] == s[i];
      }
    }
  }

  /** No character goes on for more than three bytes. */
  lemma {:induction false} NearBoundary(s: seq<Byte>, i: nat)
    requires Utf8(s) && 3 <= i < |s|
    ensures !Continues(s[i]) || !Continues(s[i - 1]) || !Continues(s[i - 2]) || !Continues(s[i - 3])
  {
    var n := Length(s[0]);
    var rest := s[n..];
    if i >= n + 3 {
      NearBoundary(rest, i - n);
    } else if i >= n {
      assert Utf8(rest) && rest[0] == s[n];
    }
  }

  // ---- the buffer -----------------------------------------------------------------------------

  /** The bytes before the first zero. */
  function UpToZero(s: seq<Byte>): seq<Byte> {
    if s == [] || s[0] == 0 then [] else [s[0]] + UpToZero(s[1..])
  }

  lemma {:induction false} EndsAtZero(text: seq<Byte>, rest: seq<Byte>)
    requires 0 !in text && rest != [] && rest[0] == 0
    ensures UpToZero(text + rest) == text
  {
    if text == [] {
      assert text + rest == rest;
    } else {
      EndsAtZero(text[1..], rest);
      assert (text + rest)[1..] == text[1..] + rest;
    }
  }

  /** Where a message is cut: at the bound, or as many bytes before it as the character there has
      already had, three at most. */
  ghost predicate CutAt(s: seq<Byte>, n: nat) {
    if |s| <= BB_ERROR_MAX then n == |s|
    else
      && BB_ERROR_MAX - 3 <= n <= BB_ERROR_MAX
      && (forall i :: n < i <= BB_ERROR_MAX ==> Continues(s[i]))
      && (n == BB_ERROR_MAX - 3 || !Continues(s[n]))
  }

  /** For valid text that is the longest prefix of whole characters within the bound. */
  lemma LongestWhole(s: seq<Byte>, n: nat)
    requires Utf8(s) && CutAt(s, n)
    ensures n <= |s| && Utf8(s[..n])
    ensures forall m :: n < m <= |s| && m <= BB_ERROR_MAX ==> !Utf8(s[..m])
  {
    hide Utf8, Continues;
    if |s| <= BB_ERROR_MAX {
      assert s[..n] == s;
    } else {
      NearBoundary(s, BB_ERROR_MAX);
      WholePrefix(s, n);
      forall m | n < m <= BB_ERROR_MAX ensures !Utf8(s[..m]) { WholePrefix(s, m); }
    }
  }

  /** For any bytes at all it is a prefix not shorter than the bound less three. */
  lemma NeverMuchShorter(s: seq<Byte>, n: nat)
    requires CutAt(s, n)
    ensures n <= |s| && n <= BB_ERROR_MAX
    ensures |s| <= BB_ERROR_MAX ==> s[..n] == s
    ensures |s| > BB_ERROR_MAX ==> n >= BB_ERROR_MAX - 3
  {}

  class ThreadState {
    const buf: array<Byte>
    var nrc: int
    var routing: int

    ghost predicate Valid()
      reads this
    {
      buf.Length == BB_ERROR_MAX + 1
    }

    constructor ()
      ensures Valid() && fresh(buf) && UpToZero(buf[..]) == [] && nrc == -1 && routing == -1
    {
      buf := new Byte[BB_ERROR_MAX + 1](_ => 0);
      nrc, routing := -1, -1;
    }

    /** Stores a message, and forgets what the thread's last call left beside its own. */
    method ErrSet(s: CString) returns (ghost n: nat)
      requires Valid()
      modifies this, buf
      ensures Valid() && nrc == -1 && routing == -1
      ensures n <= |s| && CutAt(s, n) && UpToZero(buf[..]) == s[..n]
    {
      nrc, routing := -1, -1;
      var cut := |s|;
      if cut > BB_ERROR_MAX {
        cut := BB_ERROR_MAX;
        var back := 0;
        while back < 3 && cut > 0 && Continues(s[cut])
          invariant 0 <= back <= 3 && cut == BB_ERROR_MAX - back
          invariant forall i :: cut < i <= BB_ERROR_MAX ==> Continues(s[i])
        {
          cut, back := cut - 1, back + 1;
        }
      }
      for i := 0 to cut
        modifies buf
        invariant buf[..i] == s[..i]
      {
        buf[i] := s[i];
      }
      buf[cut] := 0;
      n := cut;
      EndsAtZero(s[..cut], buf[cut..]);
      assert buf[..] == s[..cut] + buf[cut..];
    }
  }
}

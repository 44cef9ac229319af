/** Text as Python sees it: white space, and sizes in UTF-8 (section 3 of RFC 3629: one to four octets each). */
module Utf8 {

  predicate Space(c: char) {
    || '\t' <= c <= '\r' || '\U{1C}' <= c <= ' ' || c in {'\U{85}', '\U{A0}', '\U{1680}'}
    || '\U{2000}' <= c <= '\U{200A}' || c in {'\U{2028}', '\U{2029}', '\U{202F}', '\U{205F}', '\U{3000}'}
  }

  /** The twenty-nine white-space code points. */
  lemma {:induction false} SpaceExact(c: char)
    ensures Space(c) <==>
            c as int in {9, 10, 11, 12, 13, 28, 29, 30, 31, 32, 133, 160, 5760, 8192, 8193, 8194, 8195, 8196, 8197,
                         8198, 8199, 8200, 8201, 8202, 8232, 8233, 8239, 8287, 12288}
  {
  }

  /** `not text.strip()`. */
  predicate Blank(text: string) {
    forall i :: 0 <= i < |text| ==> Space(text[i])
  }

  function CharBytes(c: char): (n: nat)
    ensures 1 <= n <= 4
    ensures n == 1 <==> c < '\U{80}'
    ensures n <= 2 <==> c < '\U{800}'
    ensures n <= 3 <==> c < '\U{10000}'
  {
    var code := c as int;
    if code < 0x80 then 1 else if code < 0x800 then 2 else if code < 0x10000 then 3 else 4
  }

  function ByteLength(s: string): nat {
    if s == "" then 0 else ByteLength(s[..|s| - 1]) + CharBytes(s[|s| - 1])
  }

  lemma {:induction false} ByteLengthConcat(a: string, b: string)
    ensures ByteLength(a + b) == ByteLength(a) + ByteLength(b)
    decreases |b|
  {
    if b == "" {
      assert a + b == a;
    } else {
      assert (a + b)[..|a + b| - 1] == a + b[..|b| - 1];
      ByteLengthConcat(a, b[..|b| - 1]);
    }
  }

  lemma {:induction false} ByteLengthPositive(s: string)
    ensures ByteLength(s) >= |s|
  {
    if s != "" {
      ByteLengthPositive(s[..|s| - 1]);
    }
  }
}

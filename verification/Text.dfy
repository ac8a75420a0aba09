/** The text operations of Go's strings package that the shipment service relies on. */
module Text {

  datatype Option<+T> = None | Some(value: T)

  /** White space in the sense of strings.TrimSpace: the Unicode White_Space property. */
  predicate IsSpace(c: char) {
    || c == '\t' || c == '\n' || c == '\U{0B}' || c == '\U{0C}' || c == '\r' || c == ' '
    || c == '\U{85}' || c == '\U{A0}' || c == '\U{1680}'
    || '\U{2000}' <= c <= '\U{200A}'
    || c == '\U{2028}' || c == '\U{2029}' || c == '\U{202F}' || c == '\U{205F}' || c == '\U{3000}'
  }

  /** The 25 code points with that property. */
  const WHITE_SPACE: set<int> := {
    0x09, 0x0A, 0x0B, 0x0C, 0x0D, 0x20, 0x85, 0xA0, 0x1680, 0x2000, 0x2001, 0x2002, 0x2003, 0x2004, 0x2005, 0x2006,
    0x2007, 0x2008, 0x2009, 0x200A, 0x2028, 0x2029, 0x202F, 0x205F, 0x3000}

  lemma SpacesAre(c: char)
    ensures IsSpace(c) <==> c as int in WHITE_SPACE
  {
    assert c as int as char == c;
  }

  function TrimLeft(s: string): (r: string) {
    if s != "" && IsSpace(s[0]) then TrimLeft(s[1..]) else s
  }

  function TrimRight(s: string): (r: string) {
    if s != "" && IsSpace(s[|s| - 1]) then TrimRight(s[..|s| - 1]) else s
  }

  function TrimSpace(s: string): (r: string) {
    TrimRight(TrimLeft(s))
  }

  /** No white space at either end. */
  predicate Trimmed(s: string) {
    s == "" || (!IsSpace(s[0]) && !IsSpace(s[|s| - 1]))
  }

  lemma {:induction false} TrimLeftDropsPrefix(s: string)
    ensures TrimLeft(s) == "" || !IsSpace(TrimLeft(s)[0])
  {
    if s != "" && IsSpace(s[0]) {
      TrimLeftDropsPrefix(s[1..]);
    }
  }

  lemma {:induction false} TrimRightDropsSuffix(s: string)
    ensures TrimRight(s) == "" || !IsSpace(TrimRight(s)[|TrimRight(s)| - 1])
    ensures TrimRight(s) <= s
  {
    if s != "" && IsSpace(s[|s| - 1]) {
      TrimRightDropsSuffix(s[..|s| - 1]);
    }
  }

  /** Trimming reaches a text without outer white space, and such a text is a fixed point of it. */
  lemma TrimSpaceIsIdempotent(s: string)
    ensures Trimmed(TrimSpace(s))
    ensures TrimSpace(TrimSpace(s)) == TrimSpace(s)
    ensures Trimmed(s) ==> TrimSpace(s) == s
  {
    TrimLeftDropsPrefix(s);
    TrimRightDropsSuffix(TrimLeft(s));
  }

  predicate AllSpace(s: string) {
    forall i :: 0 <= i < |s| ==> IsSpace(s[i])
  }

  lemma {:induction false} TrimLeftCuts(s: string) returns (cut: string)
    ensures s == cut + TrimLeft(s) && AllSpace(cut)
  {
    if s != "" && IsSpace(s[0]) {
      var rest := TrimLeftCuts(s[1..]);
      cut := [s[0]] + rest;
      assert s == [s[0]] + s[1..];
    } else {
      cut := "";
    }
  }

  lemma {:induction false} TrimRightCuts(s: string) returns (cut: string)
    ensures s == TrimRight(s) + cut && AllSpace(cut)
  {
    if s != "" && IsSpace(s[|s| - 1]) {
      var rest := TrimRightCuts(s[..|s| - 1]);
      cut := rest + [s[|s| - 1]];
      assert s == s[..|s| - 1] + [s[|s| - 1]];
    } else {
      cut := "";
    }
  }

  lemma Regroup(a: string, b: string, c: string)
    ensures a + (b + c) == a + b + c
  {
  }

  /** Trimming takes white space from both ends and nothing else. */
  lemma TrimSpaceCuts(s: string) returns (before: string, after: string)
    ensures s == before + TrimSpace(s) + after && AllSpace(before) && AllSpace(after) && Trimmed(TrimSpace(s))
  {
    before := TrimLeftCuts(s);
    after := TrimRightCuts(TrimLeft(s));
    TrimSpaceIsIdempotent(s);
    Regroup(before, TrimSpace(s), after);
  }

  /** Upper-casing of the ASCII letters. */
  function UpperChar(c: char): (r: char)
    ensures if 'a' <= c <= 'z' then 'A' <= r <= 'Z' && r as int - 'A' as int == c as int - 'a' as int else r == c
  {
    if 'a' <= c <= 'z' then (c as int - 32) as char else c
  }

  function ToUpper(s: string): (r: string)
    ensures |r| == |s|
    ensures forall i :: 0 <= i < |s| ==> r[i] == UpperChar(s[i])
  {
    if s == "" then "" else [UpperChar(s[0])] + ToUpper(s[1..])
  }

  /** Number of bytes of the UTF-8 encoding, which is what Go's len counts. */
  function ByteLen(s: string): (n: nat) {
    if s == "" then 0
    else
      ByteLen(s[1..])
      + (if s[0] < '\U{80}' then 1 else if s[0] < '\U{800}' then 2 else if s[0] < '\U{10000}' then 3 else 4)
  }

  /** Section 3 of RFC 3629: the bytes of a character, seven bits in one, or six in every byte but the first. */
  function Utf8(c: char): (bytes: seq<nat>)
    ensures forall i :: 0 <= i < |bytes| ==> bytes[i] < 0x100
  {
    var n := c as int;
    if n <= 0x7F then [n]
    else if n <= 0x7FF then [0xC0 + n / 0x40, 0x80 + n % 0x40]
    else if n <= 0xFFFF then [0xE0 + n / 0x1000, 0x80 + n / 0x40 % 0x40, 0x80 + n % 0x40]
    else [0xF0 + n / 0x40000, 0x80 + n / 0x1000 % 0x40, 0x80 + n / 0x40 % 0x40, 0x80 + n % 0x40]
  }

  function Utf8Text(s: string): (bytes: seq<nat>) {
    if s == "" then [] else Utf8(s[0]) + Utf8Text(s[1..])
  }

  /** ByteLen counts the bytes of the encoding. */
  lemma {:induction false} ByteLenIsUtf8(s: string)
    ensures ByteLen(s) == |Utf8Text(s)|
  {
    if s != "" {
      ByteLenIsUtf8(s[1..]);
    }
  }

  lemma {:induction false} ByteLenOfConcat(a: string, b: string)
    ensures ByteLen(a + b) == ByteLen(a) + ByteLen(b)
  {
    if a == "" {
      assert a + b == b;
    } else {
      ByteLenOfConcat(a[1..], b);
      assert (a + b)[1..] == a[1..] + b;
    }
  }

  predicate ValidLength(value: string, maximum: nat) {
    0 < ByteLen(TrimSpace(value)) <= maximum
  }

  type Nibble = n: nat | n < 16

  const HEX_DIGITS: string := "0123456789abcdef"

  function Hex(digits: seq<Nibble>): (s: string)
    ensures |s| == |digits|
    ensures forall i :: 0 <= i < |s| ==> s[i] in HEX_DIGITS
  {
    seq(|digits|, i requires 0 <= i < |digits| => HEX_DIGITS[digits[i]])
  }

  /** Text without the character that separates the parts of a business key. */
  predicate ColonFree(s: string) {
    ':' !in s
  }

  lemma IdentifierIsColonFree(prefix: string, digits: seq<Nibble>)
    requires ColonFree(prefix)
    ensures ColonFree(prefix + "_" + Hex(digits))
    ensures prefix != "" && !IsSpace(prefix[0]) ==> Trimmed(prefix + "_" + Hex(digits))
  {
    HexDigitsArePlain();
    PlainIdentifier(prefix, Hex(digits));
  }

  lemma HexDigitsArePlain()
    ensures forall c :: c in HEX_DIGITS ==> c != ':' && !IsSpace(c)
  {
  }

  lemma PlainIdentifier(prefix: string, tail: string)
    requires ColonFree(prefix) && forall i :: 0 <= i < |tail| ==> tail[i] != ':' && !IsSpace(tail[i])
    ensures ColonFree(prefix + "_" + tail)
    ensures prefix != "" && !IsSpace(prefix[0]) ==> Trimmed(prefix + "_" + tail)
  {
    var s := prefix + "_" + tail;
    forall i | 0 <= i < |s| ensures s[i] != ':' {
      if i > |prefix| {
        assert s[i] == tail[i - |prefix| - 1];
      }
    }
    if tail != "" {
      assert s[|s| - 1] == tail[|tail| - 1];
    }
  }

  lemma NoColonInTail(head: string, tail: string)
    requires ColonFree(tail)
    ensures forall k :: |head| < k < |head| + 1 + |tail| ==> (head + ":" + tail)[k] != ':'
  {
    forall k | |head| < k < |head| + 1 + |tail| ensures (head + ":" + tail)[k] != ':' {
      assert (head + ":" + tail)[k] == tail[k - |head| - 1];
    }
  }

  /** A separator and a tail without it determine both halves of a joined text. */
  lemma LastColonSplits(a: string, b: string, c: string, d: string)
    requires ColonFree(b) && ColonFree(d)
    requires a + ":" + b == c + ":" + d
    ensures a == c && b == d
  {
    var x := a + ":" + b;
    NoColonInTail(a, b);
    NoColonInTail(c, d);
    assert x[|a|] == ':' && (c + ":" + d)[|c|] == ':';
    assert |a| == |c|;
    assert a == x[..|a|] == (c + ":" + d)[..|c|] == c;
    assert b == x[|a| + 1..] == (c + ":" + d)[|c| + 1..] == d;
  }
}

/**
 * PHP's `urlencode`: the application/x-www-form-urlencoded encoding of the
 * UTF-8 bytes of a string. Letters, digits, '-', '_' and '.' are kept, a
 * space becomes '+', and every other byte becomes '%' followed by two
 * upper-case hexadecimal digits.
 */
module UrlEncoding {

  /** The characters `urlencode` leaves as they are. */
  predicate Unreserved(c: char)
  {
    ('A' <= c <= 'Z') || ('a' <= c <= 'z') || ('0' <= c <= '9') || c == '-' || c == '_' || c == '.'
  }

  /** The characters an encoded string is made of. */
  predicate Encoded(c: char)
  {
    Unreserved(c) || c == '+' || c == '%'
  }

  function HexDigit(n: nat): (c: char)
    requires n < 16
    ensures Unreserved(c)
  {
    if n < 10 then ('0' as int + n) as char else ('A' as int + (n - 10)) as char
  }

  /** The UTF-8 encoding of one character. */
  function Utf8(c: char): (bytes: seq<nat>)
    ensures 1 <= |bytes| <= 4
    ensures forall i :: 0 <= i < |bytes| ==> bytes[i] < 256
    ensures |bytes| == 1 <==> (c as int) < 0x80
  {
    var n := c as int;
    if n < 0x80 then [n]
    else if n < 0x800 then [0xC0 + n / 64, 0x80 + n % 64]
    else if n < 0x10000 then [0xE0 + n / 4096, 0x80 + (n / 64) % 64, 0x80 + n % 64]
    else [0xF0 + n / 262144, 0x80 + (n / 4096) % 64, 0x80 + (n / 64) % 64, 0x80 + n % 64]
  }

  /** `%XX` for each byte. */
  function Escape(bytes: seq<nat>): (r: string)
    requires forall i :: 0 <= i < |bytes| ==> bytes[i] < 256
    ensures |r| == 3 * |bytes|
    ensures forall i :: 0 <= i < |r| ==> Encoded(r[i])
    ensures |bytes| > 0 ==> r[0] == '%'
  {
    if |bytes| == 0 then ""
    else ['%', HexDigit(bytes[0] / 16), HexDigit(bytes[0] % 16)] + Escape(bytes[1..])
  }

  /** The encoding of one character. */
  function Chunk(c: char): (r: string)
    ensures |r| >= 1
    ensures forall i :: 0 <= i < |r| ==> Encoded(r[i])
    ensures Unreserved(r[0]) <==> Unreserved(c)
  {
    if Unreserved(c) then [c]
    else if c == ' ' then "+"
    else Escape(Utf8(c))
  }

  /** `urlencode(s)`: the encodings of the characters of `s`, one after the other. */
  function UrlEncode(s: string): (r: string)
    ensures |r| >= |s|
  {
    Flatten(Chunks(s))
  }

  function Chunks(s: string): (r: seq<string>)
    ensures |r| == |s|
  {
    seq(|s|, i requires 0 <= i < |s| => Chunk(s[i]))
  }

  function Flatten(parts: seq<string>): (r: string)
    ensures |parts| > 0 && (forall i :: 0 <= i < |parts| ==> |parts[i]| >= 1) ==> |r| >= |parts|
  {
    if |parts| == 0 then "" else parts[0] + Flatten(parts[1..])
  }

  lemma {:induction false} FlattenAppend(p: seq<string>, q: seq<string>)
    ensures Flatten(p + q) == Flatten(p) + Flatten(q)
    decreases |p|
  {
    if |p| == 0 {
      assert p + q == q;
    } else {
      FlattenAppend(p[1..], q);
      assert (p + q)[1..] == p[1..] + q;
    }
  }

  /** Encoding peels off one character at a time. */
  lemma EncodeCons(s: string)
    requires |s| > 0
    ensures UrlEncode(s) == Chunk(s[0]) + UrlEncode(s[1..])
  {
    assert Chunks(s) == [Chunk(s[0])] + Chunks(s[1..]);
  }

  /** The encoding works character by character, so it distributes over concatenation. */
  lemma EncodeAppend(a: string, b: string)
    ensures UrlEncode(a + b) == UrlEncode(a) + UrlEncode(b)
  {
    assert Chunks(a + b) == Chunks(a) + Chunks(b);
    FlattenAppend(Chunks(a), Chunks(b));
  }

  /** An encoding is made of encoded characters only, so it never holds the delimiters '&' and '='. */
  lemma {:induction false} EncodedChars(s: string)
    ensures forall i :: 0 <= i < |UrlEncode(s)| ==> Encoded(UrlEncode(s)[i])
    ensures '&' !in UrlEncode(s) && '=' !in UrlEncode(s)
    decreases |s|
  {
    if |s| > 0 {
      EncodedChars(s[1..]);
      var r := UrlEncode(s);
      forall i | 0 <= i < |r| ensures Encoded(r[i]) {
        EncodedAt(s, i);
      }
    }
  }

  /** One character of an encoding, given that the encoding of the rest is made of encoded characters. */
  lemma EncodedAt(s: string, i: int)
    requires |s| > 0 && 0 <= i < |UrlEncode(s)|
    requires forall j :: 0 <= j < |UrlEncode(s[1..])| ==> Encoded(UrlEncode(s[1..])[j])
    ensures Encoded(UrlEncode(s)[i])
  {
    EncodeCons(s);
    var head := Chunk(s[0]);
    if i < |head| {
      assert UrlEncode(s)[i] == head[i];
    } else {
      assert UrlEncode(s)[i] == UrlEncode(s[1..])[i - |head|];
    }
  }

  /** A string of unreserved characters is its own encoding. */
  lemma {:induction false} UnreservedFixed(s: string)
    requires AllUnreserved(s)
    ensures UrlEncode(s) == s
    decreases |s|
  {
    if |s| > 0 {
      UnreservedFixed(s[1..]);
      EncodeCons(s);
      assert s == [s[0]] + s[1..];
    }
  }

  /**
   * Conversely, an encoding made only of unreserved characters was not
   * changed by the encoding: nothing was escaped.
   */
  lemma {:induction false} PlainEncoding(s: string)
    requires forall i :: 0 <= i < |UrlEncode(s)| ==> Unreserved(UrlEncode(s)[i])
    ensures UrlEncode(s) == s
    decreases |s|
  {
    if |s| > 0 {
      EncodeCons(s);
      var head := Chunk(s[0]);
      var r := UrlEncode(s);
      assert r[0] == head[0];
      assert Unreserved(s[0]);
      assert head == [s[0]];
      forall i | 0 <= i < |UrlEncode(s[1..])|
        ensures Unreserved(UrlEncode(s[1..])[i])
      {
        assert UrlEncode(s[1..])[i] == r[i + 1];
      }
      PlainEncoding(s[1..]);
      assert s == [s[0]] + s[1..];
    }
  }

  /** Only "limit" itself encodes to "limit". */
  lemma EncodesToLimit(s: string)
    requires UrlEncode(s) == "limit"
    ensures s == "limit"
  {
    PlainEncoding(s);
  }

  predicate AllUnreserved(s: string)
  {
    forall i :: 0 <= i < |s| ==> Unreserved(s[i])
  }

  /** A space between two plain words becomes '+'. */
  lemma EncodeSpace(a: string, b: string)
    requires AllUnreserved(a) && AllUnreserved(b)
    ensures UrlEncode(a + " " + b) == a + "+" + b
  {
    assert UrlEncode(" ") == "+" by {
      EncodeCons(" ");
      assert " "[1..] == "";
    }
    UnreservedFixed(a);
    UnreservedFixed(b);
    EncodeAppend(a, " ");
    EncodeAppend(a + " ", b);
  }

  lemma BracketChunks()
    ensures UrlEncode("[") == "%5B" && UrlEncode("]") == "%5D"
  {
    EncodeCons("[");
    assert "["[1..] == "";
    assert Utf8('[') == [91];
    assert Escape([91]) == ['%', HexDigit(5), HexDigit(11)];
    EncodeCons("]");
    assert "]"[1..] == "";
    assert Utf8(']') == [93];
    assert Escape([93]) == ['%', HexDigit(5), HexDigit(13)];
  }

  /** Brackets, as in the filter name `dueDate[ge]`, are escaped. */
  lemma EncodeBrackets(name: string, op: string)
    requires AllUnreserved(name) && AllUnreserved(op)
    ensures UrlEncode(name + "[" + op + "]") == name + "%5B" + op + "%5D"
  {
    BracketChunks();
    UnreservedFixed(name);
    UnreservedFixed(op);
    EncodeAppend(name, "[");
    EncodeAppend(name + "[", op);
    EncodeAppend(name + "[" + op, "]");
  }
}

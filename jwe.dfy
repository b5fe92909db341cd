/**
 * The session cookie is a JWE in compact serialization (section 7.1 of
 * RFC 7516) using "dir" key management and A256GCM content encryption
 * (sections 4.5 and 5.3 of RFC 7518). The cryptography itself is not modelled:
 * the library that produces the five parts is a parameter of the session
 * Betweens. What is modelled is the shape of the result: five base64url
 * segments joined by '.', and how java.lang.String.split("\\.") reads it back.
 */
module Jwe {

  /** JWS/JWE "alg" header values used here. */
  datatype Algorithm = DIRECT

  /** JWE "enc" header values used here. */
  datatype EncryptionAlgorithm = AES_GCM_256

  /** The base64url alphabet (section 5 of RFC 4648), which never holds '.'. */
  predicate IsBase64UrlChar(c: char) {
    ('A' <= c <= 'Z') || ('a' <= c <= 'z') || ('0' <= c <= '9') || c == '-' || c == '_'
  }

  type Segment = s: string | forall i :: 0 <= i < |s| ==> IsBase64UrlChar(s[i])

  type NonEmptySegment = s: Segment | |s| > 0 witness "A"

  /**
   * The five parts of a compact JWE. The authentication tag of AES-GCM is
   * 16 octets, so its segment is never empty; with "dir" the encrypted key
   * segment is empty, which the type allows.
   */
  datatype CompactJwe = CompactJwe(
    protectedHeader: Segment,
    encryptedKey: Segment,
    iv: Segment,
    ciphertext: Segment,
    authTag: NonEmptySegment)

  function Parts(c: CompactJwe): seq<string> {
    [c.protectedHeader, c.encryptedKey, c.iv, c.ciphertext, c.authTag]
  }

  /** The compact serialization: the five segments joined by '.'. */
  function Serialize(c: CompactJwe): string {
    c.protectedHeader + "." + c.encryptedKey + "." + c.iv + "." + c.ciphertext + "." + c.authTag
  }

  /** Splits at every occurrence of d, keeping empty pieces. */
  function SplitAll(s: string, d: char): (parts: seq<string>)
    ensures |parts| >= 1
    decreases |s|
  {
    if |s| == 0 then [""]
    else
      var rest := SplitAll(s[1..], d);
      if s[0] == d then [""] + rest else [[s[0]] + rest[0]] + rest[1..]
  }

  function DropTrailingEmpty(parts: seq<string>): seq<string>
    decreases |parts|
  {
    if |parts| > 0 && parts[|parts| - 1] == "" then DropTrailingEmpty(parts[..|parts| - 1])
    else parts
  }

  /**
   * java.lang.String.split with a single-character pattern and limit 0: the
   * input itself when the delimiter never occurs, otherwise every piece with
   * trailing empty pieces removed.
   */
  function JavaSplit(s: string, d: char): seq<string> {
    if d !in s then [s] else DropTrailingEmpty(SplitAll(s, d))
  }

  lemma {:induction false} SplitAllNoDelimiter(a: string, d: char)
    requires d !in a
    ensures SplitAll(a, d) == [a]
    decreases |a|
  {
    if |a| > 0 {
      assert d !in a[1..];
      SplitAllNoDelimiter(a[1..], d);
      assert a[0] != d;
      assert [a[0]] + a[1..] == a;
    }
  }

  lemma {:induction false} SplitAllAppend(a: string, d: char, b: string)
    requires d !in a
    ensures SplitAll(a + [d] + b, d) == [a] + SplitAll(b, d)
    decreases |a|
  {
    if |a| == 0 {
      assert a + [d] + b == [d] + b;
      assert ([d] + b)[1..] == b;
    } else {
      var s := a + [d] + b;
      assert s[0] == a[0] && s[1..] == a[1..] + [d] + b;
      assert d !in a[1..];
      SplitAllAppend(a[1..], d, b);
      assert [a[0]] + a[1..] == a;
    }
  }

  lemma SegmentHasNoDot(s: Segment)
    ensures '.' !in s
  {
  }

  /** Reading a serialized compact JWE back with split("\\.") gives its five parts. */
  lemma {:induction false} SerializeSplitsIntoFiveParts(c: CompactJwe)
    ensures JavaSplit(Serialize(c), '.') == Parts(c)
    ensures |JavaSplit(Serialize(c), '.')| == 5
  {
    var h, k, iv, ct, t := c.protectedHeader, c.encryptedKey, c.iv, c.ciphertext, c.authTag;
    SegmentHasNoDot(h);
    SegmentHasNoDot(k);
    SegmentHasNoDot(iv);
    SegmentHasNoDot(ct);
    SegmentHasNoDot(t);
    var s := Serialize(c);
    var s4 := ct + "." + t;
    var s3 := iv + "." + s4;
    var s2 := k + "." + s3;
    assert s == h + "." + s2;
    SplitAllNoDelimiter(t, '.');
    SplitAllAppend(ct, '.', t);
    SplitAllAppend(iv, '.', s4);
    SplitAllAppend(k, '.', s3);
    SplitAllAppend(h, '.', s2);
    assert SplitAll(s, '.') == [h, k, iv, ct, t];
    assert s[|h|] == '.';
    assert '.' in s;
    assert t != "";
  }
}

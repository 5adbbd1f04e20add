/** Base64url without padding: `private-relay/src/codec.ts` and `cloud/src/auth.ts`. */
module Base64Url {
  import opened Wrappers

  type byte = x: int | 0 <= x < 256
  type sextet = x: int | 0 <= x < 64

  // ---- the two alphabets (tables 1 and 2 of RFC 4648) ----

  /** Table 1: what `btoa` writes. */
  function StdChar(v: sextet): char {
    if v < 26 then 'A' + v as char
    else if v < 52 then 'a' + (v - 26) as char
    else if v < 62 then '0' + (v - 52) as char
    else if v == 62 then '+'
    else '/'
  }

  /** What `atob` reads. */
  function StdValue(c: char): Option<sextet> {
    if 'A' <= c <= 'Z' then Some(c as int - 'A' as int)
    else if 'a' <= c <= 'z' then Some(c as int - 'a' as int + 26)
    else if '0' <= c <= '9' then Some(c as int - '0' as int + 52)
    else if c == '+' then Some(62)
    else if c == '/' then Some(63)
    else None
  }

  /** The class of the source's regular expression, `[A-Za-z0-9_-]`. */
  predicate IsUrlChar(c: char) {
    'A' <= c <= 'Z' || 'a' <= c <= 'z' || '0' <= c <= '9' || c == '-' || c == '_'
  }

  predicate IsUrlText(s: string) {
    forall i :: 0 <= i < |s| ==> IsUrlChar(s[i])
  }

  function ToUrl(c: char): char {
    if c == '+' then '-' else if c == '/' then '_' else c
  }

  function ToStd(c: char): char {
    if c == '-' then '+' else if c == '_' then '/' else c
  }

  /** Table 2, section 5. */
  function UrlChar(v: sextet): char {
    ToUrl(StdChar(v))
  }

  function UrlValue(c: char): (v: sextet)
    requires IsUrlChar(c)
    ensures UrlChar(v) == c
  {
    StdValue(ToStd(c)).value
  }

  function Chars(v: seq<sextet>): (s: string) {
    seq(|v|, i requires 0 <= i < |v| => UrlChar(v[i]))
  }

  function Values(s: string): (v: seq<sextet>)
    requires IsUrlText(s)
  {
    seq(|s|, i requires 0 <= i < |s| => UrlValue(s[i]))
  }

  lemma CharsAndValues(v: seq<sextet>)
    ensures IsUrlText(Chars(v)) && Values(Chars(v)) == v
  {
    forall i | 0 <= i < |v|
      ensures IsUrlChar(UrlChar(v[i])) && UrlValue(UrlChar(v[i])) == v[i]
    {
    }
  }

  lemma ValuesAndChars(s: string)
    requires IsUrlText(s)
    ensures Chars(Values(s)) == s
  {
  }

  // ---- groups of 24 bits ----

  /** Three bytes as four sextets. */
  function Quad(x: byte, y: byte, z: byte): (r: seq<sextet>)
    ensures |r| == 4
  {
    [x / 4, x % 4 * 16 + y / 16, y % 16 * 4 + z / 64, z % 64]
  }

  /** Four sextets as three bytes. */
  function Triple(p: sextet, q: sextet, r: sextet, t: sextet): (b: seq<byte>)
    ensures |b| == 3
  {
    [(p as int) * 4 + q as int / 16, q as int % 16 * 16 + r as int / 4, r as int % 4 * 64 + t as int]
  }

  /** One or two bytes left over become two or three sextets, zero filled. */
  function Sextets(b: seq<byte>): (v: seq<sextet>) {
    if |b| == 0 then []
    else if |b| == 1 then Quad(b[0], 0, 0)[..2]
    else if |b| == 2 then Quad(b[0], b[1], 0)[..3]
    else Quad(b[0], b[1], b[2]) + Sextets(b[3..])
  }

  /** Drops the bits left over in the last sextet, as `atob` does. */
  function Bytes(v: seq<sextet>): (b: seq<byte>) {
    if |v| < 2 then []
    else if |v| == 2 then Triple(v[0], v[1], 0, 0)[..1]
    else if |v| == 3 then Triple(v[0], v[1], v[2], 0)[..2]
    else Triple(v[0], v[1], v[2], v[3]) + Bytes(v[4..])
  }

  /** The number of bytes `n` sextets carry. */
  function ByteCount(n: nat): nat {
    n / 4 * 3 + (if n % 4 == 0 then 0 else n % 4 - 1)
  }

  lemma {:induction false} BytesLength(v: seq<sextet>)
    ensures |Bytes(v)| == ByteCount(|v|)
  {
    if |v| >= 4 {
      BytesLength(v[4..]);
    }
  }

  lemma TripleOfQuad(x: byte, y: byte, z: byte)
    ensures
      var v := Quad(x, y, z);
      Triple(v[0], v[1], v[2], v[3]) == [x, y, z]
  {
  }

  lemma QuadOfTriple(p: sextet, q: sextet, r: sextet, t: sextet)
    ensures
      var b := Triple(p, q, r, t);
      Quad(b[0], b[1], b[2]) == [p, q, r, t]
  {
    QuotientsAndRests(p, q, 16);
    QuotientsAndRests(q, r, 4);
    var b := Triple(p, q, r, t);
    assert b[0] / 4 == p && b[0] % 4 == q / 16;
    assert b[1] / 16 == q % 16 && b[1] % 16 == r / 4;
    assert b[2] / 64 == r % 4 && b[2] % 64 == t;
  }

  lemma QuotientsAndRests(x: sextet, y: sextet, cut: nat)
    requires cut == 16 || cut == 4
    ensures 0 <= y / cut < 64 / cut && y == y / cut * cut + y % cut
  {
  }

  lemma SextetsOfTriple(b: seq<byte>, rest: seq<byte>)
    requires |b| == 3
    ensures Sextets(b + rest) == Quad(b[0], b[1], b[2]) + Sextets(rest)
  {
    assert (b + rest)[3..] == rest;
  }

  lemma BytesOfQuad(v: seq<sextet>, rest: seq<sextet>)
    requires |v| == 4
    ensures Bytes(v + rest) == Triple(v[0], v[1], v[2], v[3]) + Bytes(rest)
  {
    assert (v + rest)[4..] == rest;
  }

  lemma BytesOfShort(b: seq<byte>)
    requires 0 < |b| < 3
    ensures Bytes(Sextets(b)) == b
  {
    var y := if |b| == 2 then b[1] else 0;
    var v := Quad(b[0], y, 0);
    TripleOfQuad(b[0], y, 0);
    ShortTriple(v[0], v[1], v[2], v[3]);
  }

  lemma ShortTriple(p: sextet, q: sextet, r: sextet, t: sextet)
    ensures Triple(p, q, r, t)[0] == Triple(p, q, 0, 0)[0] && Triple(p, q, r, t)[1] == Triple(p, q, r, 0)[1]
  {
  }

  lemma {:induction false} BytesOfSextets(b: seq<byte>)
    ensures |Sextets(b)| % 4 != 1
    ensures Bytes(Sextets(b)) == b
  {
    if |b| >= 3 {
      BytesOfSextets(b[3..]);
      TripleOfQuad(b[0], b[1], b[2]);
      BytesOfQuad(Quad(b[0], b[1], b[2]), Sextets(b[3..]));
      assert b == [b[0], b[1], b[2]] + b[3..];
    } else if |b| > 0 {
      BytesOfShort(b);
    }
  }

  /** Section 3.5 of RFC 4648: the bits after the last whole byte are zero. */
  predicate NoStrayBits(v: seq<sextet>) {
    && (|v| % 4 == 2 ==> v[|v| - 1] % 16 == 0)
    && (|v| % 4 == 3 ==> v[|v| - 1] % 4 == 0)
  }

  lemma LastOfTwo(p: sextet, q: sextet)
    ensures Quad(Triple(p, q, 0, 0)[0], 0, 0)[..2] == [p, q - q % 16]
  {
  }

  lemma LastOfThree(p: sextet, q: sextet, r: sextet)
    ensures Quad(Triple(p, q, r, 0)[0], Triple(p, q, r, 0)[1], 0)[..3] == [p, q, r - r % 4]
  {
  }

  lemma {:induction false} SextetsOfBytes(v: seq<sextet>)
    requires |v| % 4 != 1
    ensures Sextets(Bytes(v)) == v <==> NoStrayBits(v)
  {
    hide Quad, Triple;
    if |v| >= 4 {
      SextetsOfBytes(v[4..]);
      FullGroupOfBytes(v);
    } else if |v| == 3 {
      LastOfThree(v[0], v[1], v[2]);
    } else if |v| == 2 {
      LastOfTwo(v[0], v[1]);
    }
  }

  lemma FullGroupOfBytes(v: seq<sextet>)
    requires |v| >= 4
    ensures Sextets(Bytes(v)) == v <==> Sextets(Bytes(v[4..])) == v[4..]
  {
    assert v == v[..4] + v[4..];
    BytesOfQuad(v[..4], v[4..]);
    QuadOfTriple(v[0], v[1], v[2], v[3]);
    FullGroupFrom(v[..4], v[4..], Triple(v[0], v[1], v[2], v[3]));
  }

  lemma FullGroupFrom(head: seq<sextet>, rest: seq<sextet>, b: seq<byte>)
    requires |b| == 3 && Quad(b[0], b[1], b[2]) == head
    ensures Sextets(b + Bytes(rest)) == head + rest <==> Sextets(Bytes(rest)) == rest
  {
    SextetsOfTriple(b, Bytes(rest));
    SameTail(head, Sextets(Bytes(rest)), rest);
  }

  lemma SameTail<T>(head: seq<T>, a: seq<T>, b: seq<T>)
    ensures head + a == head + b <==> a == b
  {
    assert (head + a)[|head|..] == a && (head + b)[|head|..] == b;
  }

  // ---- the bit stream, as an independent reading of section 4 ----

  type bit = x: int | 0 <= x < 2

  function Pow2(k: nat): (p: nat)
    ensures p > 0
  {
    if k == 0 then 1 else 2 * Pow2(k - 1)
  }

  /** The low `width` bits of `x`, most significant first. */
  function BitsOf(x: nat, width: nat): (r: seq<bit>)
    ensures |r| == width
  {
    if width == 0 then [] else BitsOf(x / 2, width - 1) + [x % 2]
  }

  /** The bits of the units, one unit after the other. */
  function Stream(units: seq<nat>, width: nat): seq<bit> {
    if units == [] then [] else BitsOf(units[0], width) + Stream(units[1..], width)
  }

  lemma {:induction false} BitsJoin(x: nat, high: nat, y: nat, low: nat)
    requires y < Pow2(low)
    ensures BitsOf(x * Pow2(low) + y, high + low) == BitsOf(x, high) + BitsOf(y, low)
    decreases low
  {
    if low > 0 {
      var p := Pow2(low - 1);
      BitsJoin(x, high, y / 2, low - 1);
      DoubledSum(x, p, y);
      JoinStep(x * Pow2(low) + y, high + low, y, low, BitsOf(x, high));
    } else {
      assert x * Pow2(0) + y == x;
    }
  }

  lemma DoubledSum(x: nat, p: nat, y: nat)
    ensures (x * (2 * p) + y) / 2 == x * p + y / 2 && (x * (2 * p) + y) % 2 == y % 2
  {
    assert x * (2 * p) == 2 * (x * p);
  }

  lemma JoinStep(v: nat, width: nat, y: nat, low: nat, front: seq<bit>)
    requires 0 < low <= width && v % 2 == y % 2 && BitsOf(v / 2, width - 1) == front + BitsOf(y / 2, low - 1)
    ensures BitsOf(v, width) == front + BitsOf(y, low)
  {
    assert BitsOf(v, width) == BitsOf(v / 2, width - 1) + [v % 2];
    assert BitsOf(y, low) == BitsOf(y / 2, low - 1) + [y % 2];
  }

  lemma Powers()
    ensures Pow2(2) == 4 && Pow2(4) == 16 && Pow2(6) == 64
  {
    assert Pow2(2) == 2 * Pow2(1) && Pow2(1) == 2 && Pow2(4) == 2 * Pow2(3) && Pow2(3) == 2 * Pow2(2);
    assert Pow2(6) == 2 * Pow2(5) && Pow2(5) == 2 * Pow2(4);
  }

  /** A byte's bits around the three places a group cuts it. */
  lemma ByteCuts(x: byte)
    ensures BitsOf(x, 8) == BitsOf(x / 4, 6) + BitsOf(x % 4, 2)
    ensures BitsOf(x, 8) == BitsOf(x / 16, 4) + BitsOf(x % 16, 4)
    ensures BitsOf(x, 8) == BitsOf(x / 64, 2) + BitsOf(x % 64, 6)
  {
    hide BitsOf;
    Powers();
    BitsJoin(x / 4, 6, x % 4, 2);
    BitsJoin(x / 16, 4, x % 16, 4);
    BitsJoin(x / 64, 2, x % 64, 6);
  }

  lemma TwoAndFour(x: nat, y: nat)
    requires y < 16
    ensures BitsOf(x * 16 + y, 6) == BitsOf(x, 2) + BitsOf(y, 4)
  {
    hide BitsOf;
    Powers();
    BitsJoin(x, 2, y, 4);
  }

  lemma FourAndTwo(x: nat, y: nat)
    requires y < 4
    ensures BitsOf(x * 4 + y, 6) == BitsOf(x, 4) + BitsOf(y, 2)
  {
    hide BitsOf;
    Powers();
    BitsJoin(x, 4, y, 2);
  }

  lemma {:induction false} StreamJoins(a: seq<nat>, b: seq<nat>, width: nat)
    ensures Stream(a + b, width) == Stream(a, width) + Stream(b, width)
  {
    hide BitsOf;
    if a == [] {
      assert a + b == b;
    } else {
      StreamJoins(a[1..], b, width);
      assert (a + b)[0] == a[0] && (a + b)[1..] == a[1..] + b;
      JoinThree(BitsOf(a[0], width), Stream(a[1..], width), Stream(b, width));
    }
  }

  lemma StreamOfOne(a: nat, width: nat)
    ensures Stream([a], width) == BitsOf(a, width)
  {
    assert [a][1..] == [];
  }

  lemma StreamOfTwo(a: nat, b: nat, width: nat)
    ensures Stream([a, b], width) == BitsOf(a, width) + BitsOf(b, width)
  {
    assert [a, b] == [a] + [b];
    StreamJoins([a], [b], width);
  }

  lemma StreamOfThree(a: nat, b: nat, c: nat, width: nat)
    ensures Stream([a, b, c], width) == BitsOf(a, width) + BitsOf(b, width) + BitsOf(c, width)
  {
    assert [a, b, c] == [a, b] + [c];
    StreamJoins([a, b], [c], width);
    StreamOfTwo(a, b, width);
  }

  lemma StreamOfFour(a: nat, b: nat, c: nat, d: nat, width: nat)
    ensures Stream([a, b, c, d], width) == BitsOf(a, width) + BitsOf(b, width) + BitsOf(c, width) + BitsOf(d, width)
  {
    assert [a, b, c, d] == [a, b, c] + [d];
    StreamJoins([a, b, c], [d], width);
    StreamOfThree(a, b, c, width);
  }

  /** A quad streams the bits of its three bytes. */
  lemma QuadStream(x: byte, y: byte, z: byte)
    ensures Stream(Quad(x, y, z), 6) == Stream([x, y, z], 8)
  {
    hide BitsOf, Stream;
    TwoAndFour(x % 4, y / 16);
    FourAndTwo(y % 16, z / 64);
    ByteCuts(x);
    ByteCuts(y);
    ByteCuts(z);
    StreamsMeet(x / 4, x % 4 * 16 + y / 16, y % 16 * 4 + z / 64, z % 64, x, y, z,
                BitsOf(x / 4, 6), BitsOf(x % 4, 2), BitsOf(y / 16, 4), BitsOf(y % 16, 4), BitsOf(z / 64, 2), BitsOf(z % 64, 6));
  }

  lemma StreamsMeet(p: nat, q: nat, r: nat, t: nat, x: nat, y: nat, z: nat,
                    a: seq<bit>, b: seq<bit>, c: seq<bit>, d: seq<bit>, e: seq<bit>, f: seq<bit>)
    requires BitsOf(p, 6) == a && BitsOf(q, 6) == b + c && BitsOf(r, 6) == d + e && BitsOf(t, 6) == f
    requires BitsOf(x, 8) == a + b && BitsOf(y, 8) == c + d && BitsOf(z, 8) == e + f
    ensures Stream([p, q, r, t], 6) == Stream([x, y, z], 8)
  {
    hide Stream, BitsOf;
    StreamOfFour(p, q, r, t, 6);
    StreamOfThree(x, y, z, 8);
    QuadJoins(a, b, c, d, e, f);
  }

  lemma QuadJoins(a: seq<bit>, b: seq<bit>, c: seq<bit>, d: seq<bit>, e: seq<bit>, f: seq<bit>)
    ensures a + (b + c) + (d + e) + f == (a + b) + (c + d) + (e + f)
  {
  }

  function Zeros(n: nat): (r: seq<bit>) {
    seq(n, _ => 0)
  }

  lemma {:induction false} ZeroBits(n: nat)
    ensures BitsOf(0, n) == Zeros(n)
  {
    if n > 0 {
      ZeroBits(n - 1);
    }
  }

  lemma OneLeft(x: byte)
    ensures Stream(Quad(x, 0, 0)[..2], 6) == Stream([x], 8) + Zeros(4)
  {
    hide BitsOf, Stream, Zeros;
    assert Quad(x, 0, 0)[..2] == [x / 4, x % 4 * 16];
    ByteCuts(x);
    TwoAndFour(x % 4, 0);
    ZeroBits(4);
    TwoStreams(x / 4, x % 4 * 16, x, BitsOf(x / 4, 6), BitsOf(x % 4, 2), Zeros(4));
  }

  lemma TwoStreams(p: nat, q: nat, x: nat, a: seq<bit>, b: seq<bit>, zeros: seq<bit>)
    requires BitsOf(p, 6) == a && BitsOf(q, 6) == b + zeros && BitsOf(x, 8) == a + b
    ensures Stream([p, q], 6) == Stream([x], 8) + zeros
  {
    StreamOfTwo(p, q, 6);
    StreamOfOne(x, 8);
    JoinThree(a, b, zeros);
  }

  lemma JoinThree(a: seq<bit>, b: seq<bit>, c: seq<bit>)
    ensures a + (b + c) == (a + b) + c
  {
  }

  lemma TwoLeft(x: byte, y: byte)
    ensures Stream(Quad(x, y, 0)[..3], 6) == Stream([x, y], 8) + Zeros(2)
  {
    hide BitsOf, Stream, Zeros;
    assert Quad(x, y, 0)[..3] == [x / 4, x % 4 * 16 + y / 16, y % 16 * 4];
    ByteCuts(x);
    ByteCuts(y);
    TwoAndFour(x % 4, y / 16);
    FourAndTwo(y % 16, 0);
    ZeroBits(2);
    ThreeStreams(x / 4, x % 4 * 16 + y / 16, y % 16 * 4, x, y,
                 BitsOf(x / 4, 6), BitsOf(x % 4, 2), BitsOf(y / 16, 4), BitsOf(y % 16, 4), Zeros(2));
  }

  lemma ThreeStreams(p: nat, q: nat, r: nat, x: nat, y: nat, a: seq<bit>, b: seq<bit>, c: seq<bit>, d: seq<bit>, zeros: seq<bit>)
    requires BitsOf(p, 6) == a && BitsOf(q, 6) == b + c && BitsOf(r, 6) == d + zeros
    requires BitsOf(x, 8) == a + b && BitsOf(y, 8) == c + d
    ensures Stream([p, q, r], 6) == Stream([x, y], 8) + zeros
  {
    StreamOfThree(p, q, r, 6);
    StreamOfTwo(x, y, 8);
    QuadJoins(a, b, c, d, zeros, []);
    assert zeros + [] == zeros;
    assert a + (b + c) + (d + zeros) + [] == a + (b + c) + (d + zeros);
  }

  /** The sextets carry exactly the bits of the bytes, in order, then two or four zeros when the last group is short. */
  lemma {:induction false} SextetsCarryTheBits(b: seq<byte>)
    ensures Stream(Sextets(b), 6) == Stream(b, 8) + Zeros(if |b| % 3 == 0 then 0 else 6 - 2 * (|b| % 3))
  {
    hide BitsOf, Quad;
    if |b| >= 3 {
      SextetsCarryTheBits(b[3..]);
      QuadStream(b[0], b[1], b[2]);
      assert b == [b[0], b[1], b[2]] + b[3..];
      GroupStreams([b[0], b[1], b[2]], b[3..], Quad(b[0], b[1], b[2]), Sextets(b[3..]), Zeros(if |b| % 3 == 0 then 0 else 6 - 2 * (|b| % 3)));
    } else if |b| == 2 {
      TwoLeft(b[0], b[1]);
      assert b == [b[0], b[1]];
    } else if |b| == 1 {
      OneLeft(b[0]);
      assert b == [b[0]];
    }
  }

  lemma GroupStreams(b: seq<nat>, bs: seq<nat>, v: seq<nat>, vs: seq<nat>, zeros: seq<bit>)
    requires Stream(v, 6) == Stream(b, 8) && Stream(vs, 6) == Stream(bs, 8) + zeros
    ensures Stream(v + vs, 6) == Stream(b + bs, 8) + zeros
  {
    hide Stream;
    StreamJoins(v, vs, 6);
    StreamJoins(b, bs, 8);
  }

  // ---- the platform's btoa and atob ----

  function Padding(n: nat): string {
    if n % 4 == 2 then "==" else if n % 4 == 3 then "=" else ""
  }

  /** `btoa`: table 1, padded to a multiple of four. */
  function Btoa(b: seq<byte>): string {
    var v := Sextets(b);
    seq(|v|, i requires 0 <= i < |v| => StdChar(v[i])) + Padding(|v|)
  }

  /** `replace` with a one-letter pattern. */
  function Replace(s: string, pattern: char, replacement: char): (r: string)
    ensures |r| == |s|
  {
    seq(|s|, i requires 0 <= i < |s| => if s[i] == pattern then replacement else s[i])
  }

  /** `replace(/=+$/, "")`. */
  function StripPadding(s: string): string {
    if s != [] && s[|s| - 1] == '=' then StripPadding(s[..|s| - 1]) else s
  }

  predicate IsStdText(s: string) {
    forall i :: 0 <= i < |s| ==> StdValue(s[i]).Some?
  }

  /** At most two `=` close a text whose length is a multiple of four. */
  function WithoutPadding(s: string): string {
    if |s| % 4 != 0 || |s| < 2 || s[|s| - 1] != '=' then s
    else if s[|s| - 2] == '=' then s[..|s| - 2]
    else s[..|s| - 1]
  }

  /** `atob` on a text without white space. A remainder of one is refused. */
  function Atob(s: string): Option<seq<byte>> {
    var cut := WithoutPadding(s);
    if |cut| % 4 == 1 || !IsStdText(cut) then None
    else Some(Bytes(seq(|cut|, i requires 0 <= i < |cut| => StdValue(cut[i]).value)))
  }

  // ---- b64url and fromB64url ----

  /** What `b64url` returns. */
  function Encode(b: seq<byte>): string {
    StripPadding(Replace(Replace(Btoa(b), '+', '-'), '/', '_'))
  }

  lemma StripText(s: string, n: nat)
    requires forall i :: 0 <= i < |s| ==> s[i] != '='
    ensures StripPadding(s + Padding(n)) == s
  {
    assert StripPadding(s) == s;
    assert s + "" == s && (s + "=")[..|s|] == s && (s + "==")[..|s| + 1] == s + "=";
    assert StripPadding(s + "=") == s;
    assert StripPadding(s + "==") == s;
  }

  /** Section 5 of RFC 4648: the sextets in the URL-safe alphabet, no padding. */
  lemma EncodeIsUrlAlphabet(b: seq<byte>)
    ensures Encode(b) == Chars(Sextets(b))
    ensures IsUrlText(Encode(b))
  {
    var v := Sextets(b);
    CharsAndValues(v);
    assert Replace(Replace(Btoa(b), '+', '-'), '/', '_') == Chars(v) + Padding(|v|);
    StripText(Chars(v), |v|);
  }

  /** The chunk loop: the binary string grows 32768 bytes at a time. */
  method EncodeInChunks(bytes: seq<byte>) returns (s: string)
    ensures s == Encode(bytes)
  {
    var binary: seq<byte> := [];
    var i := 0;
    while i < |bytes|
      invariant 0 <= i
      invariant binary == bytes[..if i < |bytes| then i else |bytes|]
    {
      var end := if i + 0x8000 < |bytes| then i + 0x8000 else |bytes|;
      binary := binary + bytes[i..end];
      i := i + 0x8000;
    }
    assert bytes[..|bytes|] == bytes;
    s := StripPadding(Replace(Replace(Btoa(binary), '+', '-'), '/', '_'));
  }

  function StdText(s: string): string {
    Replace(Replace(s, '-', '+'), '_', '/')
  }

  /** The cloud's `fromB64url`: no padding is added before `atob`. `None` for a malformed or non-canonical text. */
  function Decode(s: string, len: Option<nat>): Option<seq<byte>> {
    if !IsUrlText(s) || |s| % 4 == 1 then None
    else
      match Atob(StdText(s))
      case None => None
      case Some(b) =>
        if len.Some? && |b| != len.value then None
        else if Encode(b) == s then Some(b) else None
  }

  /** The private relay's `fromB64url`, which pads the text back to a multiple of four. */
  function DecodePadded(s: string, len: Option<nat>): Option<seq<byte>> {
    if !IsUrlText(s) || |s| % 4 == 1 then None
    else
      match Atob(StdText(s) + Padding(|s|))
      case None => None
      case Some(b) =>
        if len.Some? && |b| != len.value then None
        else if Encode(b) == s then Some(b) else None
  }

  lemma StdTextValues(s: string)
    requires IsUrlText(s)
    ensures |StdText(s)| == |s| && IsStdText(StdText(s))
    ensures forall i :: 0 <= i < |s| ==> StdText(s)[i] != '=' && StdValue(StdText(s)[i]) == Some(UrlValue(s[i]))
  {
    forall i | 0 <= i < |s|
      ensures StdText(s)[i] != '=' && StdValue(StdText(s)[i]) == Some(UrlValue(s[i]))
    {
      assert StdText(s)[i] == ToStd(s[i]);
    }
  }

  lemma AtobOfText(s: string)
    requires IsUrlText(s) && |s| % 4 != 1
    ensures Atob(StdText(s)) == Some(Bytes(Values(s)))
    ensures Atob(StdText(s) + Padding(|s|)) == Some(Bytes(Values(s)))
  {
    StdTextValues(s);
    var std := StdText(s);
    AtobUnpadded(std, Values(s));
    PaddedCut(std);
  }

  lemma AtobUnpadded(std: string, v: seq<sextet>)
    requires |std| == |v| && |v| % 4 != 1 && forall i :: 0 <= i < |v| ==> std[i] != '=' && StdValue(std[i]) == Some(v[i])
    ensures Atob(std) == Some(Bytes(v))
  {
    assert seq(|std|, i requires 0 <= i < |std| => StdValue(std[i]).value) == v;
  }

  lemma PaddedCut(std: string)
    requires |std| % 4 != 1 && IsStdText(std)
    ensures Atob(std + Padding(|std|)) == Atob(std)
  {
    if |std| > 0 {
      assert StdValue(std[|std| - 1]).Some?;
    }
    assert std + "" == std;
    if |std| % 4 == 2 {
      assert (std + "==")[..|std|] == std;
      assert WithoutPadding(std + "==") == std;
    } else if |std| % 4 == 3 {
      assert (std + "=")[..|std|] == std;
      assert WithoutPadding(std + "=") == std;
    }
    assert WithoutPadding(std) == std;
  }

  /** Section 3.5 of RFC 4648: exactly the canonical texts are accepted, and both relays agree on every text. */
  lemma AcceptsExactlyCanonical(s: string)
    ensures Decode(s, None) == DecodePadded(s, None)
    ensures Decode(s, None).Some? <==> IsUrlText(s) && |s| % 4 != 1 && NoStrayBits(Values(s))
  {
    if IsUrlText(s) && |s| % 4 != 1 {
      var v := Values(s);
      var b := Bytes(v);
      AtobOfText(s);
      SextetsOfBytes(v);
      EncodeIsUrlAlphabet(b);
      ValuesAndChars(s);
      CharsAndValues(Sextets(b));
    }
  }

  /** A text is accepted as `b` exactly when it is the encoding of `b`: the round trip, and no second text for `b`. */
  lemma DecodesExactlyEncodings(s: string, b: seq<byte>)
    ensures Decode(s, None) == Some(b) <==> s == Encode(b)
  {
    if s == Encode(b) {
      EncodeIsUrlAlphabet(b);
      BytesOfSextets(b);
      CharsAndValues(Sextets(b));
      AtobOfText(s);
    }
  }

  /** The length asked for is the number of bytes decoded. */
  lemma DecodesToLength(s: string, n: nat, b: seq<byte>)
    ensures Decode(s, Some(n)) == Some(b) <==> s == Encode(b) && |b| == n
    ensures DecodePadded(s, Some(n)) == Decode(s, Some(n))
  {
    DecodesExactlyEncodings(s, b);
    if IsUrlText(s) && |s| % 4 != 1 {
      AtobOfText(s);
    }
  }

  // ---- the length checks in front of the decoder ----

  const MAX_BLOB := 65536
  /** `Math.ceil((MBOX_MAX_BLOB * 4) / 3)` */
  const CLOUD_MAX_TEXT := 87382
  const PRIVATE_MAX_TEXT := CLOUD_MAX_TEXT + 8

  /**
   * The cloud's check on the text's length refuses an accepted text exactly when it decodes to more than 64 KiB.
   * The private relay's looser check refuses only such texts.
   */
  lemma LengthChecks(s: string, b: seq<byte>)
    requires Decode(s, None) == Some(b)
    ensures |b| == ByteCount(|s|)
    ensures |s| > CLOUD_MAX_TEXT <==> |b| > MAX_BLOB
    ensures |s| > PRIVATE_MAX_TEXT ==> |b| > MAX_BLOB
  {
    AtobOfText(s);
    BytesLength(Values(s));
  }
}

/** The map between UUIDs and 3PAR object names (hpe/utils.py): base64 (section 4 of RFC 4648)
    with '+' and '/' replaced and the padding dropped, behind a "dcv-" or "dcs-" prefix. */
module Names {
  import opened Util

  type Byte = x: int | 0 <= x < 256
  type Sextet = x: int | 0 <= x < 64
  type Uuid = b: seq<Byte> | |b| == 16 witness [0, 0, 0, 0, 0, 0, 0, 0, 0, 0, 0, 0, 0, 0, 0, 0]

  // ---- base64 ----

  function Sextet0(p: Byte): Sextet { p / 4 }
  function Sextet1(p: Byte, q: Byte): Sextet { p % 4 * 16 + q / 16 }
  function Sextet2(q: Byte, r: Byte): Sextet { q % 16 * 4 + r / 64 }
  function Sextet3(r: Byte): Sextet { r % 64 }

  function EncodeSextets(b: seq<Byte>): seq<Sextet> {
    if |b| == 0 then []
    else if |b| == 1 then [Sextet0(b[0]), Sextet1(b[0], 0)]
    else if |b| == 2 then [Sextet0(b[0]), Sextet1(b[0], b[1]), Sextet2(b[1], 0)]
    else [Sextet0(b[0]), Sextet1(b[0], b[1]), Sextet2(b[1], b[2]), Sextet3(b[2])] + EncodeSextets(b[3..])
  }

  function Byte0(p: Sextet, q: Sextet): Byte { p as int * 4 + q / 16 }
  function Byte1(p: Sextet, q: Sextet): Byte { p % 16 * 16 + q / 4 }
  function Byte2(p: Sextet, q: Sextet): Byte { p % 4 * 64 + q }

  /** One left-over sextet cannot be decoded; left-over low bits are dropped. */
  function DecodeSextets(x: seq<Sextet>): Option<seq<Byte>> {
    if |x| == 0 then Some([])
    else if |x| == 1 then None
    else if |x| == 2 then Some([Byte0(x[0], x[1])])
    else if |x| == 3 then Some([Byte0(x[0], x[1]), Byte1(x[1], x[2])])
    else
      match DecodeSextets(x[4..])
      case None => None
      case Some(rest) =>
        Some([Byte0(x[0], x[1]), Byte1(x[1], x[2]), Byte2(x[2], x[3])] + rest)
  }

  /** One byte triple through its four sextets and back. */
  lemma Triple(p: Byte, q: Byte, r: Byte)
    ensures Byte0(Sextet0(p), Sextet1(p, q)) == p
    ensures Byte1(Sextet1(p, q), Sextet2(q, r)) == q
    ensures Byte2(Sextet2(q, r), Sextet3(r)) == r
  {
  }

  /** Four sextets and three bytes are the same big-endian number. */
  lemma TripleValue(b: seq<Byte>)
    requires |b| >= 3
    ensures var x := EncodeSextets(b);
            |x| >= 4 && ((x[0] as int * 64 + x[1]) * 64 + x[2]) * 64 + x[3] == (b[0] as int * 256 + b[1]) * 256 + b[2]
  {
    var x := EncodeSextets(b);
    assert x[0] == Sextet0(b[0]) && x[1] == Sextet1(b[0], b[1]) && x[2] == Sextet2(b[1], b[2]) && x[3] == Sextet3(b[2]);
  }

  lemma DecodeTail1(p: Byte)
    ensures DecodeSextets(EncodeSextets([p])) == Some([p])
  {
    var b, x: seq<Sextet> := [p], [Sextet0(p), Sextet1(p, 0)];
    assert EncodeSextets(b) == x;
    assert DecodeSextets(x) == Some([Byte0(x[0], x[1])]);
    Triple(p, 0, 0);
  }

  lemma DecodeTail2(p: Byte, q: Byte)
    ensures DecodeSextets(EncodeSextets([p, q])) == Some([p, q])
  {
    Triple(p, q, 0);
    assert EncodeSextets([p, q]) == [Sextet0(p), Sextet1(p, q), Sextet2(q, 0)];
  }

  lemma {:induction false} DecodeEncode(b: seq<Byte>)
    ensures DecodeSextets(EncodeSextets(b)) == Some(b)
  {
    if |b| == 0 {
    } else if |b| == 1 {
      DecodeTail1(b[0]);
      assert b == [b[0]];
    } else if |b| == 2 {
      DecodeTail2(b[0], b[1]);
      assert b == [b[0], b[1]];
    } else {
      DecodeEncodeStep(b);
    }
  }

  lemma {:induction false} DecodeEncodeStep(b: seq<Byte>)
    requires |b| >= 3
    ensures DecodeSextets(EncodeSextets(b)) == Some(b)
    decreases b, 0
  {
    var x, p, q, r := EncodeSextets(b), b[0], b[1], b[2];
    var head := [Sextet0(p), Sextet1(p, q), Sextet2(q, r), Sextet3(r)];
    assert x == head + EncodeSextets(b[3..]);
    assert x[0] == head[0] && x[1] == head[1] && x[2] == head[2] && x[3] == head[3];
    assert x[4..] == EncodeSextets(b[3..]);
    DecodeEncode(b[3..]);
    Triple(p, q, r);
    assert b == [p, q, r] + b[3..];
  }

  lemma {:induction false} EncodedLength(b: seq<Byte>)
    ensures |EncodeSextets(b)| == (|b| * 8 + 5) / 6
  {
    if |b| >= 3 {
      EncodedLength(b[3..]);
    }
  }

  lemma {:induction false} DecodedLength(x: seq<Sextet>)
    ensures DecodeSextets(x) == None <==> |x| % 4 == 1
    ensures DecodeSextets(x).Some? ==> |DecodeSextets(x).value| == |x| * 6 / 8
  {
    if |x| >= 4 {
      DecodedLength(x[4..]);
      FourMore(|x| - 4);
    }
  }

  /** Four more sextets are three more bytes. */
  lemma FourMore(n: nat)
    ensures (n + 4) % 4 == n % 4 && (n + 4) * 6 / 8 == n * 6 / 8 + 3
  {
  }

  function Letter(x: Sextet): char {
    if x < 26 then 'A' + x as char
    else if x < 52 then 'a' + (x - 26) as char
    else if x < 62 then '0' + (x - 52) as char
    else if x == 62 then '+'
    else '/'
  }

  const UPPER := "ABCDEFGHIJKLMNOPQRSTUVWXYZ"
  const LOWER := "abcdefghijklmnopqrstuvwxyz"
  const DIGITS := "0123456789"

  /** Table 1 of RFC 4648. */
  const ALPHABET := UPPER + LOWER + DIGITS + "+/"

  lemma UpperLetter(x: Sextet)
    requires x < 26
    ensures Letter(x) == UPPER[x]
  {
  }

  lemma LowerLetter(x: Sextet)
    requires 26 <= x < 52
    ensures Letter(x) == LOWER[x - 26]
  {
  }

  lemma LetterOfAlphabet(x: Sextet)
    ensures |ALPHABET| == 64 && Letter(x) == ALPHABET[x]
  {
    if x < 26 {
      UpperLetter(x);
    } else if x < 52 {
      LowerLetter(x);
    } else if x < 62 {
      assert Letter(x) == DIGITS[x - 52];
    }
  }

  function LetterValue(c: char): Option<Sextet> {
    if 'A' <= c <= 'Z' then Some((c - 'A') as int)
    else if 'a' <= c <= 'z' then Some((c - 'a') as int + 26)
    else if '0' <= c <= '9' then Some((c - '0') as int + 52)
    else if c == '+' then Some(62)
    else if c == '/' then Some(63)
    else None
  }

  function Letters(x: seq<Sextet>): string {
    seq(|x|, i requires 0 <= i < |x| => Letter(x[i]))
  }

  function Base64Text(b: seq<Byte>): string {
    Letters(EncodeSextets(b)) + (if |b| % 3 == 1 then "==" else if |b| % 3 == 2 then "=" else "")
  }

  /** Decodes a text of alphabet letters followed by "=="; None is the decoder's error. */
  function Base64Bytes(text: string): Option<seq<Byte>> {
    if |text| < 2 || text[|text| - 2..] != "==" then None
    else
      var body := text[..|text| - 2];
      if exists i :: 0 <= i < |body| && LetterValue(body[i]) == None then None
      else DecodeSextets(seq(|body|, i requires 0 <= i < |body| && LetterValue(body[i]) != None
                             => LetterValue(body[i]).value))
  }

  // ---- str.replace ----

  /** Python's `s.replace(a, c)` for single characters. */
  function Subst(s: string, a: char, c: char): string {
    seq(|s|, i requires 0 <= i < |s| => if s[i] == a then c else s[i])
  }

  /** Python's `s.replace(pat, '')`: one left-to-right pass over non-overlapping occurrences. */
  function RemoveAll(s: string, pat: string): string
    requires pat != []
  {
    if |s| < |pat| then s
    else if s[..|pat|] == pat then RemoveAll(s[|pat|..], pat)
    else [s[0]] + RemoveAll(s[1..], pat)
  }

  lemma {:induction false} RemoveAllExact(s: string, pat: string)
    requires pat != []
    ensures !Contains(s, pat) ==> RemoveAll(s, pat) == s
    ensures Contains(s, pat) ==> |RemoveAll(s, pat)| < |s|
    ensures |RemoveAll(s, pat)| <= |s|
  {
    if |s| < |pat| {
    } else if s[..|pat|] == pat {
      assert OccursAt(s, pat, 0);
      RemoveAllExact(s[|pat|..], pat);
    } else {
      var t := s[1..];
      RemoveAllExact(t, pat);
      if Contains(s, pat) {
        var i :| 0 <= i <= |s| && OccursAt(s, pat, i);
        assert i > 0 && t[i - 1..i - 1 + |pat|] == s[i..i + |pat|];
        assert OccursAt(t, pat, i - 1);
      }
      if Contains(t, pat) {
        var i :| 0 <= i <= |t| && OccursAt(t, pat, i);
        assert s[i + 1..i + 1 + |pat|] == t[i..i + |pat|];
        assert OccursAt(s, pat, i + 1);
      }
    }
  }

  lemma {:induction false} RemoveAllSuffix(s: string, n: nat)
    requires '=' !in s
    ensures RemoveAll(s + seq(n, _ => '='), "=") == s
    decreases |s| + n
  {
    var t := s + seq(n, _ => '=');
    if s == [] {
      if n > 0 {
        assert t[1..] == [] + seq(n - 1, _ => '=');
        RemoveAllSuffix([], n - 1);
      }
    } else {
      assert t[..1] == [s[0]] && s[0] in s;
      assert t[1..] == s[1..] + seq(n, _ => '=');
      RemoveAllSuffix(s[1..], n);
    }
  }

  // ---- UUID text ----

  function HexDigit(d: int): char
    requires 0 <= d < 16
  {
    if d < 10 then '0' + d as char else 'a' + (d - 10) as char
  }

  lemma HexDigitLower(d: int)
    requires 0 <= d < 16
    ensures HexDigit(d) == "0123456789abcdef"[d]
  {
  }

  function HexValue(c: char): Option<int>
  {
    if '0' <= c <= '9' then Some((c - '0') as int)
    else if 'a' <= c <= 'f' then Some((c - 'a') as int + 10)
    else if 'A' <= c <= 'F' then Some((c - 'A') as int + 10)
    else None
  }

  function Hex(b: seq<Byte>): string {
    if b == [] then "" else [HexDigit(b[0] / 16), HexDigit(b[0] % 16)] + Hex(b[1..])
  }

  function UnHex(s: string): Option<seq<Byte>> {
    if |s| == 0 then Some([])
    else if |s| == 1 then None
    else
      match (HexValue(s[0]), HexValue(s[1]), UnHex(s[2..]))
      case (Some(hi), Some(lo), Some(rest)) => Some([hi * 16 + lo] + rest)
      case _ => None
  }

  function Dashed(s: string, t: string): string {
    s + ("-" + t)
  }

  /** `str(uuid)`: lower-case hexadecimal in groups of 8-4-4-4-12. */
  function CanonicalId(u: Uuid): string {
    Dashed(Hex(u[..4]), Dashed(Hex(u[4..6]), Dashed(Hex(u[6..8]), Dashed(Hex(u[8..10]), Hex(u[10..])))))
  }

  /** `uuid.UUID('urn:uuid:%s' % name.replace("-", ""))`; None is its ValueError. */
  function ParseId(id: string): Option<Uuid> {
    match UnHex(RemoveAll(id, "-"))
    case Some(b) => if |b| == 16 then Some(b) else None
    case None => None
  }

  lemma {:induction false} HexRoundTrip(b: seq<Byte>)
    ensures UnHex(Hex(b)) == Some(b)
    ensures |Hex(b)| == 2 * |b|
    ensures '-' !in Hex(b)
  {
    if b != [] {
      HexRoundTrip(b[1..]);
      assert Hex(b)[2..] == Hex(b[1..]);
      assert b == [b[0]] + b[1..];
    }
  }

  lemma {:induction false} HexAppend(a: seq<Byte>, b: seq<Byte>)
    ensures Hex(a + b) == Hex(a) + Hex(b)
  {
    if a == [] {
      assert a + b == b;
    } else {
      HexAppend(a[1..], b);
      assert (a + b)[1..] == a[1..] + b;
    }
  }

  lemma {:induction false} RemoveDash(s: string, t: string)
    requires '-' !in s
    ensures RemoveAll(s + t, "-") == s + RemoveAll(t, "-")
  {
    if s == [] {
      assert s + t == t;
    } else {
      assert s[0] in s && (s + t)[..1] == [s[0]] && (s + t)[1..] == s[1..] + t;
      RemoveDash(s[1..], t);
    }
  }

  lemma RemoveLeadingDash(t: string)
    ensures RemoveAll("-" + t, "-") == RemoveAll(t, "-")
  {
    assert ("-" + t)[..1] == "-" && ("-" + t)[1..] == t;
  }

  lemma DropDash(s: string, t: string)
    requires '-' !in s
    ensures RemoveAll(Dashed(s, t), "-") == s + RemoveAll(t, "-")
  {
    RemoveDash(s, "-" + t);
    RemoveLeadingDash(t);
  }

  lemma CanonicalIdDigits(u: Uuid)
    ensures RemoveAll(CanonicalId(u), "-")
         == Hex(u[..4]) + (Hex(u[4..6]) + (Hex(u[6..8]) + (Hex(u[8..10]) + Hex(u[10..]))))
    ensures |CanonicalId(u)| == 36
  {
    var a, b, c, d, e := Hex(u[..4]), Hex(u[4..6]), Hex(u[6..8]), Hex(u[8..10]), Hex(u[10..]);
    HexRoundTrip(u[..4]);
    HexRoundTrip(u[4..6]);
    HexRoundTrip(u[6..8]);
    HexRoundTrip(u[8..10]);
    HexRoundTrip(u[10..]);
    RemoveDash(e, "");
    assert e + "" == e;
    DropDash(d, e);
    DropDash(c, Dashed(d, e));
    DropDash(b, Dashed(c, Dashed(d, e)));
    DropDash(a, Dashed(b, Dashed(c, Dashed(d, e))));
  }

  lemma HexOfSlice(u: Uuid, i: nat, j: nat)
    requires i <= j <= 16
    ensures Hex(u[i..j]) + Hex(u[j..]) == Hex(u[i..])
  {
    HexAppend(u[i..j], u[j..]);
    assert u[i..j] + u[j..] == u[i..];
  }

  /** A canonical id names exactly the UUID it was printed from. */
  lemma ParseCanonicalId(u: Uuid)
    ensures ParseId(CanonicalId(u)) == Some(u)
    ensures |CanonicalId(u)| == 36
  {
    CanonicalIdDigits(u);
    HexOfSlice(u, 8, 10);
    HexOfSlice(u, 6, 8);
    HexOfSlice(u, 4, 6);
    HexOfSlice(u, 0, 4);
    assert u[0..] == u && u[0..4] == u[..4];
    HexRoundTrip(u);
  }

  ghost predicate DashesAt(s: string, at: set<nat>) {
    forall i: nat :: i < |s| ==> (s[i] == '-' <==> i in at)
  }

  lemma DashAt(s: string, t: string, at: set<nat>, more: set<nat>)
    requires '-' !in s && DashesAt(t, at)
    requires forall i: nat :: i in more <==> i == |s| || (i > |s| && i - |s| - 1 in at)
    ensures DashesAt(Dashed(s, t), more)
  {
    var text := Dashed(s, t);
    forall i: nat | i < |text|
      ensures text[i] == '-' <==> i in more
    {
      if i < |s| {
        assert text[i] == s[i];
      } else if i > |s| {
        assert text[i] == t[i - |s| - 1];
      }
    }
  }

  /** The groups of a canonical id, 8, 4, 4, 4 and 12 digits, end where they should. */
  lemma CanonicalIdDashes(u: Uuid)
    ensures |CanonicalId(u)| == 36 && DashesAt(CanonicalId(u), {8, 13, 18, 23})
  {
    CanonicalIdDigits(u);
    HexRoundTrip(u[..4]);
    HexRoundTrip(u[4..6]);
    HexRoundTrip(u[6..8]);
    TailDashes(u);
    var tail := Dashed(Hex(u[6..8]), Dashed(Hex(u[8..10]), Hex(u[10..])));
    DashAt(Hex(u[4..6]), tail, {4, 9}, {4, 9, 14});
    DashAt(Hex(u[..4]), Dashed(Hex(u[4..6]), tail), {4, 9, 14}, {8, 13, 18, 23});
  }

  lemma TailDashes(u: Uuid)
    ensures DashesAt(Dashed(Hex(u[6..8]), Dashed(Hex(u[8..10]), Hex(u[10..]))), {4, 9})
  {
    HexRoundTrip(u[6..8]);
    HexRoundTrip(u[8..10]);
    HexRoundTrip(u[10..]);
    DashAt(Hex(u[8..10]), Hex(u[10..]), {}, {4});
    DashAt(Hex(u[6..8]), Dashed(Hex(u[8..10]), Hex(u[10..])), {4}, {4, 9});
  }

  // ---- 3PAR names ----

  function EncodeName(u: Uuid): string {
    RemoveAll(Subst(Subst(Base64Text(u), '+', '.'), '/', '-'), "=")
  }

  /** `_decode_name`; None is an exception of the base64 decoder or of `uuid.UUID(bytes=...)`. */
  function DecodeName(name: string): Option<string> {
    var text := Subst(Subst(RemoveAll(name, "dcv-"), '.', '+'), '-', '/') + "==";
    match Base64Bytes(text)
    case Some(b) => if |b| == 16 then Some(CanonicalId(b)) else None
    case None => None
  }

  function VolName(u: Uuid): string {
    "dcv-" + EncodeName(u)
  }

  function SnapName(u: Uuid): string {
    "dcs-" + EncodeName(u)
  }

  function ArrayName(u: Uuid, isSnap: bool): string {
    if isSnap then SnapName(u) else VolName(u)
  }

  /** "vvs-" and the encoded id: the volume set of a volume. */
  function VvsName(u: Uuid): string {
    "vvs-" + EncodeName(u)
  }

  /** The letter 3PAR sees in place of a base64 letter. */
  function NameLetter(x: Sextet): char {
    if x == 62 then '.' else if x == 63 then '-' else Letter(x)
  }

  lemma EncodeNameLetters(u: Uuid)
    ensures |EncodeName(u)| == 22 == |EncodeSextets(u)|
    ensures forall i :: 0 <= i < 22 ==> EncodeName(u)[i] == NameLetter(EncodeSextets(u)[i])
  {
    EncodedLength(u);
    var body := Letters(EncodeSextets(u));
    var subst := Subst(Subst(body, '+', '.'), '/', '-');
    assert Subst(Subst(body + "==", '+', '.'), '/', '-') == subst + seq(2, _ => '=');
    RemoveAllSuffix(subst, 2);
  }

  lemma LetterRoundTrip(x: Sextet)
    ensures LetterValue(Letter(x)) == Some(x)
    ensures Letter(x) != '.' && Letter(x) != '-' && Letter(x) != '='
  {
  }

  /** Undoing the two character replacements and decoding gives the UUID back. */
  lemma DecodeBody(u: Uuid)
    ensures Base64Bytes(Subst(Subst(EncodeName(u), '.', '+'), '-', '/') + "==") == Some(u)
  {
    EncodeNameLetters(u);
    DecodeEncode(u);
    var x := EncodeSextets(u);
    var text := Subst(Subst(EncodeName(u), '.', '+'), '-', '/') + "==";
    var body := Subst(Subst(EncodeName(u), '.', '+'), '-', '/');
    assert text[..|text| - 2] == body && text[|text| - 2..] == "==";
    forall i | 0 <= i < 22
      ensures LetterValue(body[i]) == Some(x[i])
    {
      LetterRoundTrip(x[i]);
    }
    assert seq(|body|, i requires 0 <= i < |body| && LetterValue(body[i]) != None
               => LetterValue(body[i]).value) == x;
  }

  /** Distinct UUIDs have distinct encodings. */
  lemma EncodeNameInjective(u: Uuid, v: Uuid)
    ensures EncodeName(u) == EncodeName(v) ==> u == v
  {
    DecodeBody(u);
    DecodeBody(v);
  }

  /** Names are injective, 26 characters long (within the array's limit of 31), and a volume
      name is never a snapshot name. */
  lemma NamesDistinct(u: Uuid, uSnap: bool, v: Uuid, vSnap: bool)
    ensures |ArrayName(u, uSnap)| == 26
    ensures ArrayName(u, uSnap) == ArrayName(v, vSnap) <==> u == v && uSnap == vSnap
  {
    EncodeNameLetters(u);
    EncodeNameLetters(v);
    EncodeNameInjective(u, v);
    assert ArrayName(u, uSnap)[2] == if uSnap then 's' else 'v';
    assert ArrayName(u, uSnap)[4..] == EncodeName(u);
    assert ArrayName(v, vSnap)[4..] == EncodeName(v);
  }

  /** The prefix tells volumes, snapshots and volume sets apart, and the rest is the encoded id. */
  lemma Prefixes(u: Uuid, v: Uuid)
    ensures VolName(u)[..4] == "dcv-" && SnapName(u)[..4] == "dcs-" && VvsName(u)[..4] == "vvs-"
    ensures VvsName(u) == VvsName(v) <==> u == v
    ensures forall isSnap :: VvsName(u) != ArrayName(v, isSnap)
  {
    EncodeNameInjective(u, v);
    assert VvsName(u)[4..] == EncodeName(u) && VvsName(v)[4..] == EncodeName(v);
    assert VvsName(u)[0] == 'v' && forall isSnap :: ArrayName(v, isSnap)[0] == 'd';
  }

  /** Each letter of an encoded id is the letter of the sextet there, but for the two that 3PAR does not allow. */
  lemma EncodedLetters(u: Uuid, i: nat)
    requires i < 22
    ensures |EncodeName(u)| == 22 == |EncodeSextets(u)|
    ensures var x := EncodeSextets(u)[i];
            EncodeName(u)[i] == if x == 62 then '.' else if x == 63 then '-' else ALPHABET[x]
  {
    EncodeNameLetters(u);
    LetterOfAlphabet(EncodeSextets(u)[i]);
  }

  /** Between plugin names the substring test of `delete_vlun` is an equality test. */
  lemma SubstringIsEquality(u: Uuid, uSnap: bool, v: Uuid, vSnap: bool)
    ensures Contains(ArrayName(u, uSnap), ArrayName(v, vSnap)) <==> u == v && uSnap == vSnap
  {
    NamesDistinct(u, uSnap, v, vSnap);
    NamesDistinct(v, vSnap, u, uSnap);
    var hay, needle := ArrayName(u, uSnap), ArrayName(v, vSnap);
    if Contains(hay, needle) {
      var i :| 0 <= i <= |hay| && OccursAt(hay, needle, i);
      assert i == 0 && hay[0..26] == hay;
    }
    if hay == needle {
      assert hay[0..26] == hay;
      assert OccursAt(hay, needle, 0);
    }
  }

  /** `get_vol_id(get_3par_vol_name(id))` is the canonical id of `id`'s UUID exactly when the
      encoded body does not itself contain "dcv-": decoding deletes every occurrence. */
  lemma NameRoundTrip(id: string)
    requires ParseId(id).Some?
    ensures var u := ParseId(id).value;
            && (DecodeName(VolName(u)) == Some(CanonicalId(u)) <==> !Contains(EncodeName(u), "dcv-"))
            && (Contains(EncodeName(u), "dcv-") ==> DecodeName(VolName(u)) == None)
  {
    var u := ParseId(id).value;
    var body := EncodeName(u);
    var name := VolName(u);
    EncodeNameLetters(u);
    assert name[..4] == "dcv-" && name[4..] == body;
    var rest := RemoveAll(body, "dcv-");
    assert RemoveAll(name, "dcv-") == rest;
    RemoveAllExact(body, "dcv-");
    if Contains(body, "dcv-") {
      ShortBodyFails(rest);
    } else {
      DecodeBody(u);
    }
  }

  /** A body shorter than 22 characters cannot decode to 16 bytes. */
  lemma ShortBodyFails(rest: string)
    requires |rest| < 22
    ensures match Base64Bytes(Subst(Subst(rest, '.', '+'), '-', '/') + "==")
            case Some(b) => |b| < 16
            case None => true
  {
    var text := Subst(Subst(rest, '.', '+'), '-', '/') + "==";
    var body := text[..|text| - 2];
    if forall i :: 0 <= i < |body| ==> LetterValue(body[i]) != None {
      DecodedLength(seq(|body|, i requires 0 <= i < |body| && LetterValue(body[i]) != None
                        => LetterValue(body[i]).value));
    }
  }

  /** Such UUIDs exist: every one that begins 75cbff, of whatever version. */
  lemma UndecodableNames(u: Uuid)
    requires u[..3] == [117, 203, 255]
    ensures DecodeName(VolName(u)) == None
  {
    var x, p, q, r := EncodeSextets(u), u[..3][0], u[..3][1], u[..3][2];
    assert u[0] == p && u[1] == q && u[2] == r;
    assert Sextet0(p) == 29 && Sextet1(p, q) == 28 && Sextet2(q, r) == 47 && Sextet3(r) == 63;
    EncodeNameLetters(u);
    var body := EncodeName(u);
    assert x[0] == 29 && x[1] == 28 && x[2] == 47 && x[3] == 63;
    assert body[0..4] == "dcv-";
    assert OccursAt(body, "dcv-", 0);
    ParseCanonicalId(u);
    NameRoundTrip(CanonicalId(u));
  }
}

/** The IPv6 printer and parser of the vendored compat.py (section 2.2 of RFC 4291), with the
    Python 2 meaning of its comparisons: any integer is greater than None. */
module Ipv6 {
  import opened Util
  import Names

  type Word = x: int | 0 <= x < 0x1_0000
  type Words = w: seq<Word> | |w| == 8 witness [0, 0, 0, 0, 0, 0, 0, 0]

  /** A zero run to elide: first word and number of words. */
  datatype Run = Run(base: nat, len: nat)

  datatype Parsed = Address(words: Words) | Invalid | Ipv4Suffix

  ghost predicate ZeroRun(w: Words, r: Run) {
    r.len > 0 && r.base + r.len <= 8 && forall i :: r.base <= i < r.base + r.len ==> w[i] == 0
  }

  ghost predicate MaximalRun(w: Words, r: Run) {
    && ZeroRun(w, r)
    && (r.base == 0 || w[r.base - 1] != 0)
    && (r.base + r.len == 8 || w[r.base + r.len] != 0)
  }

  // ---- text ----

  function HexText(x: nat): string {
    if x < 16 then [Names.HexDigit(x)] else HexText(x / 16) + [Names.HexDigit(x % 16)]
  }

  /** `int(s, 16)` on plain digits; None is its ValueError. */
  function HexNumber(s: string): Option<nat> {
    if s == "" then None
    else
      match Names.HexValue(s[|s| - 1])
      case None => None
      case Some(d) =>
        if |s| == 1 then Some(d)
        else
          match HexNumber(s[..|s| - 1])
          case None => None
          case Some(n) => Some(n * 16 + d)
  }

  /** `':'.join(parts)` */
  function Join(parts: seq<string>): string {
    if parts == [] then "" else if |parts| == 1 then parts[0] else parts[0] + ":" + Join(parts[1..])
  }

  /** `s.split(':')` */
  function Split(s: string): (parts: seq<string>)
    ensures parts != []
  {
    if s == "" then [""]
    else if s[0] == ':' then [""] + Split(s[1..])
    else var rest := Split(s[1..]); [[s[0]] + rest[0]] + rest[1..]
  }

  function Zeros(n: nat): seq<string> {
    seq(n, _ => "0")
  }

  /** Plain text between colons: what one printed word looks like. */
  predicate Plain(part: string) {
    part != "" && ':' !in part && '.' !in part && '%' !in part
  }

  lemma {:induction false} HexTextPlain(x: nat)
    ensures Plain(HexText(x))
    ensures HexNumber(HexText(x)) == Some(x)
  {
    if x >= 16 {
      HexTextPlain(x / 16);
      assert HexText(x)[..|HexText(x)| - 1] == HexText(x / 16);
    }
  }

  /** A word is printed without leading zeros. */
  lemma {:induction false} HexTextShortest(x: nat)
    ensures HexText(x) != "" && (HexText(x)[0] == '0' <==> x == 0)
    ensures x < 16 <==> |HexText(x)| == 1
    ensures x >= 16 ==> |HexText(x)| == 1 + |HexText(x / 16)|
  {
    if x >= 16 {
      HexTextShortest(x / 16);
    }
  }

  lemma {:induction false} SplitPart(p: string, s: string)
    requires ':' !in p
    ensures Split(p + s) == [p + Split(s)[0]] + Split(s)[1..]
  {
    if p == "" {
      assert p + s == s;
      assert "" + Split(s)[0] == Split(s)[0];
    } else {
      assert p[0] in p && (p + s)[1..] == p[1..] + s;
      SplitPart(p[1..], s);
      assert p == [p[0]] + p[1..];
      assert [p[0]] + (p[1..] + Split(s)[0]) == p + Split(s)[0];
    }
  }

  lemma {:induction false} SplitJoin(parts: seq<string>)
    requires parts != [] && forall p :: p in parts ==> ':' !in p
    ensures Split(Join(parts)) == parts
  {
    if |parts| == 1 {
      SplitPart(parts[0], "");
      assert parts[0] + "" == parts[0];
    } else {
      SplitJoin(parts[1..]);
      var tail := ":" + Join(parts[1..]);
      assert tail[1..] == Join(parts[1..]);
      SplitPart(parts[0], tail);
      assert Join(parts) == parts[0] + tail;
      assert parts[0] + "" == parts[0];
    }
  }

  lemma {:induction false} JoinChars(parts: seq<string>, c: char)
    requires c != ':' && forall p :: p in parts ==> c !in p
    ensures c !in Join(parts)
  {
    if |parts| > 1 {
      JoinChars(parts[1..], c);
    }
  }

  lemma {:induction false} JoinEnd(parts: seq<string>)
    requires parts != []
    ensures parts[|parts| - 1] != "" ==>
              Join(parts) != "" && Join(parts)[|Join(parts)| - 1] == parts[|parts| - 1][|parts[|parts| - 1]| - 1]
    ensures |parts| >= 3 && parts[|parts| - 2] == parts[|parts| - 1] == "" ==>
              |Join(parts)| >= 2 && Join(parts)[|Join(parts)| - 2..] == "::"
  {
    if |parts| > 1 {
      JoinEnd(parts[1..]);
      if |parts| == 3 && parts[1] == parts[2] == "" {
        assert parts[1..][1..] == [""];
        assert Join(parts[1..]) == ":";
        assert Join(parts)[|Join(parts)| - 2..] == "::";
      }
    }
  }

  // ---- printer ----

  function Texts(w: Words): seq<string> {
    seq(8, i requires 0 <= i < 8 => HexText(w[i]))
  }

  function ElideRun(parts: seq<string>, r: Run): seq<string>
    requires r.base + r.len <= |parts|
  {
    parts[..r.base] + [""] + parts[r.base + r.len..]
  }

  function DoubleEnds(parts: seq<string>): seq<string>
    requires parts != []
  {
    var p := if parts[0] == "" then [""] + parts else parts;
    if p[|p| - 1] == "" then p[..|p| - 1] + ["", ""] else p
  }

  /** The text printed when the given run is elided. */
  function Print(w: Words, run: Option<Run>): string
    requires run.Some? ==> run.value.base + run.value.len <= 8
  {
    var parts := match run
                 case None => Texts(w)
                 case Some(r) => ElideRun(Texts(w), r);
    Join(DoubleEnds(parts))
  }

  /** What the scan picks: the last zero run that ends before the eighth word, unless a run
      reaching the end of the address is the only one or is strictly longer. */
  ghost predicate Chosen(w: Words, run: Option<Run>) {
    match run
    case None => forall i :: 0 <= i < 8 ==> w[i] != 0
    case Some(r) =>
      && MaximalRun(w, r)
      && if r.base + r.len < 8
         then forall q :: MaximalRun(w, q) && q.base > r.base ==> q.base + q.len == 8 && q.len <= r.len
         else forall q :: MaximalRun(w, q) && LastBefore(w, q, r.base) ==> q.len < r.len
  }

  /** `q` is the last maximal run of those starting before `limit`. */
  ghost predicate LastBefore(w: Words, q: Run, limit: nat) {
    q.base < limit && forall p :: MaximalRun(w, p) && p.base < limit ==> p.base <= q.base
  }

  /** The printer's scan after `i` words: every run starting before the open one (or before `i`)
      is closed, and `best` is the last of them. */
  ghost predicate Scanned(w: Words, i: nat, cur: Option<nat>, best: Option<Run>) {
    && i <= 8
    && (cur.Some? ==> cur.value < i && ZeroRun(w, Run(cur.value, i - cur.value)))
    && var limit := if cur.Some? then cur.value else i;
       && (limit > 0 ==> w[limit - 1] != 0)
       && (best.Some? ==> best.value.base < limit && MaximalRun(w, best.value))
       && forall q :: MaximalRun(w, q) && q.base < limit ==> best.Some? && q.base <= best.value.base
  }

  lemma ScanClosesRun(w: Words, i: nat, base: nat, best: Option<Run>)
    requires i < 8 && w[i] != 0 && Scanned(w, i, Some(base), best)
    ensures Scanned(w, i + 1, None, Some(Run(base, i - base)))
  {
    forall q | MaximalRun(w, q) && q.base < i + 1
      ensures q.base <= base
    {
      assert w[q.base] == 0;
    }
  }

  lemma ScanSkipsWord(w: Words, i: nat, best: Option<Run>)
    requires i < 8 && w[i] != 0 && Scanned(w, i, None, best)
    ensures Scanned(w, i + 1, None, best)
  {
    forall q | MaximalRun(w, q) && q.base < i + 1
      ensures q.base < i
    {
      assert w[q.base] == 0;
    }
  }

  lemma ScanCountsZero(w: Words, i: nat, cur: Option<nat>, best: Option<Run>)
    requires i < 8 && w[i] == 0 && Scanned(w, i, cur, best)
    ensures Scanned(w, i + 1, if cur.None? then Some(i) else cur, best)
  {
  }

  lemma SameBase(w: Words, p: Run, q: Run)
    requires MaximalRun(w, p) && MaximalRun(w, q) && p.base == q.base
    ensures p == q
  {
  }

  lemma ScanDone(w: Words, cur: Option<nat>, best: Option<Run>)
    requires Scanned(w, 8, cur, best)
    ensures cur.None? ==> Chosen(w, best)
    ensures cur.Some? && best.Some? && 8 - cur.value <= best.value.len ==> Chosen(w, best)
    ensures cur.Some? && (best.None? || 8 - cur.value > best.value.len) ==>
              Chosen(w, Some(Run(cur.value, 8 - cur.value)))
  {
    if cur.Some? {
      var t := Run(cur.value, 8 - cur.value);
      assert MaximalRun(w, t);
      forall q | MaximalRun(w, q) && q.base >= cur.value
        ensures q == t
      {
        SameBase(w, q, t);
      }
      forall q | MaximalRun(w, q) && LastBefore(w, q, cur.value)
        ensures best.Some? && q == best.value
      {
        SameBase(w, q, best.value);
      }
    } else if best.None? {
      forall i | 0 <= i < 8
        ensures w[i] != 0
      {
        if w[i] == 0 {
          var q := RunAround(w, i);
        }
      }
    }
  }

  /** The printer's scan over the words. */
  method ChooseRun(w: Words) returns (best: Option<Run>)
    ensures Chosen(w, best)
  {
    var cur: Option<nat>, curLen := None, 0;
    best := None;
    var i := 0;
    while i < 8
      invariant 0 <= i <= 8 && Scanned(w, i, cur, best)
      invariant cur.Some? ==> curLen == i - cur.value
    {
      if w[i] == 0 {
        ScanCountsZero(w, i, cur, best);
        if cur.None? {
          cur, curLen := Some(i), 0;
        }
        curLen := curLen + 1;
      } else if cur.Some? {
        ScanClosesRun(w, i, cur.value, best);
        // bestLen is reset to None before it is compared, so the comparison always succeeds
        best, cur := Some(Run(cur.value, curLen)), None;
      } else {
        ScanSkipsWord(w, i, best);
      }
      i := i + 1;
    }
    ScanDone(w, cur, best);
    if cur.Some? && (best.None? || curLen > best.value.len) {
      best := Some(Run(cur.value, curLen));
    }
  }

  /** The printer: chooses a run, then edits the list of parts in place. */
  method InetNtop(w: Words) returns (text: string)
    ensures exists run :: Chosen(w, run) && text == Print(w, run)
  {
    var best := ChooseRun(w);
    var parts := Texts(w);
    if best.Some? {
      parts := parts[..best.value.base] + [""] + parts[best.value.base + best.value.len..];
    }
    ghost var elided := parts;
    if parts[0] == "" {
      parts := [""] + parts;
    }
    if parts[|parts| - 1] == "" {
      parts := parts[..|parts| - 1] + [""] + parts[|parts| - 1..];
    }
    assert parts == DoubleEnds(elided);
    text := Join(parts);
    assert Chosen(w, best) && text == Print(w, best);
  }

  // ---- parser ----

  function CountEmpty(parts: seq<string>): nat {
    if parts == [] then 0 else (if parts[0] == "" then 1 else 0) + CountEmpty(parts[1..])
  }

  function FirstEmpty(parts: seq<string>): (k: nat)
    requires CountEmpty(parts) > 0
    ensures k < |parts| && parts[k] == "" && forall i :: 0 <= i < k ==> parts[i] != ""
  {
    if parts[0] == "" then 0 else 1 + FirstEmpty(parts[1..])
  }

  function CountChar(s: string, c: char): nat {
    if s == "" then 0 else (if s[0] == c then 1 else 0) + CountChar(s[1..], c)
  }

  function BeforePercent(s: string): string {
    if s == "" || s[0] == '%' then "" else [s[0]] + BeforePercent(s[1..])
  }

  predicate StartsElided(s: string) {
    |s| >= 2 && s[..2] == "::"
  }

  predicate EndsElided(s: string) {
    |s| >= 2 && s[|s| - 2..] == "::"
  }

  /** The parts with the elided ones filled in by zeros. */
  function FillIn(addr: string, parts: seq<string>): seq<string>
    requires 0 < CountEmpty(parts) && |parts| <= 8
  {
    var zeros := Zeros(8 - |parts| + CountEmpty(parts));
    if StartsElided(addr) && |parts| >= 2 then zeros + parts[2..]
    else if EndsElided(addr) && |parts| >= 2 then parts[..|parts| - 2] + zeros
    else var k := FirstEmpty(parts); parts[..k] + zeros + parts[k + 1..]
  }

  function PackWords(parts: seq<string>): Parsed {
    if |parts| == 8 && forall i :: 0 <= i < 8 ==> HexNumber(parts[i]).Some? && HexNumber(parts[i]).value < 0x1_0000
    then Address(seq(8, i requires 0 <= i < 8 && HexNumber(parts[i]).Some? && HexNumber(parts[i]).value < 0x1_0000
                     => HexNumber(parts[i]).value))
    else Invalid
  }

  function InetPton(text: string): Parsed {
    if text == "" then Invalid
    else if '%' in text && (CountChar(text, '%') > 1 || text[0] == '%') then Invalid
    else
      var addr := BeforePercent(text);
      var parts := Split(addr);
      var elided := CountEmpty(parts);
      if '.' in parts[|parts| - 1] then Ipv4Suffix
      else if |parts| > 8 || elided > 3 then Invalid
      else if elided == 3 then Address([0, 0, 0, 0, 0, 0, 0, 0])
      else if elided > 0 then PackWords(FillIn(addr, parts))
      else PackWords(parts)
  }

  // ---- what is rejected, and zones ----

  lemma {:induction false} BeforeZone(text: string, zone: string)
    requires '%' !in text
    ensures BeforePercent(text + "%" + zone) == text
  {
    if text == "" {
      assert text + "%" + zone == "%" + zone;
    } else {
      assert (text + "%" + zone)[1..] == text[1..] + "%" + zone;
      BeforeZone(text[1..], zone);
    }
  }

  lemma {:induction false} CountCharConcat(s: string, t: string, c: char)
    ensures CountChar(s + t, c) == CountChar(s, c) + CountChar(t, c)
  {
    if s == "" {
      assert s + t == t;
    } else {
      assert (s + t)[1..] == s[1..] + t;
      CountCharConcat(s[1..], t, c);
    }
  }

  lemma {:induction false} CountAbsent(s: string, c: char)
    ensures CountChar(s, c) == 0 <==> c !in s
  {
    if s != "" {
      CountAbsent(s[1..], c);
      assert s == [s[0]] + s[1..];
    }
  }

  /** A word is at most four hexadecimal digits' worth: an address takes eight numbers below 65536. */
  lemma WordsExactly(parts: seq<string>)
    ensures PackWords(parts).Address? <==>
              |parts| == 8 && forall i :: 0 <= i < 8 ==> HexNumber(parts[i]).Some? && HexNumber(parts[i]).value <= 65535
    ensures PackWords(parts).Address? ==>
              forall i :: 0 <= i < 8 ==> HexNumber(parts[i]) == Some(PackWords(parts).words[i])
    ensures !PackWords(parts).Ipv4Suffix?
  {
  }

  /** One zone behind an address is ignored, whatever it is. */
  lemma ZoneIgnored(text: string, zone: string)
    requires text != "" && '%' !in text && '%' !in zone
    ensures InetPton(text + "%" + zone) == InetPton(text)
  {
    BeforeZone(text, zone);
    NoPercent(text);
    CountCharConcat(text + "%", zone, '%');
    CountCharConcat(text, "%", '%');
    CountAbsent(text, '%');
    CountAbsent(zone, '%');
    assert CountChar("%", '%') == 1 by {
      assert "%"[1..] == "";
    }
    assert (text + "%" + zone)[|text|] == '%';
  }

  /** A zone without an address, two zones, and the empty text are no addresses. */
  lemma BadZones(text: string, zone: string, more: string)
    ensures InetPton("") == Invalid && InetPton("%" + zone) == Invalid
    ensures InetPton(text + "%" + zone + "%" + more) == Invalid
  {
    assert ("%" + zone)[0] == '%';
    var t := text + "%" + zone + "%" + more;
    CountCharConcat(text + "%" + zone + "%", more, '%');
    CountCharConcat(text + "%" + zone, "%", '%');
    CountCharConcat(text + "%", zone, '%');
    CountCharConcat(text, "%", '%');
    assert CountChar("%", '%') == 1 by {
      assert "%"[1..] == "";
    }
    assert t[|text|] == '%';
  }

  // ---- round trip ----

  lemma {:induction false} CountEmptyAppend(p: seq<string>, q: seq<string>)
    ensures CountEmpty(p + q) == CountEmpty(p) + CountEmpty(q)
  {
    if p == [] {
      assert p + q == q;
    } else {
      CountEmptyAppend(p[1..], q);
      assert (p + q)[1..] == p[1..] + q;
    }
  }

  lemma {:induction false} CountEmptyPlain(p: seq<string>)
    requires forall s :: s in p ==> Plain(s)
    ensures CountEmpty(p) == 0
  {
    if p != [] {
      assert p[0] in p;
      CountEmptyPlain(p[1..]);
    }
  }

  lemma {:induction false} NoPercent(s: string)
    requires '%' !in s
    ensures BeforePercent(s) == s
  {
    if s != "" {
      NoPercent(s[1..]);
    }
  }

  lemma TextsPlain(w: Words)
    ensures forall s :: s in Texts(w) ==> Plain(s)
    ensures PackWords(Texts(w)) == Address(w)
  {
    forall i | 0 <= i < 8
      ensures Plain(Texts(w)[i]) && HexNumber(Texts(w)[i]) == Some(w[i])
    {
      HexTextPlain(w[i]);
    }
  }

  /** Reading a joined list of parts gets as far as the list itself. */
  lemma ReadJoined(parts: seq<string>)
    requires |parts| >= 2 && forall p :: p in parts ==> p == "" || Plain(p)
    ensures Join(parts) != "" && '%' !in Join(parts)
    ensures BeforePercent(Join(parts)) == Join(parts)
    ensures Split(Join(parts)) == parts
    ensures '.' !in parts[|parts| - 1]
  {
    SplitJoin(parts);
    JoinChars(parts, '%');
    NoPercent(Join(parts));
    assert parts[|parts| - 1] in parts;
  }

  /** The parser on a joined list of at least two plain or empty parts. */
  lemma ParseJoined(parts: seq<string>)
    requires 2 <= |parts| && forall p :: p in parts ==> p == "" || Plain(p)
    ensures InetPton(Join(parts))
         == if |parts| > 8 || CountEmpty(parts) > 3 then Invalid
            else if CountEmpty(parts) == 3 then Address([0, 0, 0, 0, 0, 0, 0, 0])
            else if CountEmpty(parts) > 0 then PackWords(FillIn(Join(parts), parts))
            else PackWords(parts)
  {
    ReadJoined(parts);
  }

  lemma NoRunRoundTrip(w: Words)
    ensures InetPton(Print(w, None)) == Address(w)
  {
    var parts := Texts(w);
    TextsPlain(w);
    assert parts[0] in parts && parts[7] in parts;
    ParseJoined(parts);
    CountEmptyPlain(parts);
  }

  lemma WholeRunRoundTrip(w: Words)
    requires ZeroRun(w, Run(0, 8))
    ensures InetPton(Print(w, Some(Run(0, 8)))) == Address(w)
  {
    var parts := ["", "", ""];
    assert DoubleEnds(ElideRun(Texts(w), Run(0, 8))) == parts;
    ParseJoined(parts);
    assert CountEmpty(parts) == 3 by {
      assert parts[1..] == ["", ""] && parts[1..][1..] == [""];
    }
    assert w == [0, 0, 0, 0, 0, 0, 0, 0];
  }

  lemma CountLeading(rest: seq<string>)
    requires forall s :: s in rest ==> Plain(s)
    ensures CountEmpty(["", ""] + rest) == 2
  {
    CountEmptyAppend(["", ""], rest);
    CountEmptyPlain(rest);
    assert CountEmpty(["", ""]) == 2;
  }

  lemma LeadingStarts(rest: seq<string>)
    requires 1 <= |rest|
    ensures StartsElided(Join(["", ""] + rest))
  {
    var parts := ["", ""] + rest;
    assert parts[1..] == [""] + rest && ([""] + rest)[1..] == rest;
    assert Join(parts) == "" + ":" + ("" + ":" + Join(rest));
  }

  lemma FillLeading(rest: seq<string>)
    requires 1 <= |rest| <= 6 && forall s :: s in rest ==> Plain(s)
    ensures CountEmpty(["", ""] + rest) == 2
    ensures FillIn(Join(["", ""] + rest), ["", ""] + rest) == Zeros(8 - |rest|) + rest
  {
    CountLeading(rest);
    LeadingStarts(rest);
    assert (["", ""] + rest)[2..] == rest;
  }

  lemma CountTrailing(front: seq<string>)
    requires forall s :: s in front ==> Plain(s)
    ensures CountEmpty(front + ["", ""]) == 2
  {
    CountEmptyAppend(front, ["", ""]);
    CountEmptyPlain(front);
    assert CountEmpty(["", ""]) == 2;
  }

  lemma TrailingEnds(front: seq<string>)
    requires 1 <= |front| && forall s :: s in front ==> Plain(s)
    ensures !StartsElided(Join(front + ["", ""])) && EndsElided(Join(front + ["", ""]))
  {
    var parts := front + ["", ""];
    assert parts[0] == front[0] && front[0] in front;
    JoinStart(parts);
    JoinEnd(parts);
  }

  lemma FillTrailing(front: seq<string>)
    requires 1 <= |front| <= 6 && forall s :: s in front ==> Plain(s)
    ensures CountEmpty(front + ["", ""]) == 2
    ensures FillIn(Join(front + ["", ""]), front + ["", ""]) == front + Zeros(8 - |front|)
  {
    CountTrailing(front);
    TrailingEnds(front);
    assert (front + ["", ""])[..|front|] == front;
  }

  lemma CountInterior(front: seq<string>, rest: seq<string>)
    requires forall s :: s in front || s in rest ==> Plain(s)
    ensures CountEmpty(front + ([""] + rest)) == 1
  {
    CountEmptyAppend(front, [""] + rest);
    CountEmptyAppend([""], rest);
    CountEmptyPlain(front);
    CountEmptyPlain(rest);
  }

  lemma FirstInterior(front: seq<string>, rest: seq<string>)
    requires forall s :: s in front || s in rest ==> Plain(s)
    requires CountEmpty(front + ([""] + rest)) == 1
    ensures FirstEmpty(front + ([""] + rest)) == |front|
  {
    var parts := front + ([""] + rest);
    assert parts[|front|] == "";
    assert forall i :: 0 <= i < |front| ==> parts[i] == front[i] && front[i] in front;
  }

  lemma FillInterior(front: seq<string>, rest: seq<string>)
    requires 1 <= |front| && 1 <= |rest| && |front| + |rest| <= 7
    requires forall s :: s in front || s in rest ==> Plain(s)
    ensures var parts := front + ([""] + rest);
            && CountEmpty(parts) == 1
            && FillIn(Join(parts), parts) == front + Zeros(8 - |front| - |rest|) + rest
  {
    var parts := front + ([""] + rest);
    CountInterior(front, rest);
    FirstInterior(front, rest);
    InteriorEnds(front, rest);
    assert parts[..|front|] == front && parts[|front| + 1..] == rest;
  }

  lemma JoinPlainEnd(parts: seq<string>)
    requires |parts| >= 2 && Plain(parts[|parts| - 1])
    ensures !EndsElided(Join(parts))
  {
    var last := parts[|parts| - 1];
    assert last[|last| - 1] in last;
    JoinEnd(parts);
    LastChar(Join(parts));
  }

  lemma InteriorEnds(front: seq<string>, rest: seq<string>)
    requires 1 <= |front| && 1 <= |rest|
    requires forall s :: s in front || s in rest ==> Plain(s)
    ensures !StartsElided(Join(front + ([""] + rest))) && !EndsElided(Join(front + ([""] + rest)))
  {
    var parts := front + ([""] + rest);
    assert Plain(parts[0]) by {
      assert parts[0] == front[0] && front[0] in front;
    }
    assert Plain(parts[|parts| - 1]) by {
      assert parts[|parts| - 1] == rest[|rest| - 1] && rest[|rest| - 1] in rest;
    }
    PlainEnds(parts);
  }

  lemma PlainEnds(parts: seq<string>)
    requires |parts| >= 2 && Plain(parts[0]) && Plain(parts[|parts| - 1])
    ensures !StartsElided(Join(parts)) && !EndsElided(Join(parts))
  {
    JoinStart(parts);
    JoinPlainEnd(parts);
  }

  lemma LastChar(t: string)
    ensures EndsElided(t) ==> |t| >= 2 && t[|t| - 1] == ':'
  {
    if EndsElided(t) {
      assert t[|t| - 1] == t[|t| - 2..][1];
    }
  }

  lemma ReadLeading(rest: seq<string>)
    requires 1 <= |rest| <= 7 && forall s :: s in rest ==> Plain(s)
    ensures InetPton(Join(["", ""] + rest)) == if |rest| == 7 then Invalid else PackWords(Zeros(8 - |rest|) + rest)
  {
    CountLeading(rest);
    if |rest| <= 6 {
      FillLeading(rest);
    }
    ParseJoined(["", ""] + rest);
  }

  lemma ReadTrailing(front: seq<string>)
    requires 1 <= |front| <= 7 && forall s :: s in front ==> Plain(s)
    ensures InetPton(Join(front + ["", ""])) == if |front| == 7 then Invalid else PackWords(front + Zeros(8 - |front|))
  {
    CountTrailing(front);
    if |front| <= 6 {
      FillTrailing(front);
    }
    ParseJoined(front + ["", ""]);
  }

  lemma ReadInterior(front: seq<string>, rest: seq<string>)
    requires 1 <= |front| && 1 <= |rest| && |front| + |rest| <= 7
    requires forall s :: s in front || s in rest ==> Plain(s)
    ensures InetPton(Join(front + ([""] + rest))) == PackWords(front + Zeros(8 - |front| - |rest|) + rest)
  {
    FillInterior(front, rest);
    ParseJoined(front + ([""] + rest));
  }

  /** Elision between plain parts: what the parser makes of it. */
  lemma ReadElided(front: seq<string>, rest: seq<string>)
    requires 1 <= |front| + |rest| <= 7
    requires forall s :: s in front || s in rest ==> Plain(s)
    ensures InetPton(Join(Doubled(front, rest)))
         == if (front == [] || rest == []) && |front| + |rest| == 7 then Invalid
            else PackWords(front + Zeros(8 - |front| - |rest|) + rest)
  {
    var all := front + Zeros(8 - |front| - |rest|) + rest;
    if front == [] {
      ReadLeading(rest);
      assert all == Zeros(8 - |rest|) + rest;
    } else if rest == [] {
      ReadTrailing(front);
      assert all == front + Zeros(8 - |front|);
    } else {
      ReadInterior(front, rest);
    }
  }

  /** One elided part between `front` and `rest`, doubled where it stands at an end. */
  function Doubled(front: seq<string>, rest: seq<string>): seq<string> {
    if front == [] then ["", ""] + rest
    else if rest == [] then front + ["", ""]
    else front + ([""] + rest)
  }

  lemma JoinStart(parts: seq<string>)
    requires |parts| >= 2 && Plain(parts[0])
    ensures !StartsElided(Join(parts))
  {
    assert Join(parts)[0] == parts[0][0];
    assert parts[0][0] in parts[0];
  }

  lemma DoubledEnds(front: seq<string>, rest: seq<string>)
    requires 1 <= |front| + |rest|
    requires forall s :: s in front || s in rest ==> Plain(s)
    ensures DoubleEnds(front + [""] + rest) == Doubled(front, rest)
  {
    var elided := front + [""] + rest;
    if front == [] {
      var p := [""] + elided;
      assert elided == [""] + rest && rest[|rest| - 1] in rest;
      assert p == ["", ""] + rest && p[|p| - 1] == rest[|rest| - 1];
    } else {
      assert elided[0] == front[0] && front[0] in front;
      DoubledBack(front, rest);
    }
  }

  lemma DoubledBack(front: seq<string>, rest: seq<string>)
    requires front != [] && front[0] != ""
    requires forall s :: s in rest ==> Plain(s)
    ensures DoubleEnds(front + [""] + rest) == Doubled(front, rest)
  {
    var p := front + [""] + rest;
    assert p[0] == front[0];
    if rest == [] {
      assert p == front + [""];
      assert p[|p| - 1] == "" && p[..|p| - 1] == front;
    } else {
      assert p[|p| - 1] == rest[|rest| - 1] && rest[|rest| - 1] in rest;
      assert p == front + ([""] + rest);
    }
  }

  lemma ElidedRoundTrip(w: Words, r: Run)
    requires ZeroRun(w, r) && r.len < 8
    ensures InetPton(Print(w, Some(r))) == if LoneEnd(Some(r)) then Invalid else Address(w)
  {
    var all := Texts(w);
    var front, rest := all[..r.base], all[r.base + r.len..];
    TextsPlain(w);
    assert forall s :: s in front || s in rest ==> s in all;
    DoubledEnds(front, rest);
    ReadElided(front, rest);
    ZeroTexts(w, r);
  }

  lemma ZeroTexts(w: Words, r: Run)
    requires ZeroRun(w, r)
    ensures Texts(w)[..r.base] + Zeros(r.len) + Texts(w)[r.base + r.len..] == Texts(w)
  {
    assert HexText(0) == "0";
  }

  /** Whatever zero run is elided, parsing the printed text gives the words back, except that a
      single elided word at either end is rejected. */
  lemma RoundTrip(w: Words, run: Option<Run>)
    requires run.Some? ==> ZeroRun(w, run.value)
    ensures InetPton(Print(w, run)) == if LoneEnd(run) then Invalid else Address(w)
  {
    match run
    case None => NoRunRoundTrip(w);
    case Some(r) =>
      if r.len == 8 {
        WholeRunRoundTrip(w);
      } else {
        ElidedRoundTrip(w, r);
      }
  }

  predicate LoneEnd(run: Option<Run>) {
    run == Some(Run(0, 1)) || run == Some(Run(7, 1))
  }

  /** A caller can tell from the words which addresses the pair loses: no zero among the inner
      six words, and a zero at an end. */
  predicate Lossy(w: Words) {
    (w[0] == 0 || w[7] == 0) && forall i :: 1 <= i < 7 ==> w[i] != 0
  }

  lemma LossyIsLoneEnd(w: Words, run: Option<Run>)
    requires Chosen(w, run)
    ensures LoneEnd(run) <==> Lossy(w)
  {
    if Lossy(w) {
      LossyChoosesLoneEnd(w, run);
    } else if LoneEnd(run) {
      LoneEndIsLossy(w, run.value);
    }
  }

  lemma LossyChoosesLoneEnd(w: Words, run: Option<Run>)
    requires Chosen(w, run) && Lossy(w)
    ensures LoneEnd(run)
  {
    var r, second := run.value, w[1];
    assert w[r.base] == 0;
    assert r.base == 0 || r.base == 7;
  }

  lemma LoneEndIsLossy(w: Words, r: Run)
    requires Chosen(w, Some(r)) && LoneEnd(Some(r))
    ensures Lossy(w)
  {
    forall i | 1 <= i < 7
      ensures w[i] != 0
    {
      if w[i] == 0 {
        var q := RunAround(w, i);
        if r.base == 7 {
          var p := LastRunBefore(w, q, 7);
        }
      }
    }
  }

  /** Some maximal run before `limit` is the last of them. */
  lemma LastRunBefore(w: Words, q: Run, limit: nat) returns (p: Run)
    requires MaximalRun(w, q) && q.base < limit
    ensures MaximalRun(w, p) && LastBefore(w, p, limit)
    decreases limit - q.base
  {
    if r :| MaximalRun(w, r) && r.base < limit && r.base > q.base {
      p := LastRunBefore(w, r, limit);
    } else {
      p := q;
    }
  }

  /** The maximal run that a zero word belongs to. */
  lemma RunAround(w: Words, i: nat) returns (q: Run)
    requires i < 8 && w[i] == 0
    ensures MaximalRun(w, q) && q.base <= i < q.base + q.len
  {
    var lo, hi := i, i + 1;
    while lo > 0 && w[lo - 1] == 0
      invariant 0 <= lo <= i && forall k :: lo <= k <= i ==> w[k] == 0
    {
      lo := lo - 1;
    }
    while hi < 8 && w[hi] == 0
      invariant i < hi <= 8 && forall k :: lo <= k < hi ==> w[k] == 0
    {
      hi := hi + 1;
    }
    q := Run(lo, hi - lo);
  }

  /** No run of zeros is longer than the chosen one. */
  ghost predicate Longest(w: Words, run: Option<Run>) {
    forall q :: MaximalRun(w, q) ==> run.Some? && q.len <= run.value.len
  }

  /** A run is longer than all that follow it, and one of these ends before the last word. */
  ghost predicate LongerLost(w: Words) {
    exists q, p :: MaximalRun(w, q) && MaximalRun(w, p) && q.base < p.base && p.base + p.len < 8 && LongestFrom(w, q)
  }

  ghost predicate LongestFrom(w: Words, q: Run) {
    forall s :: MaximalRun(w, s) && s.base > q.base ==> s.len < q.len
  }

  /** From `q` on, some run is the last that is longer than `n`. */
  lemma LastLonger(w: Words, q: Run, n: nat) returns (p: Run)
    requires MaximalRun(w, q) && q.len > n
    ensures MaximalRun(w, p) && p.len > n && p.base >= q.base
    ensures forall s :: MaximalRun(w, s) && s.base > p.base ==> s.len <= n
    decreases 8 - q.base
  {
    if s :| MaximalRun(w, s) && s.base > q.base && s.len > n {
      p := LastLonger(w, s, n);
    } else {
      p := q;
    }
  }

  /** Two maximal runs do not overlap: the later one starts after the other has ended. */
  lemma Apart(w: Words, q: Run, p: Run)
    requires MaximalRun(w, q) && MaximalRun(w, p) && q.base < p.base
    ensures q.base + q.len < p.base
  {
  }

  lemma LostIsChosen(w: Words, r: Run, q: Run)
    requires Chosen(w, Some(r)) && MaximalRun(w, q) && q.len > r.len
    ensures LongerLost(w)
  {
    var last := LastLonger(w, q, r.len);
    if r.base + r.len == 8 {
      if last.base > r.base {
        Apart(w, r, last);
      } else if last.base == r.base {
        SameBase(w, last, r);
      }
      var p := LastRunBefore(w, last, r.base);
      Apart(w, p, r);
      assert p.len < r.len && p.base > last.base;
      assert LongestFrom(w, last);
    } else {
      if last.base == r.base {
        SameBase(w, last, r);
      }
      assert last.base < r.base && LongestFrom(w, last);
    }
  }

  lemma ChosenLoses(w: Words, r: Run)
    requires Chosen(w, Some(r)) && LongerLost(w)
    ensures exists q :: MaximalRun(w, q) && q.len > r.len
  {
    var q, p :| MaximalRun(w, q) && MaximalRun(w, p) && q.base < p.base && p.base + p.len < 8 && LongestFrom(w, q);
    if r.base < p.base {
      Apart(w, r, p);
    } else if r.base == p.base {
      SameBase(w, p, r);
    }
    assert r.base > q.base;
  }

  /** The printer elides a longest run unless some run is longer than all that follow it and one of these ends
      before the last word: the reset of bestLen forgets it then. */
  lemma LongestUnlessLost(w: Words, run: Option<Run>)
    requires Chosen(w, run)
    ensures Longest(w, run) <==> !LongerLost(w)
  {
    assert forall q :: MaximalRun(w, q) ==> w[q.base] == 0;
    if run.Some? {
      if LongerLost(w) {
        ChosenLoses(w, run.value);
      }
      if q :| MaximalRun(w, q) && q.len > run.value.len {
        LostIsChosen(w, run.value, q);
      }
    }
  }

  /** Here three zeros lose to one. */
  lemma LongestRunNotChosen()
    ensures var w: Words := [0, 0, 0, 1, 0, 1, 1, 1];
            MaximalRun(w, Run(0, 3)) && Chosen(w, Some(Run(4, 1))) && !Chosen(w, Some(Run(0, 3)))
  {
    var w: Words := [0, 0, 0, 1, 0, 1, 1, 1];
    assert MaximalRun(w, Run(0, 3)) && MaximalRun(w, Run(4, 1));
    assert forall q :: MaximalRun(w, q) ==> w[q.base] == 0;
  }

  /** Printing and parsing back, as one call after the other: lossless exactly when not `Lossy`. */
  method PrintThenParse(w: Words) returns (p: Parsed)
    ensures p == if Lossy(w) then Invalid else Address(w)
  {
    var text := InetNtop(w);
    ghost var run :| Chosen(w, run) && text == Print(w, run);
    RoundTrip(w, run);
    LossyIsLoneEnd(w, run);
    p := InetPton(text);
  }
}

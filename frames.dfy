/** The wire form of one telemetry frame and of one batch of frames.

    A frame is `"$" + body + "*" + checksum + "\r\n"`; the body is a fixed
    header, a ten-character `YYMMDDHHMM` timestamp, a fixed payload, the
    1-based channel number as at least two lower-case hexadecimal digits
    (`hex(i + 1)[2:].zfill(2)`, so channel 10 is "0a"), and a fixed marker.
    The three fixed texts form a template; the one both scripts use is
    `FrameText.Owb`. A batch is the slot table `create_data` builds: the
    sentinel "0" at index 0, then the frame of channel i at index i. */
module Frames {
  import opened FrameChecksum
  import opened Wrappers

  /** The fixed texts around the timestamp and the channel number. */
  datatype Template = Template(header: string, payload: string, marker: string)

  /** Every character of s is ASCII (code below 128). */
  predicate IsAscii(s: string)
  {
    forall c :: c in s ==> c as int < 128
  }

  predicate AsciiTemplate(tpl: Template)
  {
    IsAscii(tpl.header) && IsAscii(tpl.payload) && IsAscii(tpl.marker)
  }

  /** The sentinel an empty slot holds (and the entry at index 0). */
  const Empty := "0"

  const Terminator := "\r\n"

  /** The channel number as the frame carries it: lower-case, zero-padded. */
  function ChannelHex(i: nat): (r: string)
    ensures |r| >= 2
    ensures forall k :: 0 <= k < |r| ==> IsLowerHexDigit(r[k])
  {
    ZFillDigits(Hex(i), 2);
    ZFill(Hex(i), 2)
  }

  /** The body of channel i's frame (line 71): header, timestamp, payload,
      channel field and marker, each at a fixed place. */
  function Body(tpl: Template, i: nat, ts: string): (r: string)
    ensures |r| == |tpl.header| + |ts| + |tpl.payload| + |ChannelHex(i)| + |tpl.marker|
  {
    tpl.header + ts + tpl.payload + ChannelHex(i) + tpl.marker
  }

  /** Every field of a body can be read back at its place: the header
      first, then the timestamp, the payload, the channel field, and the
      marker last. */
  lemma BodyLayout(tpl: Template, i: nat, ts: string)
    ensures var b, h, p := Body(tpl, i, ts), |tpl.header|, |tpl.payload|;
      var c := h + |ts| + p;
      b[..h] == tpl.header && b[h..h + |ts|] == ts && b[h + |ts|..c] == tpl.payload &&
      b[c..c + |ChannelHex(i)|] == ChannelHex(i) && b[c + |ChannelHex(i)|..] == tpl.marker
  {
    var b, h, p := Body(tpl, i, ts), |tpl.header|, |tpl.payload|;
    var c := h + |ts| + p;
    var x := ChannelHex(i);
    assert b == tpl.header + ts + tpl.payload + x + tpl.marker;
    assert b[..h] == tpl.header;
    assert b[h..h + |ts|] == ts;
    assert b[h + |ts|..c] == tpl.payload;
    assert b[c..c + |x|] == x;
    assert b[c + |x|..] == tpl.marker;
  }

  /** The frame of channel i for the timestamp ts. */
  function Frame(tpl: Template, i: nat, ts: string): (f: string)
    ensures |f| >= 6 + |Body(tpl, i, ts)|
    ensures f[0] == '$' && f[|f| - 2..] == Terminator
  {
    "$" + Body(tpl, i, ts) + "*" + Checksum(Body(tpl, i, ts)) + Terminator
  }

  /** The slot table after `create_data` with n channels: n + 1 entries,
      the sentinel first, then the frame of each channel at its own index. */
  function Batch(tpl: Template, n: nat, ts: string): (t: seq<string>)
    ensures |t| == n + 1
    ensures t[0] == Empty
    ensures forall k :: 1 <= k <= n ==> t[k] == Frame(tpl, k, ts)
  {
    if n == 0 then [Empty] else Batch(tpl, n - 1, ts) + [Frame(tpl, n, ts)]
  }

  // ---------------------------------------------------------------------
  // Reading a frame back

  /** The last position of c in s, if any. */
  function LastIndexOf(s: string, c: char): (r: Option<nat>)
    ensures r.Some? ==> r.value < |s| && s[r.value] == c && c !in s[r.value + 1..]
    ensures r.None? ==> c !in s
  {
    if s == [] then None
    else if s[|s| - 1] == c then Some(|s| - 1)
    else match LastIndexOf(s[..|s| - 1], c)
      case None => None
      case Some(k) =>
        assert s[k + 1..] == s[..|s| - 1][k + 1..] + [s[|s| - 1]];
        Some(k)
  }

  /** Split a frame into the text between '$' and the last '*' (the body),
      and the text between that '*' and the closing "\r\n" (the trailer). */
  function SplitFrame(f: string): (r: Option<(string, string)>)
    ensures r.Some? ==> f == "$" + r.value.0 + "*" + r.value.1 + Terminator
    ensures r.Some? ==> '*' !in r.value.1
  {
    if |f| < 4 || f[0] != '$' || f[|f| - 2..] != Terminator then None
    else
      var inner := f[1..|f| - 2];
      match LastIndexOf(inner, '*')
      case None => None
      case Some(k) =>
        var body, trailer := inner[..k], inner[k + 1..];
        assert inner == body + "*" + trailer;
        assert f == "$" + inner + Terminator;
        Some((body, trailer))
  }

  /** A frame is intact when recomputing the checksum of its body gives its trailer. */
  predicate FrameChecks(f: string)
  {
    match SplitFrame(f)
    case None => false
    case Some((body, trailer)) => Checksum(body) == trailer
  }

  // ---------------------------------------------------------------------
  // Properties

  lemma {:induction false} LastIndexOfAfter(a: string, c: char, b: string)
    requires c !in b
    ensures LastIndexOf(a + [c] + b, c) == Some(|a|)
  {
    if b != [] {
      var s := a + [c] + b;
      assert s[..|s| - 1] == a + [c] + b[..|b| - 1];
      LastIndexOfAfter(a, c, b[..|b| - 1]);
    }
  }

  /** Splitting "$" + b + "*" + c + "\r\n" gives back b and c whenever the
      trailer c holds no '*'. */
  lemma SplitAssembled(b: string, c: string)
    requires '*' !in c
    ensures SplitFrame("$" + b + "*" + c + Terminator) == Some((b, c))
  {
    var f := "$" + b + "*" + c + Terminator;
    var inner := f[1..|f| - 2];
    assert f[0] == '$' && f[|f| - 2..] == Terminator;
    assert inner == b + ['*'] + c;
    LastIndexOfAfter(b, '*', c);
    assert inner[..|b|] == b && inner[|b| + 1..] == c;
  }

  /** Taking the text between '$' and '*' of a generated frame gives its
      body back, and the text after '*' is that body's checksum: every
      frame `create_data` writes checks. */
  lemma FrameRoundTrip(tpl: Template, i: nat, ts: string)
    ensures SplitFrame(Frame(tpl, i, ts)) == Some((Body(tpl, i, ts), Checksum(Body(tpl, i, ts))))
    ensures FrameChecks(Frame(tpl, i, ts))
  {
    var c := Checksum(Body(tpl, i, ts));
    assert forall k :: 0 <= k < |c| ==> c[k] != '*';
    SplitAssembled(Body(tpl, i, ts), c);
  }

  /** Every body character is ASCII when the template's and the timestamp's are. */
  lemma BodyIsAscii(tpl: Template, i: nat, ts: string)
    requires AsciiTemplate(tpl) && IsAscii(ts)
    ensures IsAscii(Body(tpl, i, ts))
  {
    var h := ChannelHex(i);
    assert forall c :: c in h ==> IsLowerHexDigit(c);
  }

  /** A frame whose template and timestamp are ASCII carries exactly two checksum digits. */
  lemma FrameLength(tpl: Template, i: nat, ts: string)
    requires AsciiTemplate(tpl) && IsAscii(ts)
    ensures |Frame(tpl, i, ts)| == |Body(tpl, i, ts)| + 6
  {
    var b := Body(tpl, i, ts);
    BodyIsAscii(tpl, i, ts);
    ByteBodyChecksumLength(b);
    assert Frame(tpl, i, ts) == "$" + b + "*" + Checksum(b) + Terminator;
  }

  /** Every entry 1..n of a batch for an ASCII template and timestamp is a frame that
      starts with '$', ends with "\r\n", checks, and carries exactly two
      checksum digits. */
  lemma BatchFrame(tpl: Template, n: nat, ts: string, k: nat)
    requires AsciiTemplate(tpl) && IsAscii(ts)
    requires 1 <= k <= n
    ensures Batch(tpl, n, ts)[k][0] == '$'
    ensures Batch(tpl, n, ts)[k][|Batch(tpl, n, ts)[k]| - 2..] == Terminator
    ensures FrameChecks(Batch(tpl, n, ts)[k])
    ensures |Batch(tpl, n, ts)[k]| == |Body(tpl, k, ts)| + 6
  {
    assert Batch(tpl, n, ts)[k] == Frame(tpl, k, ts);
    FrameRoundTrip(tpl, k, ts);
    FrameLength(tpl, k, ts);
  }

  /** Channels 0..255 render as two digits that read back as the channel. */
  lemma ChannelHexValue(i: nat)
    requires i < 256
    ensures |ChannelHex(i)| == 2
    ensures HexValue(ChannelHex(i)) == i
  {
    HexLength(i);
    HexRoundTrip(i);
    var h := Hex(i);
    if |h| < 2 {
      LeadingZerosValue(2 - |h|, h);
    }
  }

  /** Frames assembled from bodies of equal length that differ somewhere differ. */
  lemma AssembledDiffer(b1: string, c1: string, b2: string, c2: string)
    requires |b1| == |b2| && b1 != b2
    ensures "$" + b1 + "*" + c1 + Terminator != "$" + b2 + "*" + c2 + Terminator
  {
    var f1, f2 := "$" + b1 + "*" + c1 + Terminator, "$" + b2 + "*" + c2 + Terminator;
    assert f1[1..|b1| + 1] == b1;
    assert f2[1..|b2| + 1] == b2;
  }

  /** Distinct channels below 256 get distinct frames for the same timestamp. */
  lemma FramesDistinct(tpl: Template, i: nat, j: nat, ts: string)
    requires i < 256 && j < 256 && i != j
    ensures Frame(tpl, i, ts) != Frame(tpl, j, ts)
  {
    ChannelHexValue(i);
    ChannelHexValue(j);
    var p := |tpl.header| + |ts| + |tpl.payload|;
    var bi, bj := Body(tpl, i, ts), Body(tpl, j, ts);
    assert bi[p..p + 2] == ChannelHex(i);
    assert bj[p..p + 2] == ChannelHex(j);
    AssembledDiffer(bi, Checksum(bi), bj, Checksum(bj));
  }
}

/** The fixed text every frame body carries: the header before the
    timestamp, the payload after it, and the closing marker. The header and
    the payload are written in pieces of at most 24 characters so that the
    verifier inspects each piece on its own. */
module FrameText {
  import opened Frames

  /** The template both scripts hard-code as `str1`, `str2` and `str3`. */
  const Owb := Template(Header, Payload, Marker)

  const Header := HeaderPiece0 + HeaderPiece1
  const Payload := PayloadPiece0 + PayloadPiece1 + PayloadPiece2 + PayloadPiece3 + PayloadPiece4 + PayloadPiece5
  const Marker := "E0"

  const HeaderPiece0 := "BDTCI,4216930,4216931,2,"
  const HeaderPiece1 := "090359,2,0,244F57425378"
  const PayloadPiece0 := "05F8C811DF6FFFFFFFFFFFFF"
  const PayloadPiece1 := "FFFF021F001132000B210006"
  const PayloadPiece2 := "8800029F073A0004FF2E0380"
  const PayloadPiece3 := "0355FFFFFFFFFFFFFFFF0004"
  const PayloadPiece4 := "FF2E04BD03550331FFFF018F"
  const PayloadPiece5 := "0BF7001E00"

  /** Text assembled from ASCII pieces is ASCII. */
  lemma AsciiConcat(a: string, b: string)
    requires IsAscii(a) && IsAscii(b)
    ensures IsAscii(a + b)
  {
  }

  /** All fixed text of a body is ASCII. */
  lemma OwbIsAscii()
    ensures AsciiTemplate(Owb)
  {
    HeaderPieceIsAscii0();
    HeaderPieceIsAscii1();
    AsciiConcat(HeaderPiece0, HeaderPiece1);
    PayloadPieceIsAscii0();
    PayloadPieceIsAscii1();
    AsciiConcat(PayloadPiece0, PayloadPiece1);
    PayloadPieceIsAscii2();
    AsciiConcat(PayloadPiece0 + PayloadPiece1, PayloadPiece2);
    PayloadPieceIsAscii3();
    AsciiConcat(PayloadPiece0 + PayloadPiece1 + PayloadPiece2, PayloadPiece3);
    PayloadPieceIsAscii4();
    AsciiConcat(PayloadPiece0 + PayloadPiece1 + PayloadPiece2 + PayloadPiece3, PayloadPiece4);
    PayloadPieceIsAscii5();
    AsciiConcat(PayloadPiece0 + PayloadPiece1 + PayloadPiece2 + PayloadPiece3 + PayloadPiece4, PayloadPiece5);
  }

  lemma HeaderPieceIsAscii0() ensures IsAscii(HeaderPiece0) {}
  lemma HeaderPieceIsAscii1() ensures IsAscii(HeaderPiece1) {}
  lemma PayloadPieceIsAscii0() ensures IsAscii(PayloadPiece0) {}
  lemma PayloadPieceIsAscii1() ensures IsAscii(PayloadPiece1) {}
  lemma PayloadPieceIsAscii2() ensures IsAscii(PayloadPiece2) {}
  lemma PayloadPieceIsAscii3() ensures IsAscii(PayloadPiece3) {}
  lemma PayloadPieceIsAscii4() ensures IsAscii(PayloadPiece4) {}
  lemma PayloadPieceIsAscii5() ensures IsAscii(PayloadPiece5) {}
}


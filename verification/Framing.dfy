/** What a stream of length-prefixed messages means, independently of how it is read. */
module Framing {
  import opened Common

  const HEADER_SIZE := 4
  const MAX_MESSAGE_SIZE := 1024 * 1024

  /** Any number that four bytes can hold. */
  type Word = n: nat | n < 0x1_0000_0000

  /** The four bytes of `n`, most significant first. */
  function BigEndian(n: Word): (b: Bytes)
    ensures |b| == HEADER_SIZE
  {
    [n / 0x100_0000, n / 0x1_0000 % 0x100, n / 0x100 % 0x100, n % 0x100]
  }

  function FromBigEndian(b: Bytes): Word
    requires |b| == HEADER_SIZE
  {
    b[0] as int * 0x100_0000 + b[1] as int * 0x1_0000 + b[2] as int * 0x100 + b[3]
  }

  /** The two are inverse to each other. */
  lemma HeaderDecodes(n: Word)
    ensures FromBigEndian(BigEndian(n)) == n
  {
    assert n / 0x100 == n / 0x1_0000 * 0x100 + n / 0x100 % 0x100;
    assert n / 0x1_0000 == n / 0x100_0000 * 0x100 + n / 0x1_0000 % 0x100;
  }

  lemma HeaderEncodes(b: Bytes)
    requires |b| == HEADER_SIZE
    ensures BigEndian(FromBigEndian(b)) == b
  {
    var w := FromBigEndian(b);
    assert w / 0x100 == b[0] as int * 0x1_0000 + b[1] as int * 0x100 + b[2];
    assert w / 0x1_0000 == b[0] as int * 0x100 + b[1];
    assert w / 0x100_0000 == b[0];
  }

  /** The bytes count for 2^24, 2^16, 2^8 and 1, the first most: no other four bytes add up to the number. */
  lemma PlaceValues(n: Word, b: Bytes)
    requires |b| == 4
    ensures b == BigEndian(n) <==>
              n == b[0] as int * 16_777_216 + b[1] as int * 65_536 + b[2] as int * 256 + b[3] as int
  {
    HeaderDecodes(n);
    HeaderEncodes(b);
  }

  predicate Fits(data: Bytes) {
    |data| <= MAX_MESSAGE_SIZE
  }

  function Framed(data: Bytes): Bytes
    requires Fits(data)
  {
    BigEndian(|data|) + data
  }

  /** The bytes of a list of messages, one frame after the other. */
  function Stream(ms: seq<Bytes>): Bytes
    requires forall m | m in ms :: Fits(m)
  {
    if ms == [] then [] else Framed(ms[0]) + Stream(ms[1..])
  }

  lemma {:induction false} StreamSnoc(ms: seq<Bytes>, m: Bytes)
    requires Fits(m) && forall x | x in ms :: Fits(x)
    ensures Stream(ms + [m]) == Stream(ms) + Framed(m)
  {
    if ms == [] {
      assert Stream([m]) == Framed(m) + Stream([]);
    } else {
      assert (ms + [m])[1..] == ms[1..] + [m];
      StreamSnoc(ms[1..], m);
      SeqAssoc(Framed(ms[0]), Stream(ms[1..]), Framed(m));
    }
  }

  /** Why a read stopped: the input ended before the first byte wanted, or after it. */
  datatype Ending = EOF | UnexpectedEOF

  datatype ReadResult =
    | Message(data: Bytes)
    | NoHeader(ending: Ending)
    | TooLarge(announced: Word)
    | NoBody(ending: Ending)

  /** One read of `input` answers `r` and leaves `rest`. */
  predicate Reads(input: Bytes, r: ReadResult, rest: Bytes) {
    match r
    case Message(data) => Fits(data) && input == Framed(data) + rest
    case NoHeader(ending) =>
      |input| < HEADER_SIZE && rest == [] && (ending == EOF <==> input == [])
    case TooLarge(n) =>
      n > MAX_MESSAGE_SIZE && input == BigEndian(n) + rest
    case NoBody(ending) =>
      && rest == []
      && exists n: Word ::
           && n <= MAX_MESSAGE_SIZE && BigEndian(n) <= input
           && |input| < HEADER_SIZE + n && (ending == EOF <==> |input| == HEADER_SIZE)
  }

  /** A header names one length. */
  lemma HeaderNames(input: Bytes, n: Word)
    requires BigEndian(n) <= input
    ensures FromBigEndian(input[..HEADER_SIZE]) == n
  {
    assert BigEndian(n) == input[..HEADER_SIZE];
    HeaderDecodes(n);
  }

  /** No input can be read in two ways. */
  lemma ReadsOneWay(input: Bytes, r: ReadResult, rest: Bytes, r': ReadResult, rest': Bytes)
    requires Reads(input, r, rest) && Reads(input, r', rest')
    ensures r == r' && rest == rest'
  {
    var a, b := Announced(input, r, rest), Announced(input, r', rest');
    assert a == b;
    if a.Some? && r.Message? && r'.Message? {
      assert r.data == input[HEADER_SIZE..][..a.value] == r'.data;
      assert rest == input[HEADER_SIZE..][a.value..] == rest';
    } else if a.Some? && r.TooLarge? && r'.TooLarge? {
      assert rest == input[HEADER_SIZE..] == rest';
    }
  }

  /** The length in the header, when there is one. */
  ghost function Announced(input: Bytes, r: ReadResult, rest: Bytes): (n: Option<Word>)
    requires Reads(input, r, rest)
    ensures n == if |input| < HEADER_SIZE then None else Some(FromBigEndian(input[..HEADER_SIZE]))
    ensures n.Some? ==> match r
                        case Message(data) => |data| == n.value
                        case NoHeader(_) => false
                        case TooLarge(m) => m == n.value
                        case NoBody(_) => n.value <= MAX_MESSAGE_SIZE && |input| < HEADER_SIZE + n.value
  {
    match r
    case Message(data) => HeaderNames(input, |data|); Some(|data|)
    case NoHeader(_) => None
    case TooLarge(m) => HeaderNames(input, m); Some(m)
    case NoBody(_) =>
      var n: Word :| n <= MAX_MESSAGE_SIZE && BigEndian(n) <= input && |input| < HEADER_SIZE + n;
      HeaderNames(input, n);
      Some(n)
  }

  /** Reading `input` over and over yields `ms`, and then the error `e`, with `rest` left. */
  predicate ReadsAll(input: Bytes, ms: seq<Bytes>, e: ReadResult, rest: Bytes)
    decreases |ms|
  {
    if ms == [] then !e.Message? && Reads(input, e, rest)
    else
      && Fits(ms[0]) && Framed(ms[0]) <= input
      && ReadsAll(input[|Framed(ms[0])|..], ms[1..], e, rest)
  }

  /** No input can be read to the end in two ways. */
  lemma {:induction false} ReadsAllOneWay(
    input: Bytes, ms: seq<Bytes>, e: ReadResult, rest: Bytes, ms': seq<Bytes>, e': ReadResult, rest': Bytes)
    requires ReadsAll(input, ms, e, rest) && ReadsAll(input, ms', e', rest')
    ensures ms == ms' && e == e' && rest == rest'
  {
    FirstRead(input, ms, e, rest);
    FirstRead(input, ms', e', rest');
    if ms != [] && ms' != [] {
      var tail, tail' := input[|Framed(ms[0])|..], input[|Framed(ms'[0])|..];
      ReadsOneWay(input, Message(ms[0]), tail, Message(ms'[0]), tail');
      ReadsAllOneWay(tail, ms[1..], e, rest, ms'[1..], e', rest');
      assert ms == [ms[0]] + ms[1..] && ms' == [ms'[0]] + ms'[1..];
    } else if ms != [] {
      ReadsOneWay(input, Message(ms[0]), input[|Framed(ms[0])|..], e', rest');
    } else if ms' != [] {
      ReadsOneWay(input, e, rest, Message(ms'[0]), input[|Framed(ms'[0])|..]);
    } else {
      ReadsOneWay(input, e, rest, e', rest');
    }
  }

  lemma FirstRead(input: Bytes, ms: seq<Bytes>, e: ReadResult, rest: Bytes)
    requires ReadsAll(input, ms, e, rest)
    ensures ms != [] ==> Reads(input, Message(ms[0]), input[|Framed(ms[0])|..])
  {
    if ms != [] {
      assert input == Framed(ms[0]) + input[|Framed(ms[0])|..];
    }
  }

  /** A stream cut off after `k` whole frames and `cut` bytes of the next. */
  function CutOff(ms: seq<Bytes>, k: nat, cut: nat): Bytes
    requires forall m | m in ms :: Fits(m)
    requires k < |ms| && cut < |Framed(ms[k])|
  {
    Stream(ms[..k]) + Framed(ms[k])[..cut]
  }

  /** What a read answers at the end of such a stream. */
  function ErrorAt(cut: nat): ReadResult {
    if cut == 0 then NoHeader(EOF)
    else if cut < HEADER_SIZE then NoHeader(UnexpectedEOF)
    else NoBody(if cut == HEADER_SIZE then EOF else UnexpectedEOF)
  }

  lemma OneMoreFrame(m: Bytes, input: Bytes, ms: seq<Bytes>, e: ReadResult, rest: Bytes)
    requires Fits(m) && ReadsAll(input, ms, e, rest)
    ensures ReadsAll(Framed(m) + input, [m] + ms, e, rest)
  {
    assert (Framed(m) + input)[|Framed(m)|..] == input;
    assert ([m] + ms)[1..] == ms;
  }

  /** Reading the frames of a list, followed by anything that reads as an error, yields the list. */
  lemma {:induction false} ReadsFrames(ms: seq<Bytes>, tail: Bytes, e: ReadResult, rest: Bytes)
    requires forall m | m in ms :: Fits(m)
    requires !e.Message? && Reads(tail, e, rest)
    ensures ReadsAll(Stream(ms) + tail, ms, e, rest)
  {
    if ms == [] {
      assert Stream(ms) + tail == tail;
    } else {
      ReadsFrames(ms[1..], tail, e, rest);
      SeqAssoc(Framed(ms[0]), Stream(ms[1..]), tail);
      OneMoreFrame(ms[0], Stream(ms[1..]) + tail, ms[1..], e, rest);
      assert [ms[0]] + ms[1..] == ms;
    }
  }

  /** A whole stream reads back as the list it was made from, to the last byte. */
  lemma RoundTrip(ms: seq<Bytes>)
    requires forall m | m in ms :: Fits(m)
    ensures ReadsAll(Stream(ms), ms, NoHeader(EOF), [])
  {
    ReadsFrames(ms, [], NoHeader(EOF), []);
    assert Stream(ms) + [] == Stream(ms);
  }

  /** A stream that is cut off reads back as the frames that are whole, and then an error. */
  lemma CutOffReads(ms: seq<Bytes>, k: nat, cut: nat)
    requires forall m | m in ms :: Fits(m)
    requires k < |ms| && cut < |Framed(ms[k])|
    ensures ReadsAll(CutOff(ms, k, cut), ms[..k], ErrorAt(cut), [])
  {
    var tail, n: Word := Framed(ms[k])[..cut], |ms[k]|;
    assert cut >= HEADER_SIZE ==> BigEndian(n) <= tail;
    ReadsFrames(ms[..k], tail, ErrorAt(cut), []);
  }

  /** Every strict prefix of a stream is the stream cut off somewhere. */
  lemma {:induction false} PrefixIsCutOff(ms: seq<Bytes>, p: Bytes) returns (k: nat, cut: nat)
    requires forall m | m in ms :: Fits(m)
    requires p < Stream(ms)
    ensures k < |ms| && cut < |Framed(ms[k])| && p == CutOff(ms, k, cut)
  {
    var first := Framed(ms[0]);
    if |p| < |first| {
      k, cut := 0, |p|;
      assert p == first[..cut];
    } else {
      assert p == first + p[|first|..];
      k, cut := PrefixIsCutOff(ms[1..], p[|first|..]);
      k := k + 1;
      assert ms[..k] == [ms[0]] + ms[1..][..k - 1];
    }
  }

  /**
   So every strict prefix reads back as a strict prefix of the list and then an end of input,
   never as a wrong message.
   */
  lemma PrefixReads(ms: seq<Bytes>, p: Bytes, got: seq<Bytes>, e: ReadResult, rest: Bytes)
    requires forall m | m in ms :: Fits(m)
    requires p < Stream(ms) && ReadsAll(p, got, e, rest)
    ensures got < ms && (e.NoHeader? || e.NoBody?) && rest == []
    ensures e == NoHeader(EOF) <==> p == Stream(got)
  {
    var k, cut := PrefixIsCutOff(ms, p);
    CutOffReads(ms, k, cut);
    ReadsAllOneWay(p, got, e, rest, ms[..k], ErrorAt(cut), []);
    assert cut > 0 ==> |p| > |Stream(got)|;
  }

  /** Any input whatever: what is read is framed at its front, and it ends cleanly just when nothing else is there. */
  lemma {:induction false} ReadsWhatIsThere(input: Bytes, ms: seq<Bytes>, e: ReadResult, rest: Bytes)
    requires ReadsAll(input, ms, e, rest)
    ensures forall m | m in ms :: Fits(m)
    ensures Stream(ms) <= input
    ensures e == NoHeader(EOF) <==> input == Stream(ms)
  {
    if ms != [] {
      var first := Framed(ms[0]);
      var tail := input[|first|..];
      assert input == first + tail;
      ReadsWhatIsThere(tail, ms[1..], e, rest);
      assert input == Stream(ms) + tail[|Stream(ms[1..])|..];
    }
  }


  /** A frame is four bytes that add up to the length, first byte first, and the message. */
  lemma FrameLayout(data: Bytes)
    requires |data| <= 1_048_576
    ensures var f := Framed(data);
            && |f| == 4 + |data| && f[4..] == data
            && |data| == f[0] as int * 16_777_216 + f[1] as int * 65_536 + f[2] as int * 256 + f[3] as int
  {
    PlaceValues(|data|, BigEndian(|data|));
  }

  /** One mebibyte is the limit, for writing and for reading. */
  lemma LimitIsOneMebibyte(data: Bytes, input: Bytes, n: Word)
    requires BigEndian(n) <= input
    ensures Fits(data) <==> |data| <= 1_048_576
    ensures Reads(input, TooLarge(n), input[4..]) <==> n > 1_048_576
  {
  }
}

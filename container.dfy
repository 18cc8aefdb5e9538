/**
 * The .hsp file around the payload: a 48-byte header of six signed 64-bit
 * words, then the zlib-compressed payload. The compressor and decompressor are
 * parameters: `deflate` maps bytes to bytes, `inflate` may fail.
 */
module Container {
  import opened Wrappers
  import opened Bytes
  import opened Project
  import opened Schema
  import RoundTrip

  /** The Unreal package tag, 0x9E2A83C1. */
  const PackageTag: I64 := 2653586369
  /** The compression chunk size, 128 KiB. */
  const ChunkSize: I64 := 131072
  /** The header's length, which the reader skips without looking at it. */
  const HeaderSize: nat := 0x30

  /** writeHeader's words: tag, chunk size, then the compressed and raw sizes, twice. */
  function EncHeader(dataSize: I64, compressedSize: I64): (r: seq<byte>)
    ensures |r| == HeaderSize
  {
    EncI64(PackageTag) + EncI64(ChunkSize) + EncI64(compressedSize) + EncI64(dataSize)
    + EncI64(compressedSize) + EncI64(dataSize)
  }

  /** One word in front of the rest: it reads back, and the rest follows it. */
  lemma I64Then(a: I64, t: seq<byte>)
    ensures |EncI64(a) + t| == 8 + |t| && (EncI64(a) + t)[8..] == t
    ensures DecI64(EncI64(a) + t) == Some(Parsed(a, t))
  {
    I64RoundTrip(a, t);
  }

  lemma SkipWord(h: seq<byte>, k: nat)
    requires k + 8 <= |h|
    ensures h[k..][8..] == h[k + 8..]
  {
  }

  /** Six words in a row read back one after the other, and nothing follows them. */
  lemma SixWords(w0: I64, w1: I64, w2: I64, w3: I64, w4: I64, w5: I64)
    ensures var h := EncI64(w0) + EncI64(w1) + EncI64(w2) + EncI64(w3) + EncI64(w4) + EncI64(w5);
      |h| == 48
      && DecI64(h) == Some(Parsed(w0, h[8..]))
      && DecI64(h[8..]) == Some(Parsed(w1, h[16..]))
      && DecI64(h[16..]) == Some(Parsed(w2, h[24..]))
      && DecI64(h[24..]) == Some(Parsed(w3, h[32..]))
      && DecI64(h[32..]) == Some(Parsed(w4, h[40..]))
      && DecI64(h[40..]) == Some(Parsed(w5, []))
  {
    var h := EncI64(w0) + EncI64(w1) + EncI64(w2) + EncI64(w3) + EncI64(w4) + EncI64(w5);
    var t5 := EncI64(w5) + [];
    var t4 := EncI64(w4) + t5;
    var t3 := EncI64(w3) + t4;
    var t2 := EncI64(w2) + t3;
    var t1 := EncI64(w1) + t2;
    assert h == EncI64(w0) + t1;
    I64Then(w0, t1);
    I64Then(w1, t2);
    I64Then(w2, t3);
    I64Then(w3, t4);
    I64Then(w4, t5);
    I64Then(w5, []);
    SkipWord(h, 8);
    SkipWord(h, 16);
    SkipWord(h, 24);
    SkipWord(h, 32);
  }

  /** The header reads back as its six words, in order, and nothing follows them. */
  lemma HeaderWords(dataSize: I64, compressedSize: I64)
    ensures var h := EncHeader(dataSize, compressedSize);
      DecI64(h) == Some(Parsed(PackageTag, h[8..]))
      && DecI64(h[8..]) == Some(Parsed(ChunkSize, h[16..]))
      && DecI64(h[16..]) == Some(Parsed(compressedSize, h[24..]))
      && DecI64(h[24..]) == Some(Parsed(dataSize, h[32..]))
      && DecI64(h[32..]) == Some(Parsed(compressedSize, h[40..]))
      && DecI64(h[40..]) == Some(Parsed(dataSize, []))
  {
    SixWords(PackageTag, ChunkSize, compressedSize, dataSize, compressedSize, dataSize);
  }

  /** Both sizes fit the header's signed words and the payload fits its length word. */
  predicate FileFits(d: ProjectFile, deflate: seq<byte> -> seq<byte>) {
    PayloadFits(d) && |deflate(EncData(d))| < TWO63
  }

  /** The file json2hsp writes: the header, then the deflated payload. */
  function EncFile(d: ProjectFile, deflate: seq<byte> -> seq<byte>): (r: seq<byte>)
    requires FileFits(d, deflate)
    ensures |r| == HeaderSize + |deflate(EncData(d))|
    ensures r[..HeaderSize] == EncHeader(|EncData(d)|, |deflate(EncData(d))|)
    ensures r[HeaderSize..] == deflate(EncData(d))
  {
    var data := EncData(d);
    var compressed := deflate(data);
    EncHeader(|data|, |compressed|) + compressed
  }

  /** file.slice(0x30): everything after the header; a shorter file leaves nothing. */
  function Compressed(file: seq<byte>): (r: seq<byte>)
    ensures |file| >= HeaderSize ==> file == file[..HeaderSize] + r
    ensures |file| <= HeaderSize ==> r == []
  {
    if |file| < HeaderSize then [] else file[HeaderSize..]
  }

  /** How hsp2json fails: the decompressor rejects the bytes, or parse throws. */
  datatype FileError = InflateFailed | ParseFailed(reason: DecodeError)

  /** hsp2json without the file system: skip the header, inflate, parse. */
  function DecFile(file: seq<byte>, inflate: seq<byte> -> Option<seq<byte>>): (r: Result<ProjectFile, FileError>)
    ensures inflate(Compressed(file)).None? ==> r == Err(InflateFailed)
    ensures r.Ok? ==> r.value.version == SupportedVersion
  {
    match inflate(Compressed(file))
    case None => Err(InflateFailed)
    case Some(data) =>
      match Decode(data)
      case Err(e) => Err(ParseFailed(e))
      case Ok(d) => Ok(d)
  }

  /**
   * hsp2json reads back what json2hsp writes, provided the decompressor
   * inverts the compressor on the payload.
   */
  lemma FileRoundTrip(d: ProjectFile, deflate: seq<byte> -> seq<byte>, inflate: seq<byte> -> Option<seq<byte>>)
    requires DocumentCanonical(d) && FileFits(d, deflate)
    requires inflate(deflate(EncData(d))) == Some(EncData(d))
    ensures DecFile(EncFile(d, deflate), inflate) == Ok(d)
  {
    var file := EncFile(d, deflate);
    assert Compressed(file) == deflate(EncData(d));
    RoundTrip.DecodeRoundTrip(d, []);
    assert EncData(d) + [] == EncData(d);
  }
}

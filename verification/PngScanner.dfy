/** binary_metadata_findings (scripts/audit_repository_privacy.py): the walk over the chunks of a PNG file, whose
 * layout is section 5.3 of the PNG Specification (Third Edition).
 */
module PngScanner {

  type Byte = b: int | 0 <= b < 256

  type Bytes = seq<Byte>

  datatype Finding = ExifMetadata | MalformedPng

  const SIGNATURE: Bytes := [0x89, 0x50, 0x4E, 0x47, 0x0D, 0x0A, 0x1A, 0x0A]

  const EXIF: Bytes := [0x65, 0x58, 0x49, 0x66]

  const IEND: Bytes := [0x49, 0x45, 0x4E, 0x44]

  const JPEG_START: Bytes := [0xFF, 0xD8]

  const JPEG_EXIF: Bytes := [0x45, 0x78, 0x69, 0x66, 0x00, 0x00]

  // struct.unpack(">I", ...)
  function ReadLength(b: Bytes): (n: nat)
    requires |b| == 4
    ensures n < 0x1_0000_0000
  {
    b[0] as int * 0x100_0000 + b[1] as int * 0x1_0000 + b[2] as int * 0x100 + b[3] as int
  }

  function WriteLength(n: nat): (b: Bytes)
    requires n < 0x1_0000_0000
    ensures |b| == 4 && ReadLength(b) == n
  {
    var high, low := n / 0x1_0000, n % 0x1_0000;
    [high / 0x100, high % 0x100, low / 0x100, low % 0x100]
  }

  lemma LengthsRoundTrip(b: Bytes)
    requires |b| == 4
    ensures WriteLength(ReadLength(b)) == b
  {
    var n := ReadLength(b);
    assert n / 0x1_0000 == b[0] as int * 0x100 + b[1] as int && n % 0x1_0000 == b[2] as int * 0x100 + b[3] as int;
  }

  // ---- the layout ----

  datatype PngChunk = PngChunk(kind: Bytes, data: Bytes, crc: Bytes)
  {
    predicate Valid() { |kind| == 4 && |crc| == 4 && |data| < 0x1_0000_0000 }

    function Encoded(): Bytes
      requires Valid()
    {
      WriteLength(|data|) + kind + data + crc
    }
  }

  predicate ChunksValid(chunks: seq<PngChunk>) { forall i :: 0 <= i < |chunks| ==> chunks[i].Valid() }

  function EncodedAll(chunks: seq<PngChunk>): Bytes
    requires ChunksValid(chunks)
  {
    if chunks == [] then [] else chunks[0].Encoded() + EncodedAll(chunks[1..])
  }

  // What a reader should be told: one finding per eXIf chunk, up to the first IEND.
  function ExifChunks(chunks: seq<PngChunk>): seq<Finding> {
    if chunks == [] then []
    else (if chunks[0].kind == EXIF then [ExifMetadata] else [])
         + if chunks[0].kind == IEND then [] else ExifChunks(chunks[1..])
  }

  // The chunks up to and including the first IEND.
  function UpToEnd(chunks: seq<PngChunk>): seq<PngChunk> {
    if chunks == [] then []
    else [chunks[0]] + if chunks[0].kind == IEND then [] else UpToEnd(chunks[1..])
  }

  predicate Ends(chunks: seq<PngChunk>) { chunks != [] && (chunks[0].kind == IEND || Ends(chunks[1..])) }

  // ---- the first chunk of some bytes ----

  // Too short for a chunk, or the chunk claims more than there is.
  predicate Stops(body: Bytes) { |body| < 12 || Overruns(body) }

  predicate Overruns(body: Bytes) { |body| >= 12 && 12 + ReadLength(body[..4]) > |body| }

  function FirstChunk(body: Bytes): PngChunk
    requires !Stops(body)
  {
    var n := ReadLength(body[..4]);
    PngChunk(body[4..8], body[8..8 + n], body[8 + n..12 + n])
  }

  function AfterFirst(body: Bytes): (after: Bytes)
    requires !Stops(body)
    ensures |after| < |body|
  {
    body[12 + ReadLength(body[..4])..]
  }

  lemma FirstOfEncoded(c: PngChunk, after: Bytes)
    requires c.Valid()
    ensures var body := c.Encoded() + after; !Stops(body) && FirstChunk(body) == c && AfterFirst(body) == after
  {
    var body, n := c.Encoded() + after, |c.data|;
    assert body == WriteLength(n) + c.kind + c.data + c.crc + after;
    assert body[..4] == WriteLength(n);
    assert ReadLength(body[..4]) == n && |body| >= 12 + n;
    assert body[4..8] == c.kind && body[8..8 + n] == c.data && body[8 + n..12 + n] == c.crc;
    assert !Stops(body) && AfterFirst(body) == body[12 + n..] == after;
    assert FirstChunk(body) == PngChunk(c.kind, c.data, c.crc);
  }

  lemma FirstRebuilds(body: Bytes)
    requires !Stops(body)
    ensures FirstChunk(body).Valid() && FirstChunk(body).Encoded() + AfterFirst(body) == body
  {
    LengthsRoundTrip(body[..4]);
    var n := ReadLength(body[..4]);
    assert FirstChunk(body).Encoded() == body[..4] + body[4..8] + body[8..8 + n] + body[8 + n..12 + n];
    assert body[..4] + body[4..8] + body[8..8 + n] + body[8 + n..12 + n] == body[..12 + n];
    assert body[..12 + n] + body[12 + n..] == body;
  }

  // ---- the walk ----

  predicate OccursAt(raw: Bytes, part: Bytes, i: nat) { i + |part| <= |raw| && raw[i..i + |part|] == part }

  predicate Contains(raw: Bytes, part: Bytes) { exists i: nat | i <= |raw| :: OccursAt(raw, part, i) }

  // What the loop appends for the bytes that are left.
  function Walk(body: Bytes): seq<Finding>
    decreases |body|
  {
    if |body| < 12 then []
    else if Overruns(body) then [MalformedPng]
    else
      var c := FirstChunk(body);
      (if c.kind == EXIF then [ExifMetadata] else []) + if c.kind == IEND then [] else Walk(AfterFirst(body))
  }

  function Findings(raw: Bytes): seq<Finding> {
    (if JPEG_START <= raw && Contains(raw, JPEG_EXIF) then [ExifMetadata] else [])
    + if SIGNATURE <= raw then Walk(raw[8..]) else []
  }

  method JpegFindings(raw: Bytes) returns (findings: seq<Finding>)
    ensures findings == if JPEG_START <= raw && Contains(raw, JPEG_EXIF) then [ExifMetadata] else []
  {
    findings := [];
    if JPEG_START <= raw {
      var found := Search(raw, JPEG_EXIF);
      if found {
        findings := findings + [ExifMetadata];
      }
    }
  }

  // Every read is inside the buffer, and every pass moves on by at least twelve bytes.
  method BinaryMetadataFindings(raw: Bytes) returns (findings: seq<Finding>)
    ensures findings == Findings(raw)
  {
    findings := JpegFindings(raw);
    if !(SIGNATURE <= raw) {
      return;
    }
    var walked := WalkFrom(raw, 8);
    findings := findings + walked;
  }

  // One pass of the loop, in terms of the whole buffer.
  lemma WalkOnePass(raw: Bytes, offset: nat)
    requires offset + 12 <= |raw|
    ensures var end, kind := offset + 12 + ReadLength(raw[offset..offset + 4]), raw[offset + 4..offset + 8];
      Walk(raw[offset..]) ==
        if end > |raw| then [MalformedPng]
        else (if kind == EXIF then [ExifMetadata] else []) + if kind == IEND then [] else Walk(raw[end..])
  {
    var body := raw[offset..];
    assert raw[offset..offset + 4] == body[..4];
    assert raw[offset + 4..offset + 8] == body[4..8];
    var end := offset + 12 + ReadLength(body[..4]);
    assert Overruns(body) <==> end > |raw|;
    if end <= |raw| {
      assert AfterFirst(body) == raw[end..];
      assert FirstChunk(body).kind == raw[offset + 4..offset + 8];
    }
  }

  // The loop; the findings are appended to those before it.
  method WalkFrom(raw: Bytes, start: nat) returns (findings: seq<Finding>)
    requires start <= |raw|
    ensures findings == Walk(raw[start..])
  {
    findings := [];
    var offset := start;
    while offset + 12 <= |raw|
      invariant offset <= |raw| && findings + Walk(raw[offset..]) == Walk(raw[start..])
      decreases |raw| - offset
    {
      WalkOnePass(raw, offset);
      var length := ReadLength(raw[offset..offset + 4]);
      var kind := raw[offset + 4..offset + 8];
      var end := offset + 12 + length;
      if end > |raw| {
        findings := findings + [MalformedPng];
        return;
      }
      ghost var rest := if kind == IEND then [] else Walk(raw[end..]);
      if kind == EXIF {
        assert findings + ([ExifMetadata] + rest) == findings + [ExifMetadata] + rest;
        findings := findings + [ExifMetadata];
      } else {
        assert [] + rest == rest;
      }
      offset := end;
      if kind == IEND {
        assert findings + rest == findings;
        return;
      }
    }
  }

  method Search(raw: Bytes, part: Bytes) returns (found: bool)
    ensures found <==> Contains(raw, part)
  {
    for i := 0 to |raw| + 1
      invariant forall j: nat :: j < i ==> !OccursAt(raw, part, j)
    {
      if OccursAt(raw, part, i) {
        return true;
      }
    }
    found := false;
  }

  // ---- every file ----

  // The chunks some bytes start with, up to and including the first IEND, and what is left.
  function Parse(body: Bytes): seq<PngChunk>
    decreases |body|
  {
    if Stops(body) then []
    else
      var c := FirstChunk(body);
      [c] + if c.kind == IEND then [] else Parse(AfterFirst(body))
  }

  function Rest(body: Bytes): Bytes
    decreases |body|
  {
    if Stops(body) then body
    else if FirstChunk(body).kind == IEND then AfterFirst(body)
    else Rest(AfterFirst(body))
  }

  lemma {:induction false} ParseRebuilds(body: Bytes)
    ensures ChunksValid(Parse(body)) && EncodedAll(Parse(body)) + Rest(body) == body
    decreases |body|
  {
    if !Stops(body) {
      var c, after := FirstChunk(body), AfterFirst(body);
      FirstRebuilds(body);
      if c.kind == IEND {
        EncodedOneMore(c, [], after);
        assert [c] + [] == [c];
      } else {
        ParseRebuilds(after);
        EncodedOneMore(c, Parse(after), Rest(after));
      }
    }
  }

  lemma EncodedOneMore(c: PngChunk, chunks: seq<PngChunk>, rest: Bytes)
    requires c.Valid() && ChunksValid(chunks)
    ensures ChunksValid([c] + chunks) && EncodedAll([c] + chunks) + rest == c.Encoded() + (EncodedAll(chunks) + rest)
  {
    assert ([c] + chunks)[1..] == chunks;
  }

  // What the walk reports at the end, given the chunks it passed and what is left.
  function Ending(chunks: seq<PngChunk>, rest: Bytes): seq<Finding> {
    if !Ends(chunks) && Overruns(rest) then [MalformedPng] else []
  }

  lemma ExifOfOneMore(c: PngChunk, chunks: seq<PngChunk>, rest: Bytes)
    requires c.kind != IEND
    ensures ExifChunks([c] + chunks) + Ending([c] + chunks, rest)
         == (if c.kind == EXIF then [ExifMetadata] else []) + (ExifChunks(chunks) + Ending(chunks, rest))
  {
    assert ([c] + chunks)[1..] == chunks;
  }

  // For every file: one finding per eXIf chunk it starts with, up to the first IEND, and one malformed finding
  // at the end exactly when there was no IEND and what is left claims more than there is.
  lemma {:induction false} EveryFile(body: Bytes)
    ensures Walk(body) == ExifChunks(Parse(body)) + Ending(Parse(body), Rest(body))
    decreases |body|
  {
    if !Stops(body) {
      var c, after := FirstChunk(body), AfterFirst(body);
      if c.kind != IEND {
        EveryFile(after);
        ExifOfOneMore(c, Parse(after), Rest(after));
      } else {
        assert Parse(body) == [c] && [c][1..] == [];
      }
    }
  }

  // ---- serialised files ----

  // Parsing a serialised list gives it back, as far as its first IEND.
  lemma {:induction false} ParseOfEncoded(chunks: seq<PngChunk>, rest: Bytes)
    requires ChunksValid(chunks) && (Ends(chunks) || Stops(rest))
    ensures Parse(EncodedAll(chunks) + rest) == UpToEnd(chunks)
    ensures !Ends(chunks) ==> Rest(EncodedAll(chunks) + rest) == rest
    decreases |chunks|
  {
    if chunks == [] {
      assert EncodedAll(chunks) + rest == rest;
    } else {
      var c, tail := chunks[0], EncodedAll(chunks[1..]);
      assert EncodedAll(chunks) + rest == c.Encoded() + (tail + rest);
      FirstOfEncoded(c, tail + rest);
      if c.kind != IEND {
        ParseOfEncoded(chunks[1..], rest);
      }
    }
  }

  lemma {:induction false} EndChangesNothing(chunks: seq<PngChunk>)
    ensures ExifChunks(UpToEnd(chunks)) == ExifChunks(chunks) && (Ends(UpToEnd(chunks)) <==> Ends(chunks))
  {
    if chunks != [] {
      EndChangesNothing(chunks[1..]);
      assert UpToEnd(chunks)[1..] == if chunks[0].kind == IEND then [] else UpToEnd(chunks[1..]);
    }
  }

  // Every file of serialised chunks: no malformed file, and one finding per eXIf up to the first IEND; after an
  // IEND chunk it does not matter what follows.
  lemma SerialisedFileFindings(chunks: seq<PngChunk>, rest: Bytes)
    requires ChunksValid(chunks) && (Ends(chunks) || |rest| < 12)
    ensures Findings(SIGNATURE + (EncodedAll(chunks) + rest)) == ExifChunks(chunks)
  {
    FindingsOfPng(EncodedAll(chunks) + rest);
    ParseOfEncoded(chunks, rest);
    EveryFile(EncodedAll(chunks) + rest);
    EndChangesNothing(chunks);
  }

  // A chunk that overruns the buffer is exactly one malformed finding, after those of the chunks before it.
  lemma OverrunIsMalformedOnce(chunks: seq<PngChunk>, rest: Bytes)
    requires ChunksValid(chunks) && !Ends(chunks) && Overruns(rest)
    ensures Findings(SIGNATURE + (EncodedAll(chunks) + rest)) == ExifChunks(chunks) + [MalformedPng]
  {
    FindingsOfPng(EncodedAll(chunks) + rest);
    ParseOfEncoded(chunks, rest);
    EveryFile(EncodedAll(chunks) + rest);
    EndChangesNothing(chunks);
  }

  lemma FindingsOfPng(body: Bytes)
    ensures Findings(SIGNATURE + body) == Walk(body)
  {
    var raw := SIGNATURE + body;
    assert raw[0] == 0x89 && raw[8..] == body && raw[..8] == SIGNATURE;
  }

  // A file that starts like a JPEG gives one finding iff the marker occurs in it anywhere, whatever else it holds.
  lemma JpegFile(raw: Bytes)
    requires |raw| >= 2 && raw[0] == 0xFF && raw[1] == 0xD8
    ensures Findings(raw) == [ExifMetadata] || Findings(raw) == []
    ensures Findings(raw) == [ExifMetadata] <==>
      exists before, after :: raw == before + [0x45, 0x78, 0x69, 0x66, 0x00, 0x00] + after
  {
    if Contains(raw, JPEG_EXIF) {
      var i: nat :| i <= |raw| && OccursAt(raw, JPEG_EXIF, i);
      assert raw == raw[..i] + JPEG_EXIF + raw[i + 6..];
    }
    if before, after :| raw == before + [0x45, 0x78, 0x69, 0x66, 0x00, 0x00] + after {
      assert OccursAt(raw, JPEG_EXIF, |before|);
    }
  }

  // A file that starts like neither of the two gives none.
  lemma OtherFile(raw: Bytes)
    requires !([0xFF, 0xD8] <= raw) && !([0x89, 0x50, 0x4E, 0x47, 0x0D, 0x0A, 0x1A, 0x0A] <= raw)
    ensures Findings(raw) == []
  {
  }

  // Two eXIf chunks, with the IEND chunk between them: the second one is not looked at.
  lemma ExifBeforeAndAfterTheEnd(crc: Bytes)
    requires |crc| == 4
    ensures var exif, end := [0, 0, 0, 0, 0x65, 0x58, 0x49, 0x66] + crc, [0, 0, 0, 0, 0x49, 0x45, 0x4E, 0x44] + crc;
      Findings([0x89, 0x50, 0x4E, 0x47, 0x0D, 0x0A, 0x1A, 0x0A] + (exif + end + exif)) == [ExifMetadata]
  {
    var exif, end := PngChunk(EXIF, [], crc), PngChunk(IEND, [], crc);
    var rest := [0, 0, 0, 0, 0x65, 0x58, 0x49, 0x66] + crc;
    var chunks := [exif, end];
    assert chunks[1..] == [end] && [end][1..] == [];
    assert exif.Encoded() == rest && end.Encoded() == [0, 0, 0, 0, 0x49, 0x45, 0x4E, 0x44] + crc;
    assert EncodedAll([end]) == end.Encoded() + EncodedAll([]) && EncodedAll([]) == [];
    assert EncodedAll(chunks) == exif.Encoded() + EncodedAll([end]);
    assert EncodedAll(chunks) + rest == rest + ([0, 0, 0, 0, 0x49, 0x45, 0x4E, 0x44] + crc) + rest;
    SerialisedFileFindings(chunks, rest);
  }
}

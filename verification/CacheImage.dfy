// The bytes the cache writer lays out for a record list, and why they are
// accepted and decode to that list.
module CacheImage {
  import opened Prelude
  import opened Bytes
  import opened MergeFile
  import Crc32
  import Sha256Spec

  function ZeroPage(): Page { seq(PAGE, _ => 0) }

  // Fields that survive their byte widths.
  ghost predicate Fits(r: Record) {
    0 <= r.key < U64 && 0 <= r.rank < 0x8000_0000 && 0 <= r.merged < 0x8000_0000
  }

  ghost predicate Encodable(records: seq<Record>) {
    forall k | 0 <= k < |records| :: Fits(records[k])
  }

  // ---- One page ----

  function RecordBytes(r: Record): (bytes: seq<byte>)
    requires Fits(r)
    ensures |bytes| == RECORD
  {
    Le(r.key, 8) + Le(r.rank, 4) + Le(r.merged, 4)
  }

  function BodyBytes(records: seq<Record>): (bytes: seq<byte>)
    requires Encodable(records)
    ensures |bytes| == RECORD * |records|
  {
    if records == [] then []
    else BodyBytes(records[..|records| - 1]) + RecordBytes(Last(records))
  }

  function HeadBytes(records: seq<Record>, crc: nat): (bytes: seq<byte>)
    requires records != []
    ensures |bytes| == PAGE_HEADER
  {
    Le(|records|, 4) + Le(crc, 4) + Le(records[0].key, 8)
  }

  ghost predicate FitsPage(records: seq<Record>) {
    1 <= |records| <= PER_PAGE && Encodable(records)
  }

  ghost function PageImage(records: seq<Record>): Page
    requires FitsPage(records)
  {
    var body := BodyBytes(records);
    HeadBytes(records, Crc32.Crc(body)) + body + seq(PAGE - PAGE_HEADER - |body|, _ => 0)
  }

  lemma {:induction false} BodyAt(records: seq<Record>, j: nat)
    requires Encodable(records) && j < |records|
    ensures BodyBytes(records)[RECORD * j..RECORD * (j + 1)] == RecordBytes(records[j])
  {
    if j < |records| - 1 {
      BodyAt(records[..|records| - 1], j);
    }
  }

  lemma RecordParts(r: Record)
    requires Fits(r)
    ensures RecordBytes(r)[0..8] == Le(r.key, 8) && RecordBytes(r)[8..12] == Le(r.rank, 4)
    ensures RecordBytes(r)[12..16] == Le(r.merged, 4)
  {
    hide Le;
  }

  lemma RecordDecodes(page: Page, j: nat, r: Record)
    requires j < PER_PAGE && Fits(r)
    requires page[PAGE_HEADER + j * RECORD..PAGE_HEADER + (j + 1) * RECORD] == RecordBytes(r)
    ensures RecordAt(page, j) == r
  {
    hide Le;
    var at := PAGE_HEADER + j * RECORD;
    SliceOfSlice(page, at, at + RECORD, 0, 8);
    SliceOfSlice(page, at, at + RECORD, 8, 12);
    SliceOfSlice(page, at, at + RECORD, 12, 16);
    RecordParts(r);
    Widths();
    UnleLe(r.key, 8);
    UnleLe(r.rank, 4);
    UnleLe(r.merged, 4);
  }

  lemma HeadDecodes(page: Page, count: nat, crc: nat, key: nat)
    requires count < U32 && crc < U32 && key < U64
    requires page[..PAGE_HEADER] == Le(count, 4) + Le(crc, 4) + Le(key, 8)
    ensures Count(page) == count && LeAt(page, 4, 4) == crc && FirstKey(page) == key
  {
    hide Le;
    var head := Le(count, 4) + Le(crc, 4) + Le(key, 8);
    assert head[0..4] == Le(count, 4) && head[4..8] == Le(crc, 4) && head[8..16] == Le(key, 8);
    assert page[..PAGE_HEADER] == page[0..PAGE_HEADER];
    SliceOfSlice(page, 0, PAGE_HEADER, 0, 4);
    SliceOfSlice(page, 0, PAGE_HEADER, 4, 8);
    SliceOfSlice(page, 0, PAGE_HEADER, 8, 16);
    Widths();
    UnleLe(count, 4);
    UnleLe(crc, 4);
    UnleLe(key, 8);
  }

  lemma PageHeadDecodes(records: seq<Record>)
    requires FitsPage(records)
    ensures var page := PageImage(records);
      && Count(page) == |records| && FirstKey(page) == records[0].key
      && Body(page) == BodyBytes(records)
      && LeAt(page, 4, 4) == Crc32.Crc(Body(page))
  {
    hide Crc32.Crc, BodyBytes, PageImage, LeAt, Le;
    PageImageParts(records);
    HeadDecodes(PageImage(records), |records|, Crc32.Crc(BodyBytes(records)), records[0].key);
  }

  lemma PageImageParts(records: seq<Record>)
    requires FitsPage(records)
    ensures var (page, body) := (PageImage(records), BodyBytes(records));
      && page[..PAGE_HEADER] == HeadBytes(records, Crc32.Crc(body))
      && page[PAGE_HEADER..PAGE_HEADER + |body|] == body
  {
    hide Crc32.Crc, BodyBytes, HeadBytes;
  }

  lemma PageDecodes(records: seq<Record>)
    requires FitsPage(records)
    ensures Loadable(PageImage(records)) && PageRecords(PageImage(records)) == records
    ensures FirstKey(PageImage(records)) == records[0].key
    ensures LeAt(PageImage(records), 4, 4) == Crc32.Crc(Body(PageImage(records)))
  {
    hide Crc32.Crc, BodyBytes, PageImage, RecordAt, RecordBytes;
    var page := PageImage(records);
    PageHeadDecodes(records);
    PageImageParts(records);
    forall j: nat | j < |records|
      ensures RecordAt(page, j) == records[j]
    {
      BodyAt(records, j);
      var body := page[PAGE_HEADER..PAGE_HEADER + RECORD * |records|];
      SliceOfSlice(page, PAGE_HEADER, PAGE_HEADER + RECORD * |records|, RECORD * j, RECORD * (j + 1));
      RecordDecodes(page, j, records[j]);
    }
  }

  // ---- The header ----

  function FormatBytes(): (bytes: seq<byte>)
    ensures |bytes| == 32
  {
    MAGIC + Le(1, 4) + Le(0x0102_0304, 4) + Le(PAGE, 4) + Le(RECORD, 4) + Le(PER_PAGE, 4) + [0, 0, 0, 0]
  }

  function CountBytes(recordCount: nat, pageCount: nat, dataOffset: nat): (bytes: seq<byte>)
    ensures |bytes| == 40
  {
    Le(recordCount, 8) + Le(pageCount, 8) + Le(PAGE, 8) + Le(pageCount * 16, 8) + Le(dataOffset, 8)
  }

  ghost predicate IsHeader(header: seq<byte>, recordCount: nat, pageCount: nat, dataOffset: nat,
                           digest: seq<byte>, payloadDigest: seq<byte>) {
    && |header| == PAGE && |digest| == 32 && |payloadDigest| == 32
    && header[..136] == FormatBytes() + CountBytes(recordCount, pageCount, dataOffset) + digest + payloadDigest
  }

  // The number stored little-endian in a slice of the file.
  lemma StoredAt(file: seq<byte>, at: nat, n: nat, value: nat)
    requires at + n <= |file| && value < Pow256(n)
    requires file[at..at + n] == Le(value, n)
    ensures LeAt(file, at, n) == value
  {
    UnleLe(value, n);
  }

  lemma FormatParts(f: seq<byte>)
    requires f == FormatBytes()
    ensures f[..8] == MAGIC && f[8..12] == Le(1, 4) && f[12..16] == Le(0x0102_0304, 4)
    ensures f[16..20] == Le(PAGE, 4) && f[20..24] == Le(RECORD, 4) && f[24..28] == Le(PER_PAGE, 4)
  {
    hide Le;
    assert f[..8] == MAGIC;
    assert f[8..12] == Le(1, 4);
    assert f[12..16] == Le(0x0102_0304, 4);
    assert f[16..20] == Le(PAGE, 4);
    assert f[20..24] == Le(RECORD, 4);
    assert f[24..28] == Le(PER_PAGE, 4);
  }

  lemma CountParts(f: seq<byte>, recordCount: nat, pageCount: nat, dataOffset: nat)
    requires f == CountBytes(recordCount, pageCount, dataOffset)
    ensures f[0..8] == Le(recordCount, 8) && f[8..16] == Le(pageCount, 8) && f[16..24] == Le(PAGE, 8)
    ensures f[24..32] == Le(pageCount * 16, 8) && f[32..40] == Le(dataOffset, 8)
  {
    hide Le;
    assert f[8..16] == Le(pageCount, 8);
    assert f[16..24] == Le(PAGE, 8);
    assert f[24..32] == Le(pageCount * 16, 8);
    LastField(Le(recordCount, 8) + Le(pageCount, 8) + Le(PAGE, 8) + Le(pageCount * 16, 8), Le(dataOffset, 8));
  }

  lemma LastField(before: seq<byte>, field: seq<byte>)
    ensures (before + field)[|before|..|before| + |field|] == field
  {
  }

  lemma FormatDecodes(file: seq<byte>)
    requires |file| >= 32 && file[..32] == FormatBytes()
    ensures file[..8] == MAGIC && LeAt(file, 8, 4) == 1 && LeAt(file, 12, 4) == 0x0102_0304
    ensures LeAt(file, 16, 4) == PAGE && LeAt(file, 20, 4) == RECORD && LeAt(file, 24, 4) == PER_PAGE
  {
    hide Le, LeAt, FormatBytes;
    Widths();
    FormatParts(file[..32]);
    assert file[..32] == file[0..32];
    SliceOfSlice(file, 0, 32, 0, 8);
    SliceOfSlice(file, 0, 32, 8, 12);
    SliceOfSlice(file, 0, 32, 12, 16);
    SliceOfSlice(file, 0, 32, 16, 20);
    SliceOfSlice(file, 0, 32, 20, 24);
    SliceOfSlice(file, 0, 32, 24, 28);
    assert file[0..32][0..8] == file[..32][..8];
    StoredAt(file, 8, 4, 1);
    StoredAt(file, 12, 4, 0x0102_0304);
    StoredAt(file, 16, 4, PAGE);
    StoredAt(file, 20, 4, RECORD);
    StoredAt(file, 24, 4, PER_PAGE);
  }

  lemma CountsDecode(file: seq<byte>, recordCount: nat, pageCount: nat, dataOffset: nat)
    requires |file| >= PAGE && recordCount < U64 && pageCount * 16 < U64 && dataOffset < U64
    requires file[32..72] == CountBytes(recordCount, pageCount, dataOffset)
    ensures RecordCount(file) == recordCount && PageCount(file) == pageCount && DataOffset(file) == dataOffset
    ensures LeAt(file, 48, 8) == PAGE && LeAt(file, 56, 8) == pageCount * 16
  {
    hide Le, LeAt, CountBytes;
    Widths();
    CountParts(file[32..72], recordCount, pageCount, dataOffset);
    SliceOfSlice(file, 32, 72, 0, 8);
    SliceOfSlice(file, 32, 72, 8, 16);
    SliceOfSlice(file, 32, 72, 16, 24);
    SliceOfSlice(file, 32, 72, 24, 32);
    SliceOfSlice(file, 32, 72, 32, 40);
    StoredAt(file, 32, 8, recordCount);
    StoredAt(file, 40, 8, pageCount);
    StoredAt(file, 48, 8, PAGE);
    StoredAt(file, 56, 8, pageCount * 16);
    StoredAt(file, 64, 8, dataOffset);
  }

  // ---- The file ----

  function Pages(recordCount: nat): nat { (recordCount + PER_PAGE - 1) / PER_PAGE }

  // Where the first page starts.
  function DataStart(recordCount: nat): (at: nat)
    requires recordCount <= INT_MAX
    ensures AlignPage(PAGE + Pages(recordCount) * 16) == Some(at)
    ensures at % PAGE == 0 && PAGE + Pages(recordCount) * 16 <= at
    ensures at + Pages(recordCount) * PAGE < U64
  {
    AlignPage(PAGE + Pages(recordCount) * 16).value
  }

  ghost function Chunk(records: seq<Record>, i: nat): seq<Record>
    requires i < Pages(|records|)
  {
    records[i * PER_PAGE..Min((i + 1) * PER_PAGE, |records|)]
  }

  lemma ChunkFits(records: seq<Record>, i: nat)
    requires Encodable(records) && i < Pages(|records|)
    ensures FitsPage(Chunk(records, i))
  {
  }

  ghost predicate Writable(records: seq<Record>) {
    && 0 < |records| <= INT_MAX
    && Encodable(records)
    && forall i: nat | i < Pages(|records|) :: FitsPage(Chunk(records, i))
  }

  ghost function Fenced(records: seq<Record>, i: nat): (bytes: seq<byte>)
    requires Writable(records) && i < Pages(|records|)
    ensures |bytes| == 16
  {
    assert FitsPage(Chunk(records, i));
    Le(Chunk(records, i)[0].key, 8) + Le(DataStart(|records|) + i * PAGE, 8)
  }

  ghost predicate Sized(payload: seq<byte>, records: seq<Record>)
    requires Writable(records)
  {
    |payload| == DataStart(|records|) - PAGE + Pages(|records|) * PAGE
  }

  ghost predicate FenceDone(payload: seq<byte>, records: seq<Record>, i: nat)
    requires Writable(records) && i < Pages(|records|) && Sized(payload, records)
  {
    payload[i * 16..(i + 1) * 16] == Fenced(records, i)
  }

  ghost predicate PageIs(payload: seq<byte>, records: seq<Record>, i: nat, page: Page)
    requires Writable(records) && i < Pages(|records|) && Sized(payload, records)
  {
    payload[DataStart(|records|) - PAGE + i * PAGE..DataStart(|records|) - PAGE + (i + 1) * PAGE] == page
  }

  ghost function FilledPage(records: seq<Record>, i: nat): Page
    requires Writable(records) && i < Pages(|records|)
  {
    assert FitsPage(Chunk(records, i));
    PageImage(Chunk(records, i))
  }

  ghost predicate IsPayload(payload: seq<byte>, records: seq<Record>)
    requires Writable(records)
  {
    && Sized(payload, records)
    && (forall i: nat | i < Pages(|records|) :: FenceDone(payload, records, i))
    && (forall i: nat | i < Pages(|records|) :: PageIs(payload, records, i, FilledPage(records, i)))
  }

  ghost predicate IsImage(file: seq<byte>, records: seq<Record>, digest: seq<byte>)
    requires Writable(records)
  {
    && |file| >= PAGE
    && IsHeader(file[..PAGE], |records|, Pages(|records|), DataStart(|records|), digest, Sha256Spec.Hash(file[PAGE..]))
    && IsPayload(file[PAGE..], records)
  }

  lemma ImageHeader(file: seq<byte>, records: seq<Record>, digest: seq<byte>)
    requires Writable(records) && IsImage(file, records, digest)
    ensures HeaderOk(file, digest) && Shaped(file) && PayloadOk(file)
    ensures RecordCount(file) == |records| && PageCount(file) == Pages(|records|)
    ensures DataOffset(file) == DataStart(|records|)
  {
    hide FormatBytes, CountBytes, Sha256Spec.Hash, LeAt, Encodable;
    var header := file[..PAGE];
    var a, b := FormatBytes(), CountBytes(|records|, Pages(|records|), DataStart(|records|));
    var hash := Sha256Spec.Hash(file[PAGE..]);
    var all := a + b + digest + hash;
    assert header[..136] == all;
    forall lo: nat, hi: nat | lo <= hi <= 136
      ensures file[lo..hi] == all[lo..hi]
    {
      assert header[..136] == file[0..136];
      SliceOfSlice(file, 0, 136, lo, hi);
    }
    assert all[0..32] == a && all[32..72] == b && all[72..104] == digest && all[104..136] == hash;
    FormatDecodes(file);
    CountsDecode(file, |records|, Pages(|records|), DataStart(|records|));
  }

  lemma ImagePage(file: seq<byte>, records: seq<Record>, digest: seq<byte>, i: nat)
    requires Writable(records) && IsImage(file, records, digest)
    requires Shaped(file) && PageCount(file) == Pages(|records|) && DataOffset(file) == DataStart(|records|)
    requires i < PageCount(file)
    ensures PageAt(file, i) == PageImage(Chunk(records, i))
    ensures FenceAt(file, i) == Fence(Chunk(records, i)[0].key, DataOffset(file) + i * PAGE)
  {
    hide PageImage, LeAt, Le, IsHeader, DataStart, Encodable, Sha256Spec.Hash;
    var data := DataOffset(file);
    var chunk := Chunk(records, i);
    assert FitsPage(chunk);
    assert FenceDone(file[PAGE..], records, i) && PageIs(file[PAGE..], records, i, FilledPage(records, i));
    assert file[PAGE..] == file[PAGE..|file|];
    SliceOfSlice(file, PAGE, |file|, data - PAGE + i * PAGE, data - PAGE + (i + 1) * PAGE);
    SliceOfSlice(file, PAGE, |file|, i * 16, (i + 1) * 16);
    assert Fits(chunk[0]) by { ChunkFirst(records, i); }
    StoredPair(file, PAGE + i * 16, chunk[0].key, data + i * PAGE);
  }

  // Two integers stored one after the other.
  lemma StoredPair(file: seq<byte>, at: nat, a: nat, b: nat)
    requires at + 16 <= |file| && a < U64 && b < U64 && file[at..at + 16] == Le(a, 8) + Le(b, 8)
    ensures LeAt(file, at, 8) == a && LeAt(file, at + 8, 8) == b
  {
    hide LeAt, Le;
    var pair := file[at..at + 16];
    SliceOfSlice(file, at, at + 16, 0, 8);
    SliceOfSlice(file, at, at + 16, 8, 16);
    assert pair[0..8] == Le(a, 8) && pair[8..16] == Le(b, 8);
    Widths();
    StoredAt(file, at, 8, a);
    StoredAt(file, at + 8, 8, b);
  }

  lemma ChunkFirst(records: seq<Record>, i: nat)
    requires Encodable(records) && i < Pages(|records|)
    ensures Chunk(records, i) != [] && Fits(Chunk(records, i)[0])
  {
  }

  // A laid-out file whose header has been decoded.
  ghost predicate LaidOut(file: seq<byte>, records: seq<Record>, digest: seq<byte>) {
    && Writable(records) && IsImage(file, records, digest) && Shaped(file)
    && PageCount(file) == Pages(|records|) && DataOffset(file) == DataStart(|records|)
  }

  ghost predicate HoldsChunk(file: seq<byte>, records: seq<Record>, i: nat)
    requires Shaped(file) && i < PageCount(file) && PageCount(file) == Pages(|records|)
  {
    && PageOk(file, i)
    && Loadable(PageAt(file, i))
    && PageRecords(PageAt(file, i)) == Chunk(records, i)
  }

  lemma ImagePageOk(file: seq<byte>, records: seq<Record>, digest: seq<byte>, i: nat)
    requires LaidOut(file, records, digest) && i < PageCount(file)
    ensures HoldsChunk(file, records, i)
  {
    hide PageImage, LeAt, IsImage, RecordAt, Crc32.Crc, Encodable;
    ImagePage(file, records, digest, i);
    PageDecodes(Chunk(records, i));
    var page := PageAt(file, i);
    assert RecordAt(page, 0) == PageRecords(page)[0];
  }

  lemma {:induction false} ImageRecords(file: seq<byte>, records: seq<Record>, n: nat)
    requires Shaped(file) && PageCount(file) == Pages(|records|) && n <= PageCount(file)
    requires forall i: nat | i < PageCount(file) :: Loadable(PageAt(file, i))
    requires forall i: nat | i < PageCount(file) :: HoldsChunk(file, records, i)
    ensures Records(file, n) == records[..Min(n * PER_PAGE, |records|)]
  {
    hide PageOk, Shaped;
    if n > 0 {
      ImageRecords(file, records, n - 1);
      assert HoldsChunk(file, records, n - 1);
      ChunkAppends(records, n - 1);
    }
  }

  lemma ChunkAppends(records: seq<Record>, i: nat)
    requires i < Pages(|records|)
    ensures records[..Min(i * PER_PAGE, |records|)] + Chunk(records, i) == records[..Min((i + 1) * PER_PAGE, |records|)]
  {
  }

  // A laid-out file is accepted, and holds exactly the records it was laid out for.
  lemma ImageAccepted(file: seq<byte>, records: seq<Record>, digest: seq<byte>, vocabSize: int)
    requires Writable(records) && IsImage(file, records, digest)
    requires StrictlySorted(records) && InVocabulary(records, vocabSize)
    ensures Accepted(file, digest, vocabSize) && AllRecords(file) == records
  {
    hide IsImage, PageOk, HeaderOk, PayloadOk, Writable, DataStart;
    ImageHeader(file, records, digest);
    forall i: nat | i < PageCount(file)
      ensures HoldsChunk(file, records, i) && Loadable(PageAt(file, i)) && PageOk(file, i)
    {
      ImagePageOk(file, records, digest, i);
    }
    ImageRecords(file, records, PageCount(file));
    assert records[..|records|] == records;
  }
}

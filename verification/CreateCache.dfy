// Writing the cache file, byte by byte, and the round trip through opening and
// looking up.
module CreateCache {
  import opened Prelude
  import opened Bytes
  import opened MergeFile
  import opened MergeRecords
  import opened CacheImage
  import opened DiskMergeIndex
  import Crc32
  import Sha256
  import Sha256Spec

  datatype CreateError = NoUsableRules

  // ---- Records ----

  ghost predicate FromMerges(records: seq<Record>, tokens: seq<Piece>, merges: seq<Piece>) {
    records == Unique(Sort(RawRecords(tokens, merges)))
  }

  lemma {:induction false} RawFits(tokens: seq<Piece>, merges: seq<Piece>)
    requires |tokens| <= INT_MAX && |merges| <= INT_MAX
    ensures forall r | r in RawRecords(tokens, merges) :: Fits(r) && r.merged < |tokens|
  {
    hide Resolve;
    if merges != [] {
      RawFits(tokens, merges[..|merges| - 1]);
      var r := Resolve(tokens, Last(merges));
      if r.Some? {
        assert r.value.merged < |tokens| && r.value.left < |tokens| && r.value.right < |tokens| by {
          ResolveInTokens(tokens, Last(merges));
        }
        assert Fits(RecordOf(r.value, |merges| - 1));
      }
    }
  }

  lemma ResolveInTokens(tokens: seq<Piece>, line: Piece)
    ensures var r := Resolve(tokens, line);
      r.Some? ==> r.value.merged < |tokens| && r.value.left < |tokens| && r.value.right < |tokens|
  {
  }

  lemma MergesWritable(tokens: seq<Piece>, merges: seq<Piece>)
    requires |tokens| <= INT_MAX && |merges| <= INT_MAX
    requires RawRecords(tokens, merges) != []
    ensures var records := Unique(Sort(RawRecords(tokens, merges)));
      Writable(records) && StrictlySorted(records) && InVocabulary(records, |tokens|)
  {
    hide Unique, Sort;
    var raw := RawRecords(tokens, merges);
    var records := Unique(Sort(raw));
    RawFits(tokens, merges);
    RawAscends(tokens, merges);
    SortKeeps(raw);
    UniqueSorts(Sort(raw));
    forall k | 0 <= k < |records|
      ensures Fits(records[k]) && 0 <= records[k].merged < |tokens|
    {
      assert records[k] in Sort(raw);
    }
    forall i: nat | i < Pages(|records|)
      ensures FitsPage(Chunk(records, i))
    {
      ChunkFits(records, i);
    }
  }

  // ---- In-place writing ----

  method WriteRecord(payload: array<byte>, at: nat, r: Record)
    requires Fits(r) && at + RECORD <= payload.Length
    modifies payload
    ensures payload[..] == Splice(old(payload[..]), at, RecordBytes(r))
  {
    ghost var was := payload[..];
    WriteLe(payload, at, r.key, 8);
    WriteLe(payload, at + 8, r.rank, 4);
    WriteLe(payload, at + 12, r.merged, 4);
    SpliceNext(was, at, Le(r.key, 8), Le(r.rank, 4));
    SpliceNext(was, at, Le(r.key, 8) + Le(r.rank, 4), Le(r.merged, 4));
  }

  // The header is written with a zero CRC, then the records, then the CRC over them.
  method WritePage(payload: array<byte>, at: nat, records: seq<Record>)
    requires FitsPage(records) && at + PAGE <= payload.Length
    requires payload[at..at + PAGE] == ZeroPage()
    modifies payload
    ensures payload[at..at + PAGE] == PageImage(records)
    ensures payload[..] == Splice(old(payload[..]), at, PageImage(records))
  {
    hide Splice, Le, Crc32.Crc, BodyBytes, RecordBytes, PageImage;
    ghost var was := payload[..];
    ghost var count, key := Le(|records|, 4), Le(records[0].key, 8);
    WriteLe(payload, at, |records|, 4);
    WriteLe(payload, at + 4, 0, 4);
    WriteLe(payload, at + 8, records[0].key, 8);
    SpliceNext(was, at, count, Le(0, 4));
    SpliceNext(was, at, count + Le(0, 4), key);
    ghost var head := count + Le(0, 4) + key;
    WriteBody(payload, at + PAGE_HEADER, records);
    ghost var body := BodyBytes(records);
    SpliceNext(was, at, head, body);
    SpliceReads(was, at, head, body);
    var crc := Crc32.Crc(payload[at + PAGE_HEADER..at + PAGE_HEADER + |records| * RECORD]);
    WriteLe(payload, at + 4, crc, 4);
    assert head + body == count + Le(0, 4) + (key + body);
    SpliceOver(was, at, count, Le(0, 4), Le(crc, 4), key + body);
    assert count + Le(crc, 4) + (key + body) == HeadBytes(records, crc) + body;
    ZeroTail(was, at, records);
  }

  method WriteBody(payload: array<byte>, at: nat, records: seq<Record>)
    requires Encodable(records) && at + RECORD * |records| <= payload.Length
    modifies payload
    ensures payload[..] == Splice(old(payload[..]), at, BodyBytes(records))
  {
    hide RecordBytes;
    ghost var was := payload[..];
    for j := 0 to |records|
      invariant payload[..] == Splice(was, at, BodyBytes(records[..j]))
    {
      assert records[..j + 1][..j] == records[..j];
      SpliceNext(was, at, BodyBytes(records[..j]), RecordBytes(records[j]));
      WriteRecord(payload, at + j * RECORD, records[j]);
    }
    assert records[..|records|] == records;
  }

  lemma SpliceReads(s: seq<byte>, at: nat, a: seq<byte>, b: seq<byte>)
    requires at + |a| + |b| <= |s|
    ensures Splice(s, at, a + b)[at + |a|..at + |a| + |b|] == b
  {
  }

  lemma ZeroTail(s: seq<byte>, at: nat, records: seq<Record>)
    requires FitsPage(records) && at + PAGE <= |s| && s[at..at + PAGE] == ZeroPage()
    ensures var (page, body) := (PageImage(records), BodyBytes(records));
      && Splice(s, at, HeadBytes(records, Crc32.Crc(body)) + body) == Splice(s, at, page)
      && Splice(s, at, page)[at..at + PAGE] == page
  {
    hide HeadBytes, BodyBytes, Crc32.Crc;
    var body := BodyBytes(records);
    var used := HeadBytes(records, Crc32.Crc(body)) + body;
    var rest := seq(PAGE - |used|, _ => 0);
    assert PageImage(records) == used + rest;
    assert s[at + |used|..at + PAGE] == rest by {
      SliceOfSlice(s, at, at + PAGE, |used|, PAGE);
    }
    assert s[at + |used|..] == rest + s[at + PAGE..];
  }

  // Fences and pages below `n` are in place, pages from `n` on are still zero.
  ghost predicate WrittenUpTo(payload: seq<byte>, records: seq<Record>, n: nat)
    requires Writable(records) && n <= Pages(|records|)
  {
    && Sized(payload, records)
    && (forall i: nat | i < n :: FenceDone(payload, records, i))
    && (forall i: nat | i < n :: PageIs(payload, records, i, FilledPage(records, i)))
    && (forall i: nat | n <= i < Pages(|records|) :: PageIs(payload, records, i, ZeroPage()))
  }

  ghost function WriteNext(before: seq<byte>, records: seq<Record>, n: nat): (after: seq<byte>)
    requires Writable(records) && n < Pages(|records|) && Sized(before, records)
    ensures Sized(after, records)
  {
    Splice(Splice(before, n * 16, Fenced(records, n)),
           DataStart(|records|) - PAGE + n * PAGE, FilledPage(records, n))
  }

  lemma FenceAfter(before: seq<byte>, records: seq<Record>, n: nat, i: nat)
    requires Writable(records) && i <= n < Pages(|records|) && Sized(before, records)
    requires i < n ==> FenceDone(before, records, i)
    ensures FenceDone(WriteNext(before, records, n), records, i)
  {
    hide Splice, Fenced, FilledPage, DataStart, FitsPage, Encodable;
    var base := DataStart(|records|) - PAGE;
    var fenced := Splice(before, n * 16, Fenced(records, n));
    SpliceOutside(fenced, base + n * PAGE, FilledPage(records, n), i * 16, (i + 1) * 16);
    if i < n {
      SpliceOutside(before, n * 16, Fenced(records, n), i * 16, (i + 1) * 16);
    } else {
      SpliceInside(before, n * 16, Fenced(records, n));
    }
  }

  lemma PageAfter(before: seq<byte>, records: seq<Record>, n: nat, i: nat, page: Page)
    requires Writable(records) && n < Pages(|records|) && i < Pages(|records|) && Sized(before, records)
    requires i != n ==> PageIs(before, records, i, page)
    ensures PageIs(WriteNext(before, records, n), records, i, if i == n then FilledPage(records, n) else page)
  {
    hide Splice, Fenced, FilledPage, DataStart, FitsPage, Encodable, ZeroPage;
    var base := DataStart(|records|) - PAGE;
    var fenced := Splice(before, n * 16, Fenced(records, n));
    SpliceOutside(before, n * 16, Fenced(records, n), base + i * PAGE, base + (i + 1) * PAGE);
    if i != n {
      SpliceOutside(fenced, base + n * PAGE, FilledPage(records, n), base + i * PAGE, base + (i + 1) * PAGE);
    } else {
      SpliceInside(fenced, base + n * PAGE, FilledPage(records, n));
    }
  }

  lemma WrittenNext(before: seq<byte>, records: seq<Record>, n: nat)
    requires Writable(records) && n < Pages(|records|) && WrittenUpTo(before, records, n)
    ensures WrittenUpTo(WriteNext(before, records, n), records, n + 1)
  {
    hide FenceDone, PageIs, FilledPage, WriteNext, Writable, ZeroPage, Pages, Sized;
    var after := WriteNext(before, records, n);
    forall i: nat | i < n + 1
      ensures FenceDone(after, records, i) && PageIs(after, records, i, FilledPage(records, i))
    {
      FenceAfter(before, records, n, i);
      PageAfter(before, records, n, i, FilledPage(records, i));
    }
    forall i: nat | n + 1 <= i < Pages(|records|)
      ensures PageIs(after, records, i, ZeroPage())
    {
      PageAfter(before, records, n, i, ZeroPage());
    }
  }

  lemma SpliceInside(s: seq<byte>, at: nat, bytes: seq<byte>)
    requires at + |bytes| <= |s|
    ensures Splice(s, at, bytes)[at..at + |bytes|] == bytes
  {
  }

  method WriteChunk(payload: array<byte>, records: seq<Record>, i: nat)
    requires Writable(records) && i < Pages(|records|) && Sized(payload[..], records)
    requires PageIs(payload[..], records, i, ZeroPage())
    modifies payload
    ensures payload[..] == WriteNext(old(payload[..]), records, i)
  {
    hide PageImage, DataStart, Encodable, ZeroPage, Splice, Fenced;
    ghost var before := payload[..];
    var at := DataStart(|records|) - PAGE + i * PAGE;
    SpliceOutside(before, i * 16, Fenced(records, i), at, at + PAGE);
    WriteFence(payload, records, i);
    var chunk := records[i * PER_PAGE..Min((i + 1) * PER_PAGE, |records|)];
    assert chunk == Chunk(records, i);
    assert payload[at..at + PAGE] == payload[..][at..at + PAGE];
    WritePage(payload, at, chunk);
  }

  method WriteFence(payload: array<byte>, records: seq<Record>, i: nat)
    requires Writable(records) && i < Pages(|records|) && Sized(payload[..], records)
    modifies payload
    ensures payload[..] == Splice(old(payload[..]), i * 16, Fenced(records, i))
  {
    hide Splice, Le, DataStart, Encodable;
    ghost var before := payload[..];
    ChunkWritable(records, i);
    var key, offset := records[i * PER_PAGE].key, DataStart(|records|) + i * PAGE;
    WriteLe(payload, i * 16, key, 8);
    WriteLe(payload, i * 16 + 8, offset, 8);
    SpliceNext(before, i * 16, Le(key, 8), Le(offset, 8));
  }

  method WritePayload(records: seq<Record>) returns (payload: array<byte>)
    requires Writable(records)
    ensures fresh(payload) && IsPayload(payload[..], records)
  {
    hide DataStart, Encodable, FilledPage, FenceDone, WriteNext;
    var pageCount := Pages(|records|);
    var dataOffset := DataStart(|records|);
    payload := new byte[dataOffset + pageCount * PAGE - PAGE](_ => 0);
    for i := 0 to pageCount
      invariant WrittenUpTo(payload[..], records, i)
    {
      WrittenNext(payload[..], records, i);
      WriteChunk(payload, records, i);
    }
  }

  lemma ChunkWritable(records: seq<Record>, i: nat)
    requires Writable(records) && i < Pages(|records|)
    ensures FitsPage(Chunk(records, i))
  {
  }

  // ---- The header and the whole file ----

  method WriteHeader(recordCount: nat, pageCount: nat, dataOffset: nat, digest: seq<byte>, payloadDigest: seq<byte>)
    returns (header: array<byte>)
    requires |digest| == 32 && |payloadDigest| == 32
    ensures fresh(header) && header.Length == PAGE
    ensures IsHeader(header[..], recordCount, pageCount, dataOffset, digest, payloadDigest)
  {
    hide Splice, Le;
    header := new byte[PAGE](_ => 0);
    ghost var z := header[..];
    WriteBytes(header, 0, MAGIC);
    WriteLe(header, 8, 1, 4);
    WriteLe(header, 12, 0x0102_0304, 4);
    WriteLe(header, 16, PAGE, 4);
    WriteLe(header, 20, RECORD, 4);
    WriteLe(header, 24, PER_PAGE, 4);
    FormatWritten(z);
    WriteLe(header, 32, recordCount, 8);
    WriteLe(header, 40, pageCount, 8);
    WriteLe(header, 48, PAGE, 8);
    WriteLe(header, 56, pageCount * 16, 8);
    WriteLe(header, 64, dataOffset, 8);
    CountsWritten(z, FormatBytes(), recordCount, pageCount, dataOffset);
    WriteBytes(header, 72, digest);
    WriteBytes(header, 104, payloadDigest);
    ghost var counted := FormatBytes() + CountBytes(recordCount, pageCount, dataOffset);
    SpliceNext(z, 0, counted, digest);
    SpliceNext(z, 0, counted + digest, payloadDigest);
    SpliceInside(z, 0, counted + digest + payloadDigest);
  }

  lemma FormatWritten(z: seq<byte>)
    requires |z| == PAGE && z == ZeroPage()
    ensures Splice(Splice(Splice(Splice(Splice(Splice(z, 0, MAGIC), 8, Le(1, 4)), 12, Le(0x0102_0304, 4)),
                                 16, Le(PAGE, 4)), 20, Le(RECORD, 4)), 24, Le(PER_PAGE, 4))
         == Splice(z, 0, FormatBytes())
  {
    hide Le;
    var a := MAGIC + Le(1, 4);
    var b := a + Le(0x0102_0304, 4);
    var c := b + Le(PAGE, 4);
    var d := c + Le(RECORD, 4);
    assert Splice(z, 0, d + Le(PER_PAGE, 4)) == Splice(z, 0, FormatBytes());
    hide Splice;
    SpliceNext(z, 0, MAGIC, Le(1, 4));
    SpliceNext(z, 0, a, Le(0x0102_0304, 4));
    SpliceNext(z, 0, b, Le(PAGE, 4));
    SpliceNext(z, 0, c, Le(RECORD, 4));
    SpliceNext(z, 0, d, Le(PER_PAGE, 4));
  }

  lemma CountsWritten(z: seq<byte>, f: seq<byte>, recordCount: nat, pageCount: nat, dataOffset: nat)
    requires |z| == PAGE && |f| == 32
    ensures Splice(Splice(Splice(Splice(Splice(Splice(z, 0, f), 32, Le(recordCount, 8)), 40, Le(pageCount, 8)),
                                 48, Le(PAGE, 8)), 56, Le(pageCount * 16, 8)), 64, Le(dataOffset, 8))
         == Splice(z, 0, f + CountBytes(recordCount, pageCount, dataOffset))
  {
    hide Le, Splice;
    var a := f + Le(recordCount, 8);
    var b := a + Le(pageCount, 8);
    var c := b + Le(PAGE, 8);
    var d := c + Le(pageCount * 16, 8);
    SpliceNext(z, 0, f, Le(recordCount, 8));
    SpliceNext(z, 0, a, Le(pageCount, 8));
    SpliceNext(z, 0, b, Le(PAGE, 8));
    SpliceNext(z, 0, c, Le(pageCount * 16, 8));
    SpliceNext(z, 0, d, Le(dataOffset, 8));
    assert d + Le(dataOffset, 8) == f + CountBytes(recordCount, pageCount, dataOffset);
  }

  // The bytes of the cache file for the given vocabulary and merge lines. The sizes are
  // those the tokenizer's loader admits, so the file always fits the address space.
  method Create(tokens: seq<Piece>, merges: seq<Piece>, digest: seq<byte>) returns (r: Result<seq<byte>, CreateError>)
    requires |tokens| <= INT_MAX && |merges| <= INT_MAX && |digest| == 32
    ensures r.Err? <==> RawRecords(tokens, merges) == []
    ensures r.Ok? ==>
      && |r.value| < U64
      && Accepted(r.value, digest, |tokens|)
      && FromMerges(AllRecords(r.value), tokens, merges)
  {
    hide RawRecords, Sort, Unique, Accepted, IsHeader, IsPayload, Sha256Spec.Hash, Writable, DataStart;
    var raw := CollectRecords(tokens, merges);
    if raw == [] { return Err(NoUsableRules); }
    var records := Unique(Sort(raw));
    MergesWritable(tokens, merges);
    SizesFit(records);
    var payload := WritePayload(records);
    var payloadDigest := Sha256.Sha256(payload[..]);
    var header := WriteHeader(|records|, Pages(|records|), DataStart(|records|), digest, payloadDigest);
    var file := header[..] + payload[..];
    assert file[..PAGE] == header[..] && file[PAGE..] == payload[..];
    ImageAccepted(file, records, digest, |tokens|);
    AcceptedSize(file, digest, |tokens|);
    r := Ok(file);
  }

  lemma SizesFit(records: seq<Record>)
    requires Writable(records)
    ensures |records| <= INT_MAX
  {
  }

  lemma AcceptedSize(file: seq<byte>, digest: seq<byte>, vocabSize: int)
    requires Accepted(file, digest, vocabSize)
    ensures |file| < U64 && Shaped(file) && forall i: nat | i < PageCount(file) :: Loadable(PageAt(file, i))
  {
  }
}

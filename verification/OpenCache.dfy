// Validating a cache file: one pass with running counters accepts exactly the
// files MergeFile.Accepted describes.
module OpenCache {
  import opened Prelude
  import opened Bytes
  import opened MergeFile
  import opened DiskMergeIndex
  import Crc32
  import Sha256
  import Sha256Spec

  datatype Rejection =
    | TooShort | WrongFormat | WrongDigest | BadCounts | BadChecksum
    | FencesUnordered | BadPageHeader | RecordsUnordered | UnknownToken | CountMismatch

  // The header checks as the code orders them, so that no sum overflows.
  function CheckHeader(file: seq<byte>, digest: seq<byte>): (rejection: Option<Rejection>)
    requires |file| < U64 && |digest| == 32
    ensures rejection == None <==> HeaderOk(file, digest)
  {
    if |file| < PAGE then Some(TooShort)
    else if file[..8] != MAGIC || LeAt(file, 8, 4) != 1 || LeAt(file, 12, 4) != 0x0102_0304
            || LeAt(file, 16, 4) != PAGE || LeAt(file, 20, 4) != RECORD || LeAt(file, 24, 4) != PER_PAGE
    then Some(WrongFormat)
    else if file[72..104] != digest then Some(WrongDigest)
    else
      var recordCount, pageCount := LeAt(file, 32, 8), LeAt(file, 40, 8);
      var fenceOffset, fenceSize, dataOffset := LeAt(file, 48, 8), LeAt(file, 56, 8), LeAt(file, 64, 8);
      if recordCount == 0 || pageCount == 0
         || pageCount > |file| / PAGE
         || pageCount > (U64 - 1) / 16
         || recordCount > U64 - 1 - (PER_PAGE - 1)
         || pageCount != (recordCount + PER_PAGE - 1) / PER_PAGE
         || fenceOffset != PAGE || fenceSize != pageCount * 16
         || Some(dataOffset) != AlignPage(fenceOffset + fenceSize)
         || dataOffset > |file| || pageCount > (|file| - dataOffset) / PAGE
         || dataOffset + pageCount * PAGE != |file|
         || pageCount > (U64 - 1) / 16
      then Some(BadCounts)
      else None
  }

  // The payload is hashed in 64 KiB chunks.
  method PayloadDigest(file: seq<byte>) returns (digest: seq<byte>)
    requires |file| >= PAGE
    ensures digest == Sha256Spec.Hash(file[PAGE..])
  {
    hide Sha256Spec.Hash, Sha256.Hasher.Holds, Sha256.Digested;
    var hasher := new Sha256.Hasher();
    var offset := PAGE;
    while offset < |file|
      invariant PAGE <= offset <= |file|
      invariant fresh(hasher) && fresh(hasher.state) && fresh(hasher.buffer)
      invariant hasher.Valid() && !hasher.finished && hasher.message == file[PAGE..offset]
    {
      var amount := Min(64 * 1024, |file| - offset);
      var misuse := hasher.Update(file[offset..offset + amount]);
      assert file[PAGE..offset] + file[offset..offset + amount] == file[PAGE..offset + amount];
      offset := offset + amount;
    }
    assert file[PAGE..|file|] == file[PAGE..];
    var r := hasher.Finish();
    digest := r.value;
  }

  // The records extend the sorted run that ended with `previous`.
  ghost predicate Extends(records: seq<Record>, previous: Option<nat>, vocabSize: int) {
    && StrictlySorted(records)
    && InVocabulary(records, vocabSize)
    && (previous.Some? && records != [] ==> previous.value < records[0].key)
  }

  method CheckRecords(page: Page, fenceKey: nat, previous: Option<nat>, vocabSize: int)
    returns (rejection: Option<Rejection>, last: nat)
    requires Loadable(page)
    ensures rejection == None <==> RecordAt(page, 0).key == fenceKey && Extends(PageRecords(page), previous, vocabSize)
    ensures rejection == None ==> last == Last(PageRecords(page)).key
  {
    hide RecordAt;
    var count := ReadLe(page, 0, 4);
    var before := previous;
    var j := 0;
    ghost var records := PageRecords(page);
    while j < count
      invariant j <= count
      invariant Extends(records[..j], previous, vocabSize)
      invariant j > 0 ==> RecordAt(page, 0).key == fenceKey && before == Some(records[j - 1].key)
      invariant j == 0 ==> before == previous
    {
      var key := ReadKey(page, j);
      if (before.Some? && key <= before.value) || (j == 0 && key != fenceKey) {
        return Some(RecordsUnordered), 0;
      }
      var rule := ReadRule(page, j);
      if rule.merged < 0 || rule.merged >= vocabSize {
        assert records[j].merged == rule.merged;
        return Some(UnknownToken), 0;
      }
      assert records[..j + 1] == records[..j] + [records[j]];
      before := Some(key);
      j := j + 1;
    }
    assert records[..count] == records;
    rejection, last := None, before.value;
  }

  // ---- What the pass has established after `n` pages ----

  ghost function LastKey(records: seq<Record>): Option<nat> {
    if records == [] then None else Some(Last(records).key)
  }

  ghost predicate Scanned(file: seq<byte>, vocabSize: int, n: nat, fences: seq<Fence>, seen: nat, previous: Option<nat>)
    requires Shaped(file) && n <= PageCount(file)
  {
    && (forall k: nat | k < n :: PageOk(file, k) && Loadable(PageAt(file, k)))
    && |fences| == n && (forall k: nat | k < n :: fences[k] == FenceAt(file, k))
    && StrictlySorted(Records(file, n)) && InVocabulary(Records(file, n), vocabSize)
    && seen == |Records(file, n)| && previous == LastKey(Records(file, n))
    && (n > 0 ==> seen > 0)
  }

  lemma SortedAppend(a: seq<Record>, b: seq<Record>, vocabSize: int)
    requires StrictlySorted(a) && InVocabulary(a, vocabSize)
    ensures Extends(b, LastKey(a), vocabSize) <==> StrictlySorted(a + b) && InVocabulary(a + b, vocabSize)
  {
    if StrictlySorted(a + b) && InVocabulary(a + b, vocabSize) {
      forall i, j | 0 <= i < j < |b|
        ensures b[i].key < b[j].key
      {
        assert (a + b)[|a| + i].key < (a + b)[|a| + j].key;
      }
      forall i | 0 <= i < |b|
        ensures 0 <= b[i].merged < vocabSize
      {
        assert (a + b)[|a| + i] == b[i];
      }
      if a != [] && b != [] {
        assert (a + b)[|a| - 1].key < (a + b)[|a|].key;
      }
    }
  }

  // In an accepted file every page passes each check of the pass.
  lemma AcceptedPasses(file: seq<byte>, digest: seq<byte>, vocabSize: int, n: nat)
    requires Accepted(file, digest, vocabSize) && n < PageCount(file)
    ensures PageOk(file, n) && Loadable(PageAt(file, n))
    ensures n > 0 ==> FenceAt(file, n - 1).firstKey < FenceAt(file, n).firstKey
    ensures Extends(PageRecords(PageAt(file, n)), LastKey(Records(file, n)), vocabSize)
    ensures |Records(file, n)| + Count(PageAt(file, n)) <= RecordCount(file)
  {
    hide HeaderOk, PayloadOk, LeAt, RecordAt;
    FencesSorted(file, digest, vocabSize);
    RecordsPrefix(file, n, PageCount(file));
    RecordsPrefix(file, n + 1, PageCount(file));
    SortedAppend(Records(file, n), PageRecords(PageAt(file, n)), vocabSize);
  }

  lemma ScannedExtends(file: seq<byte>, vocabSize: int, n: nat, fences: seq<Fence>, seen: nat, previous: Option<nat>)
    requires Shaped(file) && n < PageCount(file)
    requires Scanned(file, vocabSize, n, fences, seen, previous)
    requires PageOk(file, n) && Loadable(PageAt(file, n))
    requires Extends(PageRecords(PageAt(file, n)), previous, vocabSize)
    ensures Scanned(file, vocabSize, n + 1, fences + [FenceAt(file, n)], seen + Count(PageAt(file, n)),
                    Some(Last(PageRecords(PageAt(file, n))).key))
  {
    hide PageOk, RecordAt, LeAt;
    SortedAppend(Records(file, n), PageRecords(PageAt(file, n)), vocabSize);
  }

  method CheckPage(file: seq<byte>, i: nat, previousFence: Option<nat>, previous: Option<nat>, budget: nat,
                   vocabSize: int)
    returns (r: Result<(Fence, nat, nat), Rejection>)
    requires Shaped(file) && i < PageCount(file)
    ensures r.Ok? <==>
      && PageOk(file, i)
      && (previousFence.Some? ==> previousFence.value < FenceAt(file, i).firstKey)
      && Count(PageAt(file, i)) <= budget
      && Extends(PageRecords(PageAt(file, i)), previous, vocabSize)
    ensures r.Ok? ==> r.value == (FenceAt(file, i), Count(PageAt(file, i)), Last(PageRecords(PageAt(file, i))).key)
  {
    hide Crc32.Crc, RecordAt, Extends, LeAt;
    var dataOffset := ReadLe(file, 64, 8);
    var firstKey := ReadLe(file, PAGE + i * 16, 8);
    var offset := ReadLe(file, PAGE + i * 16 + 8, 8);
    if offset != dataOffset + i * PAGE || (previousFence.Some? && firstKey <= previousFence.value) {
      return Err(FencesUnordered);
    }
    var page := file[offset..offset + PAGE];
    assert page == PageAt(file, i);
    var count := ReadLe(page, 0, 4);
    var first := ReadLe(page, 8, 8);
    var crc := ReadLe(page, 4, 4);
    if count == 0 || count > PER_PAGE || first != firstKey
       || crc != Crc32.Crc(page[PAGE_HEADER..PAGE_HEADER + count * RECORD]) || count > budget {
      return Err(BadPageHeader);
    }
    var rejection, last := CheckRecords(page, firstKey, previous, vocabSize);
    if rejection.Some? { return Err(rejection.value); }
    r := Ok((Fence(firstKey, offset), count, last));
  }

  // Accepts exactly the accepted files, and then yields an index over the file.
  method OpenValidated(file: seq<byte>, digest: seq<byte>, vocabSize: int) returns (r: Result<Index, Rejection>)
    requires |file| < U64 && |digest| == 32
    ensures r.Ok? <==> Accepted(file, digest, vocabSize)
    ensures r.Ok? ==> fresh(r.value) && r.value.Valid()
    ensures r.Ok? ==> r.value.file == file && r.value.digest == digest && r.value.vocabSize == vocabSize
  {
    hide HeaderOk, LeAt, PageOk, RecordAt, Extends, Accepted, AlignPage, Sha256Spec.Hash, Crc32.Crc;
    var rejection := CheckHeader(file, digest);
    AcceptedHashes(file, digest, vocabSize);
    if rejection.Some? { return Err(rejection.value); }
    HeaderShapes(file, digest);
    var checksum := PayloadDigest(file);
    if checksum != file[104..136] { return Err(BadChecksum); }

    var recordCount := ReadLe(file, 32, 8);
    var pageCount := ReadLe(file, 40, 8);
    var fences: seq<Fence> := [];
    var seen: nat, previous: Option<nat> := 0, None;
    for i := 0 to pageCount
      invariant Scanned(file, vocabSize, i, fences, seen, previous) && seen <= recordCount
    {
      var previousFence := if i == 0 then None else Some(fences[i - 1].firstKey);
      var page := CheckPage(file, i, previousFence, previous, recordCount - seen, vocabSize);
      if page.Err? {
        if Accepted(file, digest, vocabSize) {
          AcceptedPasses(file, digest, vocabSize, i);
          assert false;
        }
        return Err(page.error);
      }
      LoadableIfOk(file, i);
      ScannedExtends(file, vocabSize, i, fences, seen, previous);
      fences := fences + [page.value.0];
      seen := seen + page.value.1;
      previous := Some(page.value.2);
    }
    ScannedAll(file, digest, vocabSize, fences, seen, previous);
    if seen != recordCount { return Err(CountMismatch); }
    var index := new Index(file, digest, fences, vocabSize);
    r := Ok(index);
  }

  lemma AcceptedHashes(file: seq<byte>, digest: seq<byte>, vocabSize: int)
    ensures Accepted(file, digest, vocabSize) ==> HeaderOk(file, digest) && |file| >= PAGE && PayloadOk(file)
  {
  }

  lemma ScannedAll(file: seq<byte>, digest: seq<byte>, vocabSize: int, fences: seq<Fence>, seen: nat,
                   previous: Option<nat>)
    requires HeaderOk(file, digest) && Shaped(file) && PayloadOk(file)
    requires Scanned(file, vocabSize, PageCount(file), fences, seen, previous)
    ensures seen == RecordCount(file) <==> Accepted(file, digest, vocabSize)
    ensures |fences| == PageCount(file) && forall i: nat | i < |fences| :: fences[i] == FenceAt(file, i)
  {
    hide HeaderOk, PayloadOk, PageOk, LeAt;
  }

  lemma LoadableIfOk(file: seq<byte>, i: nat)
    requires Shaped(file) && i < PageCount(file) && PageOk(file, i)
    ensures Loadable(PageAt(file, i))
  {
  }
}

// The merge cache file: what its bytes mean, and which files are accepted.
module MergeFile {
  import opened Prelude
  import opened Bytes
  import opened NaiveBpe
  import Crc32
  import Sha256Spec

  const PAGE: nat := 4096
  const PAGE_HEADER: nat := 16
  const RECORD: nat := 16
  const PER_PAGE: nat := 255
  const MAGIC: seq<byte> := [78, 69, 66, 80, 69, 73, 49, 0]   // "NEBPEI1", zero terminated
  const U32: nat := 0x1_0000_0000
  const U64: nat := 0x1_0000_0000_0000_0000

  datatype Record = Record(key: nat, rank: int, merged: int)

  // ---- Pages ----

  type Page = p: seq<byte> | |p| == PAGE witness seq(PAGE, _ => 0)

  function Int32(u: nat): int { if u < 0x8000_0000 then u else u - U32 }

  function RecordAt(page: Page, j: nat): Record
    requires j < PER_PAGE
  {
    var at := PAGE_HEADER + j * RECORD;
    Record(LeAt(page, at, 8), Int32(LeAt(page, at + 8, 4)), Int32(LeAt(page, at + 12, 4)))
  }

  function Count(page: Page): nat { LeAt(page, 0, 4) }

  function FirstKey(page: Page): nat { LeAt(page, 8, 8) }

  ghost predicate Loadable(page: Page) { 1 <= Count(page) <= PER_PAGE }

  function PageRecords(page: Page): (records: seq<Record>)
    requires Count(page) <= PER_PAGE
    ensures |records| == Count(page)
  {
    seq(Count(page), j requires 0 <= j < Count(page) => RecordAt(page, j))
  }

  function Body(page: Page): seq<byte>
    requires Count(page) <= PER_PAGE
  {
    page[PAGE_HEADER..PAGE_HEADER + Count(page) * RECORD]
  }

  // ---- The whole file ----

  function RecordCount(file: seq<byte>): nat requires |file| >= PAGE { LeAt(file, 32, 8) }
  function PageCount(file: seq<byte>): nat requires |file| >= PAGE { LeAt(file, 40, 8) }
  function DataOffset(file: seq<byte>): nat requires |file| >= PAGE { LeAt(file, 64, 8) }

  function AlignPage(value: nat): (aligned: Option<nat>)
    ensures aligned.Some? ==> value <= aligned.value < value + PAGE && aligned.value % PAGE == 0
  {
    if value > U64 - PAGE then None else Some((value + PAGE - 1) / PAGE * PAGE)
  }

  ghost predicate HeaderOk(file: seq<byte>, digest: seq<byte>) {
    && PAGE <= |file| < U64 && |digest| == 32
    && file[..8] == MAGIC && LeAt(file, 8, 4) == 1 && LeAt(file, 12, 4) == 0x0102_0304
    && LeAt(file, 16, 4) == PAGE && LeAt(file, 20, 4) == RECORD && LeAt(file, 24, 4) == PER_PAGE
    && file[72..104] == digest
    && RecordCount(file) > 0
    && PageCount(file) == (RecordCount(file) + PER_PAGE - 1) / PER_PAGE
    && LeAt(file, 48, 8) == PAGE && LeAt(file, 56, 8) == PageCount(file) * 16
    && AlignPage(PAGE + PageCount(file) * 16) == Some(DataOffset(file))
    && DataOffset(file) + PageCount(file) * PAGE == |file|
  }

  // The fence table and the pages fit behind the header.
  ghost predicate Shaped(file: seq<byte>) {
    && |file| >= PAGE
    && PAGE + PageCount(file) * 16 <= DataOffset(file)
    && DataOffset(file) + PageCount(file) * PAGE == |file|
  }

  function PageAt(file: seq<byte>, i: nat): Page
    requires Shaped(file) && i < PageCount(file)
  {
    file[DataOffset(file) + i * PAGE..DataOffset(file) + (i + 1) * PAGE]
  }

  datatype Fence = Fence(firstKey: nat, offset: nat)

  function FenceAt(file: seq<byte>, i: nat): Fence
    requires Shaped(file) && i < PageCount(file)
  {
    Fence(LeAt(file, PAGE + i * 16, 8), LeAt(file, PAGE + i * 16 + 8, 8))
  }

  ghost predicate PageOk(file: seq<byte>, i: nat)
    requires Shaped(file) && i < PageCount(file)
  {
    var page := PageAt(file, i);
    && FenceAt(file, i) == Fence(FirstKey(page), DataOffset(file) + i * PAGE)
    && Loadable(page)
    && LeAt(page, 4, 4) == Crc32.Crc(Body(page))
    && RecordAt(page, 0).key == FirstKey(page)
  }

  // All records of the first `n` pages, in file order.
  ghost function Records(file: seq<byte>, n: nat): seq<Record>
    requires Shaped(file) && n <= PageCount(file)
    requires forall i: nat | i < n :: Loadable(PageAt(file, i))
  {
    if n == 0 then []
    else
      assert Loadable(PageAt(file, n - 1));
      Records(file, n - 1) + PageRecords(PageAt(file, n - 1))
  }

  ghost predicate StrictlySorted(records: seq<Record>) {
    forall i, j | 0 <= i < j < |records| :: records[i].key < records[j].key
  }

  ghost predicate InVocabulary(records: seq<Record>, vocabSize: int) {
    forall i | 0 <= i < |records| :: 0 <= records[i].merged < vocabSize
  }

  ghost predicate PayloadOk(file: seq<byte>)
    requires |file| >= PAGE
  {
    file[104..136] == Sha256Spec.Hash(file[PAGE..])
  }

  ghost predicate Accepted(file: seq<byte>, digest: seq<byte>, vocabSize: int) {
    && HeaderOk(file, digest) && Shaped(file) && PayloadOk(file)
    && (forall i: nat | i < PageCount(file) :: PageOk(file, i))
    && (forall i: nat | i < PageCount(file) :: Loadable(PageAt(file, i)))
    && var records := Records(file, PageCount(file));
    && |records| == RecordCount(file)
    && StrictlySorted(records)
    && InVocabulary(records, vocabSize)
  }

  ghost function AllRecords(file: seq<byte>): seq<Record>
    requires Shaped(file) && forall i: nat | i < PageCount(file) :: Loadable(PageAt(file, i))
  {
    Records(file, PageCount(file))
  }

  lemma HeaderShapes(file: seq<byte>, digest: seq<byte>)
    requires HeaderOk(file, digest)
    ensures Shaped(file) && PageCount(file) > 0
  {
  }

  // ---- Linear scan ----

  // The first record of the key, in list order.
  function Scan(records: seq<Record>, key: nat): (hit: Option<Rule>)
    ensures hit == None <==> forall i | 0 <= i < |records| :: records[i].key != key
  {
    if records == [] then None
    else if records[0].key == key then Some(Rule(records[0].rank, records[0].merged))
    else Scan(records[1..], key)
  }

  lemma {:induction false} ScanFinds(records: seq<Record>, key: nat, i: nat)
    requires i < |records| && records[i].key == key
    requires forall j | 0 <= j < i :: records[j].key != key
    ensures Scan(records, key) == Some(Rule(records[i].rank, records[i].merged))
  {
    if i > 0 {
      ScanFinds(records[1..], key, i - 1);
    }
  }

  // ---- Records of a page inside the records of the file ----

  ghost function Start(file: seq<byte>, i: nat): nat
    requires Shaped(file) && i <= PageCount(file)
    requires forall k: nat | k < i :: Loadable(PageAt(file, k))
  {
    |Records(file, i)|
  }

  lemma {:induction false} RecordsPrefix(file: seq<byte>, i: nat, n: nat)
    requires Shaped(file) && i <= n <= PageCount(file)
    requires forall k: nat | k < n :: Loadable(PageAt(file, k))
    ensures Records(file, i) <= Records(file, n)
    decreases n
  {
    if i < n { RecordsPrefix(file, i, n - 1); }
  }

  lemma RecordOfPage(file: seq<byte>, i: nat, j: nat, n: nat)
    requires Shaped(file) && i < n <= PageCount(file)
    requires forall k: nat | k < n :: Loadable(PageAt(file, k))
    requires j < Count(PageAt(file, i))
    ensures Start(file, i) + j < |Records(file, n)|
    ensures Records(file, n)[Start(file, i) + j] == RecordAt(PageAt(file, i), j)
  {
    RecordsPrefix(file, i + 1, n);
  }

  lemma {:induction false} PageOfRecord(file: seq<byte>, r: nat, n: nat) returns (i: nat, j: nat)
    requires Shaped(file) && n <= PageCount(file)
    requires forall k: nat | k < n :: Loadable(PageAt(file, k))
    requires r < |Records(file, n)|
    ensures i < n && j < Count(PageAt(file, i)) && r == Start(file, i) + j
    ensures Records(file, n)[r] == RecordAt(PageAt(file, i), j)
    decreases n
  {
    if r < |Records(file, n - 1)| {
      i, j := PageOfRecord(file, r, n - 1);
    } else {
      i, j := n - 1, r - |Records(file, n - 1)|;
    }
  }

  // ---- The format in numbers ----

  // A stored 32-bit word read as a signed number: the one congruent to it.
  lemma Int32Means(u: nat, i: int)
    requires u < 0x1_0000_0000
    ensures Int32(u) == i <==> -0x8000_0000 <= i < 0x8000_0000 && i % 0x1_0000_0000 == u
  {
  }

  // What an accepted file says of itself, and where its pages and records lie.
  lemma FileSays(file: seq<byte>, digest: seq<byte>, vocabSize: int)
    requires Accepted(file, digest, vocabSize)
    ensures file[..8] == [0x4e, 0x45, 0x42, 0x50, 0x45, 0x49, 0x31, 0] && LeAt(file, 8, 4) == 1
    ensures LeAt(file, 16, 4) == 4096 && LeAt(file, 20, 4) == 16 && LeAt(file, 24, 4) == 255
    ensures file[72..104] == digest && file[104..136] == Sha256Spec.Hash(file[4096..])
    ensures var pages := (LeAt(file, 32, 8) + 254) / 255;
      LeAt(file, 40, 8) == pages && LeAt(file, 48, 8) == 4096 && LeAt(file, 56, 8) == 16 * pages
      && DataOffset(file) % 4096 == 0 && 0 <= DataOffset(file) - 4096 - 16 * pages < 4096
      && |file| == DataOffset(file) + 4096 * pages
  {
    hide LeAt, Sha256Spec.Hash;
  }

  // Record j of page i, wherever it lies in the file.
  lemma RecordLies(file: seq<byte>, i: nat, j: nat)
    requires Shaped(file) && i < PageCount(file) && j < 255
    ensures var at := LeAt(file, 64, 8) + 4096 * i + 16 + 16 * j;
      at + 16 <= |file|
      && RecordAt(PageAt(file, i), j)
         == Record(LeAt(file, at, 8), Int32(LeAt(file, at + 8, 4)), Int32(LeAt(file, at + 12, 4)))
  {
    hide Int32;
    var from, in' := DataOffset(file) + i * PAGE, PAGE_HEADER + j * RECORD;
    MulLe(i + 1, PageCount(file), PAGE);
    SliceOfSlice(file, from, from + PAGE, in', in' + 8);
    SliceOfSlice(file, from, from + PAGE, in' + 8, in' + 12);
    SliceOfSlice(file, from, from + PAGE, in' + 12, in' + 16);
  }
}

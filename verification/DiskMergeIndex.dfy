// Lookups in a validated merge cache: fences, an eight-slot page cache, then a
// binary search in one page. All of it must agree with a scan of every record.
module DiskMergeIndex {
  import opened Prelude
  import opened Bytes
  import opened NaiveBpe
  import opened MergeFile

  const NO_PAGE: nat := U64 - 1

  // A slot that holds no validated page is named NO_PAGE.
  datatype Slot = Slot(page: nat, bytes: Page)

  class LookupScratch {
    const slots: array<Slot>
    var nextSlot: nat
    var pageReads: nat

    constructor ()
      ensures fresh(slots) && slots.Length == 8 && pageReads == 0
      ensures forall s | 0 <= s < 8 :: slots[s].page == NO_PAGE
    {
      slots := new Slot[8](_ => Slot(NO_PAGE, seq(PAGE, _ => 0)));
      nextSlot, pageReads := 0, 0;
    }
  }

  // What a page read meets: the bytes now on disk, which may differ from those
  // validated at load, or a failure that leaves the buffer in any state.
  datatype Disk = Disk(bytes: seq<byte>, healthy: bool, garbage: Page)

  datatype Error = ReadFailed | PageInvalid | TokenOutsideVocabulary

  // ---- Reading and searching one page ----

  method ReadKey(page: Page, j: nat) returns (key: nat)
    requires j < PER_PAGE
    ensures key == RecordAt(page, j).key
  {
    key := ReadLe(page, PAGE_HEADER + j * RECORD, 8);
  }

  method ReadRule(page: Page, j: nat) returns (rule: Rule)
    requires j < PER_PAGE
    ensures rule == Rule(RecordAt(page, j).rank, RecordAt(page, j).merged)
  {
    var rank := ReadLe(page, PAGE_HEADER + j * RECORD + 8, 4);
    var merged := ReadLe(page, PAGE_HEADER + j * RECORD + 12, 4);
    rule := Rule(Int32(rank), Int32(merged));
  }

  // The first record of the page whose key is not below `key`.
  method LowerBound(page: Page, key: nat) returns (low: nat)
    requires Loadable(page)
    ensures low <= Count(page)
    ensures (forall i, j | 0 <= i < j < Count(page) :: RecordAt(page, i).key < RecordAt(page, j).key) ==>
      && (forall j | 0 <= j < low :: RecordAt(page, j).key < key)
      && (forall j | low <= j < Count(page) :: key <= RecordAt(page, j).key)
  {
    hide RecordAt;
    var count := ReadLe(page, 0, 4);
    low := 0;
    var high := count;
    ghost var sorted := forall i, j | 0 <= i < j < count :: RecordAt(page, i).key < RecordAt(page, j).key;
    while low < high
      invariant low <= high <= count
      invariant sorted ==> forall j | 0 <= j < low :: RecordAt(page, j).key < key
      invariant sorted ==> forall j | high <= j < count :: key <= RecordAt(page, j).key
    {
      var mid := low + (high - low) / 2;
      var candidate := ReadKey(page, mid);
      if candidate < key { low := mid + 1; } else { high := mid; }
    }
  }

  // Where the page holds the key, if it does.
  method SearchPage(page: Page, key: nat) returns (hit: Option<nat>)
    requires Loadable(page)
    ensures hit.Some? ==> hit.value < Count(page) && RecordAt(page, hit.value).key == key
    ensures hit == None && (forall i, j | 0 <= i < j < Count(page) :: RecordAt(page, i).key < RecordAt(page, j).key)
      ==> forall j | 0 <= j < Count(page) :: RecordAt(page, j).key != key
  {
    hide RecordAt;
    var count := ReadLe(page, 0, 4);
    var low := LowerBound(page, key);
    if low == count { return None; }
    var found := ReadKey(page, low);
    if found != key { return None; }
    hit := Some(low);
  }

  class Index {
    const fences: seq<Fence>
    const vocabSize: int
    ghost const file: seq<byte>
    ghost const digest: seq<byte>
    ghost var asked: nat   // lookups answered so far

    constructor (ghost file: seq<byte>, ghost digest: seq<byte>, fences: seq<Fence>, vocabSize: int)
      requires Accepted(file, digest, vocabSize) && |fences| == PageCount(file)
      requires forall i: nat | i < |fences| :: fences[i] == FenceAt(file, i)
      ensures Valid() && this.file == file && this.digest == digest && this.vocabSize == vocabSize
    {
      this.file, this.digest, this.fences, this.vocabSize := file, digest, fences, vocabSize;
    }

    ghost predicate Valid() {
      && Accepted(file, digest, vocabSize)
      && |fences| == PageCount(file)
      && forall i: nat | i < |fences| :: fences[i] == FenceAt(file, i)
    }

    // What every lookup is to agree with.
    ghost function Spec(key: nat): Option<Rule>
      requires Valid()
    {
      Scan(AllRecords(file), key)
    }

    ghost predicate SlotsSound(scratch: LookupScratch)
      reads scratch.slots
    {
      && scratch.slots.Length == 8
      && forall s | 0 <= s < 8 && scratch.slots[s].page != NO_PAGE ::
           && scratch.slots[s].page < |fences|
           && Loadable(scratch.slots[s].bytes)
           && FirstKey(scratch.slots[s].bytes) == fences[scratch.slots[s].page].firstKey
    }

    // Every named slot holds the validated bytes of its page.
    ghost predicate SlotsCoherent(scratch: LookupScratch)
      requires Valid()
      reads scratch.slots
    {
      && SlotsSound(scratch)
      && forall s | 0 <= s < 8 && scratch.slots[s].page != NO_PAGE ::
           scratch.slots[s].bytes == PageAt(file, scratch.slots[s].page)
    }

    // The page whose key range holds the key.
    method FencePage(key: nat) returns (page: nat)
      requires fences != [] && fences[0].firstKey <= key
      requires forall i, j | 0 <= i < j < |fences| :: fences[i].firstKey < fences[j].firstKey
      ensures page < |fences| && fences[page].firstKey <= key
      ensures page + 1 < |fences| ==> key < fences[page + 1].firstKey
    {
      var low, high := 0, |fences|;
      while low < high
        invariant 0 <= low <= high <= |fences|
        invariant forall i | 0 <= i < low :: fences[i].firstKey <= key
        invariant forall i | high <= i < |fences| :: key < fences[i].firstKey
      {
        var mid := low + (high - low) / 2;
        if key < fences[mid].firstKey { high := mid; } else { low := mid + 1; }
      }
      page := low - 1;
    }

    method CachedSlot(page: nat, scratch: LookupScratch) returns (slot: Option<nat>)
      requires scratch.slots.Length == 8
      ensures slot.Some? ==> slot.value < 8 && scratch.slots[slot.value].page == page
      ensures slot == None ==> forall s | 0 <= s < 8 :: scratch.slots[s].page != page
    {
      for s := 0 to 8
        invariant forall t | 0 <= t < s :: scratch.slots[t].page != page
      {
        if scratch.slots[s].page == page { return Some(s); }
      }
      slot := None;
    }

    // Read a page into the next slot in turn. The slot is named only once its
    // bytes have passed the structural checks.
    method ReadPage(page: nat, scratch: LookupScratch, disk: Disk) returns (slot: Result<nat, Error>)
      requires Valid() && page < |fences| && SlotsSound(scratch)
      modifies scratch, scratch.slots
      ensures SlotsSound(scratch)
      ensures slot.Ok? ==> slot.value < 8 && scratch.slots[slot.value].page == page
      ensures old(SlotsCoherent(scratch)) && disk.bytes == file ==>
        SlotsCoherent(scratch) && (slot.Err? ==> !disk.healthy)
      ensures scratch.pageReads == old(scratch.pageReads) + if slot.Ok? then 1 else 0
    {
      hide Accepted, HeaderOk, PayloadOk, InVocabulary, RecordAt, PageOk;
      var s := scratch.nextSlot % 8;
      scratch.nextSlot := scratch.nextSlot + 1;
      var offset := fences[page].offset;
      FenceInside(file, digest, vocabSize, page);
      if !disk.healthy || offset + PAGE > |disk.bytes| {
        scratch.slots[s] := Slot(NO_PAGE, disk.garbage);
        return Err(ReadFailed);
      }
      var bytes: Page := disk.bytes[offset..offset + PAGE];
      scratch.slots[s] := Slot(NO_PAGE, bytes);
      var loaded := ReadLe(bytes, 0, 4);
      var first := ReadLe(bytes, 8, 8);
      if loaded == 0 || loaded > PER_PAGE || first != fences[page].firstKey {
        return Err(PageInvalid);
      }
      scratch.slots[s] := Slot(page, bytes);
      scratch.pageReads := scratch.pageReads + 1;
      slot := Ok(s);
    }

    // A slot that holds the page, read now if none did.
    method LoadPage(page: nat, scratch: LookupScratch, disk: Disk) returns (slot: Result<nat, Error>)
      requires Valid() && page < |fences| && page != NO_PAGE && SlotsSound(scratch)
      modifies scratch, scratch.slots
      ensures SlotsSound(scratch)
      ensures old(scratch.pageReads) <= scratch.pageReads <= old(scratch.pageReads) + 1
      ensures slot.Ok? ==> slot.value < 8 && scratch.slots[slot.value].page == page
      ensures old(SlotsCoherent(scratch)) && disk.bytes == file ==>
        SlotsCoherent(scratch) && (slot.Err? ==> !disk.healthy)
    {
      hide Valid, SlotsSound;
      assert scratch.slots.Length == 8 by { SlotsEight(scratch); }
      var cached := CachedSlot(page, scratch);
      if cached.Some? { return Ok(cached.value); }
      slot := ReadPage(page, scratch, disk);
    }

    lemma SlotsEight(scratch: LookupScratch)
      requires SlotsSound(scratch)
      ensures scratch.slots.Length == 8
    {
    }

    method Find(key: nat, scratch: LookupScratch, disk: Disk) returns (r: Result<Option<Rule>, Error>)
      requires Valid() && SlotsSound(scratch)
      modifies scratch, scratch.slots, `asked
      ensures SlotsSound(scratch)
      // One lookup, and at most one page read.
      ensures asked == old(asked) + 1 && old(scratch.pageReads) <= scratch.pageReads <= old(scratch.pageReads) + 1
      // Whatever is on disk by now, an id outside the vocabulary is never returned.
      ensures r.Ok? && r.value.Some? ==> 0 <= r.value.value.merged < vocabSize
      // With the validated bytes still on disk, a lookup fails only when its read fails,
      // and otherwise agrees with the scan.
      ensures old(SlotsCoherent(scratch)) && disk.bytes == file ==>
        && SlotsCoherent(scratch)
        && (r.Ok? ==> r.value == Spec(key))
        && (r.Err? ==> !disk.healthy)
    {
      hide Accepted, HeaderOk, PayloadOk, InVocabulary, RecordAt, PageOk, Scan, LeAt, Shaped, FenceAt, PageAt, Records;
      asked := asked + 1;
      FencesSorted(file, digest, vocabSize);
      if key < fences[0].firstKey {
        NotBeforeFences(file, digest, vocabSize, key);
        return Ok(None);
      }
      var page := FencePage(key);
      FenceInside(file, digest, vocabSize, page);
      var slot := LoadPage(page, scratch, disk);
      if slot.Err? { return Err(slot.error); }
      var bytes := scratch.slots[slot.value].bytes;
      var hit := SearchPage(bytes, key);
      ghost var exact := old(SlotsCoherent(scratch)) && disk.bytes == file;
      if exact { PageDecides(file, digest, vocabSize, page, key, hit); }
      if hit == None { return Ok(None); }
      var rule := ReadRule(bytes, hit.value);
      if rule.merged < 0 || rule.merged >= vocabSize { return Err(TokenOutsideVocabulary); }
      r := Ok(Some(rule));
    }
  }

  // Any sequence of lookups over one scratch, some of whose reads may fail: every
  // answer given agrees with the scan.
  method FindEach(index: Index, keys: seq<nat>, disks: seq<Disk>) returns (results: seq<Result<Option<Rule>, Error>>)
    requires index.Valid() && |disks| == |keys| && forall i | 0 <= i < |disks| :: disks[i].bytes == index.file
    modifies index`asked
    ensures |results| == |keys| && index.asked == old(index.asked) + |keys|
    ensures forall i | 0 <= i < |keys| && results[i].Ok? :: results[i].value == index.Spec(keys[i])
    ensures forall i | 0 <= i < |keys| && results[i].Err? :: !disks[i].healthy
  {
    hide Index.Valid, Index.Spec;
    var scratch := new LookupScratch();
    results := [];
    for n := 0 to |keys|
      invariant |results| == n && index.asked == old(index.asked) + n && fresh(scratch) && fresh(scratch.slots)
      invariant index.SlotsCoherent(scratch)
      invariant forall i | 0 <= i < n && results[i].Ok? :: results[i].value == index.Spec(keys[i])
      invariant forall i | 0 <= i < n && results[i].Err? :: !disks[i].healthy
    {
      var r := index.Find(keys[n], scratch, disks[n]);
      results := results + [r];
    }
  }

  // ---- Where a key can be in an accepted file ----

  lemma FenceInside(file: seq<byte>, digest: seq<byte>, vocabSize: int, page: nat)
    requires Accepted(file, digest, vocabSize) && page < PageCount(file)
    ensures FenceAt(file, page).offset + PAGE <= |file|
    ensures file[FenceAt(file, page).offset..FenceAt(file, page).offset + PAGE] == PageAt(file, page)
    ensures Loadable(PageAt(file, page)) && FirstKey(PageAt(file, page)) == FenceAt(file, page).firstKey
    ensures page != NO_PAGE
  {
    hide PayloadOk, InVocabulary, RecordAt;
    assert PageOk(file, page);
  }

  lemma PageSorted(file: seq<byte>, digest: seq<byte>, vocabSize: int, page: nat)
    requires Accepted(file, digest, vocabSize) && page < PageCount(file)
    ensures forall i, j | 0 <= i < j < Count(PageAt(file, page)) ::
      RecordAt(PageAt(file, page), i).key < RecordAt(PageAt(file, page), j).key
  {
    hide HeaderOk, PayloadOk, LeAt, InVocabulary, PageOk, RecordAt;
    forall i: nat, j: nat | i < j < Count(PageAt(file, page))
      ensures RecordAt(PageAt(file, page), i).key < RecordAt(PageAt(file, page), j).key
    {
      RecordOfPage(file, page, i, PageCount(file));
      RecordOfPage(file, page, j, PageCount(file));
    }
  }

  // Across pages: an earlier page's records lie below a later page's first key.
  lemma PagesOrdered(file: seq<byte>, digest: seq<byte>, vocabSize: int, i: nat, j: nat, later: nat)
    requires Accepted(file, digest, vocabSize) && i < later < PageCount(file)
    requires j < Count(PageAt(file, i))
    ensures RecordAt(PageAt(file, i), j).key < FenceAt(file, later).firstKey
  {
    hide HeaderOk, PayloadOk, LeAt, InVocabulary;
    assert PageOk(file, later);
    RecordOfPage(file, i, j, later);
    RecordOfPage(file, i, j, PageCount(file));
    RecordOfPage(file, later, 0, PageCount(file));
  }

  lemma FencesSorted(file: seq<byte>, digest: seq<byte>, vocabSize: int)
    requires Accepted(file, digest, vocabSize)
    ensures PageCount(file) > 0
    ensures forall i, j | 0 <= i < j < PageCount(file) :: FenceAt(file, i).firstKey < FenceAt(file, j).firstKey
  {
    hide PayloadOk, LeAt, InVocabulary, RecordAt;
    HeaderShapes(file, digest);
    forall i: nat, j: nat | i < j < PageCount(file)
      ensures FenceAt(file, i).firstKey < FenceAt(file, j).firstKey
    {
      assert PageOk(file, i);
      PagesOrdered(file, digest, vocabSize, i, 0, j);
    }
  }

  lemma FoundInPage(file: seq<byte>, digest: seq<byte>, vocabSize: int, page: nat, j: nat, key: nat)
    requires Accepted(file, digest, vocabSize) && page < PageCount(file)
    requires j < Count(PageAt(file, page)) && RecordAt(PageAt(file, page), j).key == key
    ensures var record := RecordAt(PageAt(file, page), j);
      && Scan(AllRecords(file), key) == Some(Rule(record.rank, record.merged))
      && 0 <= record.merged < vocabSize
  {
    hide HeaderOk, PayloadOk, LeAt, PageOk, RecordAt;
    RecordOfPage(file, page, j, PageCount(file));
    ScanFinds(AllRecords(file), key, Start(file, page) + j);
  }

  lemma NotInPage(file: seq<byte>, digest: seq<byte>, vocabSize: int, page: nat, key: nat)
    requires Accepted(file, digest, vocabSize) && page < PageCount(file)
    requires FenceAt(file, page).firstKey <= key
    requires page + 1 < PageCount(file) ==> key < FenceAt(file, page + 1).firstKey
    requires forall j: nat | j < Count(PageAt(file, page)) :: RecordAt(PageAt(file, page), j).key != key
    ensures Scan(AllRecords(file), key) == None
  {
    hide HeaderOk, PayloadOk, LeAt, InVocabulary, PageOk, RecordAt;
    forall r: nat | r < |AllRecords(file)|
      ensures AllRecords(file)[r].key != key
    {
      var i, j := PageOfRecord(file, r, PageCount(file));
      if i < page {
        PagesOrdered(file, digest, vocabSize, i, j, page);
      } else if i > page {
        FromFence(file, digest, vocabSize, i, j);
        FencesSorted(file, digest, vocabSize);
      }
    }
  }

  lemma FromFence(file: seq<byte>, digest: seq<byte>, vocabSize: int, i: nat, j: nat)
    requires Accepted(file, digest, vocabSize) && i < PageCount(file) && j < Count(PageAt(file, i))
    ensures FenceAt(file, i).firstKey <= RecordAt(PageAt(file, i), j).key
  {
    hide HeaderOk, PayloadOk, InVocabulary, LeAt;
    assert PageOk(file, i);
    PageSorted(file, digest, vocabSize, i);
  }

  lemma NotBeforeFences(file: seq<byte>, digest: seq<byte>, vocabSize: int, key: nat)
    requires Accepted(file, digest, vocabSize) && PageCount(file) > 0
    requires key < FenceAt(file, 0).firstKey
    ensures Scan(AllRecords(file), key) == None
  {
    hide HeaderOk, PayloadOk, LeAt, InVocabulary, PageOk, RecordAt;
    forall r: nat | r < |AllRecords(file)|
      ensures AllRecords(file)[r].key != key
    {
      var i, j := PageOfRecord(file, r, PageCount(file));
      FromFence(file, digest, vocabSize, i, j);
      FencesSorted(file, digest, vocabSize);
    }
  }

  // The answer of the one page whose key range holds the key is the answer of the file.
  lemma PageDecides(file: seq<byte>, digest: seq<byte>, vocabSize: int, page: nat, key: nat, hit: Option<nat>)
    requires Accepted(file, digest, vocabSize) && page < PageCount(file)
    requires FenceAt(file, page).firstKey <= key
    requires page + 1 < PageCount(file) ==> key < FenceAt(file, page + 1).firstKey
    requires hit.Some? ==> hit.value < Count(PageAt(file, page)) && RecordAt(PageAt(file, page), hit.value).key == key
    requires hit == None && (forall i, j | 0 <= i < j < Count(PageAt(file, page)) ::
        RecordAt(PageAt(file, page), i).key < RecordAt(PageAt(file, page), j).key)
      ==> forall j | 0 <= j < Count(PageAt(file, page)) :: RecordAt(PageAt(file, page), j).key != key
    ensures hit == None ==> Scan(AllRecords(file), key) == None
    ensures hit.Some? ==>
      var record := RecordAt(PageAt(file, page), hit.value);
      && Scan(AllRecords(file), key) == Some(Rule(record.rank, record.merged))
      && 0 <= record.merged < vocabSize
  {
    hide HeaderOk, PayloadOk, InVocabulary, LeAt, PageOk, RecordAt;
    PageSorted(file, digest, vocabSize, page);
    if hit == None {
      NotInPage(file, digest, vocabSize, page, key);
    } else {
      FoundInPage(file, digest, vocabSize, page, hit.value, key);
    }
  }
}

// The incremental hasher: however a message is cut into updates, `Finish`
// returns the digest FIPS 180-4 gives for the whole message.
module Sha256 {
  import opened Prelude
  import opened Sha256Spec

  datatype Misuse = UpdateAfterFinish | FinishTwice

  const MODULUS: nat := 0x1_0000_0000_0000_0000

  ghost predicate Digested(state: seq<Word>, blocks: seq<byte>) {
    && |blocks| % 64 == 0
    && state == CompressAll(INITIAL, blocks)
  }

  lemma ScheduleWord(block: Block, t: nat)
    ensures Schedule(block, t) ==
      if t < 16 then WordAt(block, t)
      else Extend(Schedule(block, t - 2), Schedule(block, t - 7), Schedule(block, t - 15), Schedule(block, t - 16))
  {
    hide Extend, WordAt;
  }

  class Hasher {
    const state: array<Word>
    const buffer: array<byte>
    var buffered: nat
    var totalBytes: nat      // 64-bit, wraps
    var finished: bool
    ghost var message: seq<byte>

    ghost predicate Allocated() {
      state.Length == 8 && buffer.Length == 64
    }

    // What the state and the buffer hold once `fed` bytes of `all` have been taken in.
    ghost predicate Holds(all: seq<byte>, fed: nat)
      reads `buffered, state, buffer
    {
      && Allocated()
      && buffered <= fed <= |all| && buffered <= 64
      && (fed - buffered) % 64 == 0
      && buffer[..buffered] == all[fed - buffered..fed]
      && Digested(state[..], all[..fed - buffered])
    }

    ghost predicate Valid()
      reads this, state, buffer
    {
      && Allocated()
      && totalBytes == |message| % MODULUS
      && (!finished ==> buffered < 64 && Holds(message, |message|))
    }

    constructor ()
      ensures Valid() && fresh(state) && fresh(buffer)
      ensures !finished && message == []
    {
      state := new Word[8](i requires 0 <= i < 8 => INITIAL[i]);
      buffer := new byte[64](_ => 0);
      buffered, totalBytes, finished, message := 0, 0, false, [];
      new;
      assert state[..] == INITIAL;
    }

    static method ExpandSchedule(block: Block) returns (w: array<Word>)
      ensures fresh(w) && w.Length == 64
      ensures forall t: nat | t < 64 :: w[t] == Schedule(block, t)
    {
      hide Plus, SmallSigma0, SmallSigma1, WordAt, Schedule;
      w := new Word[64](_ => 0);
      for i := 0 to 16
        invariant forall t: nat | t < i :: w[t] == Schedule(block, t)
      {
        ScheduleWord(block, i);
        w[i] := WordAt(block, i);
      }
      for i := 16 to 64
        invariant forall t: nat | t < i :: w[t] == Schedule(block, t)
      {
        ScheduleWord(block, i);
        w[i] := Plus(Plus(Plus(w[i - 16], SmallSigma0(w[i - 15])), w[i - 7]), SmallSigma1(w[i - 2]));
      }
    }

    static method RunRounds(start: Vars, ghost block: Block, w: array<Word>) returns (v: Vars)
      requires w.Length == 64 && forall t: nat | t < 64 :: w[t] == Schedule(block, t)
      ensures v == Rounds(start, block, 64)
    {
      hide Plus, Ch, Maj, BigSigma0, BigSigma1, SmallSigma0, SmallSigma1, WordAt, Schedule;
      var a, b, c, d := start.a, start.b, start.c, start.d;
      var e, f, g, h := start.e, start.f, start.g, start.h;
      for i := 0 to 64
        invariant Vars(a, b, c, d, e, f, g, h) == Rounds(start, block, i)
      {
        var temp1 := Plus(Plus(Plus(Plus(h, BigSigma1(e)), Ch(e, f, g)), ROUND[i]), w[i]);
        var temp2 := Plus(BigSigma0(a), Maj(a, b, c));
        h, g, f, e := g, f, e, Plus(d, temp1);
        d, c, b, a := c, b, a, Plus(temp1, temp2);
      }
      v := Vars(a, b, c, d, e, f, g, h);
    }

    method Transform(block: Block)
      requires Allocated()
      modifies state
      ensures state[..] == Compress(old(state[..]), block)
    {
      hide Plus, Rounds, Schedule;
      var w := ExpandSchedule(block);
      var v := RunRounds(ToVars(state[..]), block, w);
      ghost var before: State := state[..];
      var sums := [Plus(state[0], v.a), Plus(state[1], v.b), Plus(state[2], v.c), Plus(state[3], v.d),
                   Plus(state[4], v.e), Plus(state[5], v.f), Plus(state[6], v.g), Plus(state[7], v.h)];
      forall i | 0 <= i < 8 { state[i] := sums[i]; }
      assert state[..] == sums;
    }

    // Compress the next 64 bytes of `all`, of which `done` are already in the state.
    method Step(ghost all: seq<byte>, ghost done: nat, block: Block)
      requires Allocated() && done % 64 == 0 && done + 64 <= |all|
      requires block == all[done..done + 64]
      requires Digested(state[..], all[..done])
      modifies state
      ensures Digested(state[..], all[..done + 64])
    {
      hide Compress, INITIAL, Rounds;
      Transform(block);
      assert all[..done + 64][..done] == all[..done];
      assert all[..done + 64][done..] == block;
    }

    // Append to the buffer the next bytes of `all`.
    method Append(ghost all: seq<byte>, ghost fed: nat, bytes: seq<byte>)
      requires Holds(all, fed) && buffered + |bytes| <= 64
      requires fed + |bytes| <= |all| && bytes == all[fed..fed + |bytes|]
      modifies buffer, `buffered
      ensures Holds(all, fed + |bytes|) && buffered == old(buffered) + |bytes|
    {
      hide Digested;
      ghost var was := buffer[..buffered];
      forall i | 0 <= i < |bytes| { buffer[buffered + i] := bytes[i]; }
      assert buffer[..buffered + |bytes|] == was + bytes;
      assert state[..] == old(state[..]);
      buffered := buffered + |bytes|;
    }

    // Compress a full buffer.
    method Flush(ghost all: seq<byte>, ghost fed: nat)
      requires Holds(all, fed) && buffered == 64
      modifies state, `buffered
      ensures Holds(all, fed) && buffered == 0
    {
      hide Digested;
      assert buffer[..] == buffer[..64];
      Step(all, fed - 64, buffer[..]);
      buffered := 0;
    }

    // Top up a partly filled buffer; the bytes taken are counted in `p`.
    method TopUp(ghost all: seq<byte>, ghost fed: nat, data: seq<byte>) returns (p: nat)
      requires Holds(all, fed) && all[fed..] == data && buffered < 64
      modifies state, buffer, `buffered
      ensures p <= |data| && Holds(all, fed + p) && buffered < 64
      ensures buffered != 0 ==> p == |data|
    {
      hide Digested;
      p := Min(|data|, 64 - buffered);
      Append(all, fed, data[..p]);
      if buffered == 64 {
        Flush(all, fed + p);
      }
    }

    // Compress a block taken straight from the input.
    method Bypass(ghost all: seq<byte>, ghost fed: nat, block: Block)
      requires Holds(all, fed) && buffered == 0
      requires fed + 64 <= |all| && block == all[fed..fed + 64]
      modifies state
      ensures Holds(all, fed + 64)
    {
      hide Digested;
      Step(all, fed, block);
    }

    method TakeBlocks(ghost all: seq<byte>, ghost start: nat, data: seq<byte>, from: nat) returns (p: nat)
      requires start <= |all| && all[start..] == data && from <= |data|
      requires Holds(all, start + from) && (buffered != 0 ==> from == |data|)
      modifies state
      ensures from <= p <= |data| && (buffered == 0 ==> |data| - p < 64)
      ensures Holds(all, start + p) && (buffered != 0 ==> p == |data|)
    {
      hide Digested, Holds;
      p := from;
      while |data| - p >= 64
        invariant from <= p <= |data| && Holds(all, start + p)
        invariant buffered != 0 ==> p == |data|
      {
        Bypass(all, start + p, data[p..p + 64]);
        p := p + 64;
      }
    }

    method Update(data: seq<byte>) returns (misuse: Option<Misuse>)
      requires Valid()
      modifies this, state, buffer
      ensures Valid() && finished == old(finished)
      ensures misuse == if old(finished) then Some(UpdateAfterFinish) else None
      ensures message == if old(finished) then old(message) else old(message) + data
    {
      hide Digested, Holds;
      if finished { return Some(UpdateAfterFinish); }
      ghost var all, start := message + data, |message|;
      HoldsExtended(all);
      assert all[start..] == data;
      totalBytes := (totalBytes + |data|) % MODULUS;
      message := all;
      var p := 0;
      if buffered != 0 {
        p := TopUp(all, start, data);
      }
      p := TakeBlocks(all, start, data, p);
      if p != |data| {
        assert data[p..] == all[start + p..|all|];
        Append(all, start + p, data[p..]);
      }
      misuse := None;
    }

    // The 0x80 marker, and zeros up to a block boundary when the length no longer fits.
    method CloseMessage(ghost all: seq<byte>, ghost n: nat) returns (ghost fed: nat)
      requires Holds(all, n) && buffered < 64 && PaddedTail(all, n)
      modifies state, buffer, `buffered
      ensures Holds(all, fed) && n < fed && buffered <= 56 && fed - buffered == |all| - 64
    {
      hide Digested, Holds;
      Aligned(all, n);
      Append(all, n, [0x80]);
      fed := n + 1;
      if buffered > 56 {
        var fill := Zeros(64 - buffered);
        Append(all, fed, fill);
        fed := fed + |fill|;
        Flush(all, fed);
      }
    }

    method Finish() returns (r: Result<seq<byte>, Misuse>)
      requires Valid()
      modifies this, state, buffer
      ensures Valid() && finished && message == old(message)
      ensures r == if old(finished) then Err(FinishTwice) else Ok(Hash(message))
    {
      hide Digested, Pad, BigEndian, DigestBytes, Holds;
      if finished { return Err(FinishTwice); }
      var bitCount := (totalBytes * 8) % MODULUS;
      ghost var all := Pad(message);
      PadLayout(message);
      BigEndianWraps(|message|);
      HoldsExtended(all);
      ghost var fed := CloseMessage(all, |message|);
      Append(all, fed, Zeros(56 - buffered));
      Append(all, |all| - 8, BigEndian(bitCount, 8));
      Flush(all, |all|);
      FullyDigested(all);
      finished := true;
      r := Ok(DigestBytes(state[..], message));
    }

    lemma Aligned(all: seq<byte>, fed: nat)
      requires Holds(all, fed)
      ensures buffered <= fed <= |all| && buffered <= 64 && (fed - buffered) % 64 == 0
    {
    }

    lemma FullyDigested(all: seq<byte>)
      requires Holds(all, |all|) && buffered == 0
      ensures Digested(state[..], all)
    {
      assert all[..|all|] == all;
    }

    lemma HoldsExtended(all: seq<byte>)
      requires Holds(message, |message|) && message <= all
      ensures Holds(all, |message|)
    {
      assert all[..|message| - buffered] == message[..|message| - buffered];
      assert all[|message| - buffered..|message|] == message[|message| - buffered..];
    }
  }

  function DigestBytes(state: seq<Word>, ghost message: seq<byte>): (digest: seq<byte>)
    requires Digested(state, Pad(message))
    ensures digest == Hash(message)
  {
    StateBytes(state)
  }

  // Past the message: the marker, zeros up to the length field, and no spare block.
  ghost predicate PaddedTail(all: seq<byte>, n: nat) {
    && |all| == n - n % 64 + (if n % 64 < 56 then 64 else 128)
    && all[n] == 0x80
    && forall i | n < i < |all| - 8 :: all[i] == 0
  }

  lemma PadLayout(message: seq<byte>)
    ensures message <= Pad(message) && PaddedTail(Pad(message), |message|)
    ensures Pad(message)[|Pad(message)| - 8..] == BigEndian(8 * |message|, 8)
  {
  }

  // Only the low bytes of a number reach its big-endian form ...
  lemma {:induction false} BigEndianLow(value: nat, q: nat, n: nat)
    ensures BigEndian(value + q * Pow256(n), n) == BigEndian(value, n)
  {
    if n > 0 {
      var rest := q * Pow256(n - 1);
      assert value + q * Pow256(n) == value + 256 * rest;
      assert (value + 256 * rest) / 256 == value / 256 + rest;
      BigEndianLow(value / 256, q, n - 1);
    }
  }

  lemma Pow256Of8()
    ensures Pow256(8) == MODULUS
  {
    assert Pow256(4) == 0x1_0000_0000;
  }

  // ... so the counter's 64-bit wrap-around loses nothing the padding keeps.
  lemma BigEndianWraps(length: nat)
    ensures BigEndian(8 * length, 8) == BigEndian((length % MODULUS * 8) % MODULUS, 8)
  {
    hide BigEndian;
    var wrapped := (length % MODULUS * 8) % MODULUS;
    var q := 8 * (length / MODULUS) + (length % MODULUS * 8) / MODULUS;
    assert 8 * length == wrapped + q * MODULUS;
    Pow256Of8();
    BigEndianLow(wrapped, q, 8);
  }

  method Sha256(data: seq<byte>) returns (digest: seq<byte>)
    ensures digest == Hash(data)
  {
    hide Hash, Hasher.Holds, Digested;
    var h := new Hasher();
    assert h.message + data == data;
    var misuse := h.Update(data);
    var r := h.Finish();
    digest := r.value;
  }

  function Flatten(chunks: seq<seq<byte>>): seq<byte> {
    if chunks == [] then [] else Flatten(chunks[..|chunks| - 1]) + chunks[|chunks| - 1]
  }

  // However a message is cut into updates, the digest is the digest of the whole.
  method HashChunks(chunks: seq<seq<byte>>) returns (digest: seq<byte>)
    ensures digest == Hash(Flatten(chunks))
  {
    hide Hash, Hasher.Holds, Digested;
    var h := new Hasher();
    for i := 0 to |chunks|
      invariant fresh(h) && fresh(h.state) && fresh(h.buffer)
      invariant h.Valid() && !h.finished && h.message == Flatten(chunks[..i])
    {
      assert chunks[..i + 1][..i] == chunks[..i];
      var misuse := h.Update(chunks[i]);
    }
    assert chunks[..|chunks|] == chunks;
    var r := h.Finish();
    digest := r.value;
  }
}

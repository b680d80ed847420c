// Text as Unicode code points: what their UTF-8 bytes are seeded with, and what the
// tokenizer's small rules on characters and byte tokens mean.
module Utf8Text {
  import opened Prelude
  import opened NaiveBpe
  import opened MergeRecords
  import opened Tokenizer

  type CodePoint = c: nat | c < 0x11_0000

  // The bytes of one code point (RFC 3629, section 3).
  function Utf8(c: CodePoint): (bytes: Piece)
    ensures 1 <= |bytes| <= 4
  {
    if c < 0x80 then [c]
    else if c < 0x800 then [0xC0 + c / 64, 0x80 + c % 64]
    else if c < 0x1_0000 then [0xE0 + c / 4096, 0x80 + c / 64 % 64, 0x80 + c % 64]
    else [0xF0 + c / 262144, 0x80 + c / 4096 % 64, 0x80 + c / 64 % 64, 0x80 + c % 64]
  }

  function TextOf(cs: seq<CodePoint>): Piece {
    if cs == [] then [] else Utf8(cs[0]) + TextOf(cs[1..])
  }

  // The length is told by the first byte; bytes that start no character count one.
  lemma LeadTells(c: CodePoint)
    ensures Utf8Len(Utf8(c)[0]) == |Utf8(c)|
  {
  }

  lemma OtherLeads(b: byte)
    ensures Utf8Len(b) == 1 <==> b < 0xC0 || b >= 0xF8
  {
  }

  lemma MarkerIs()
    ensures SPACE_MARKER == Utf8(0x2581) && Utf8(0x20) == [SPACE]
  {
  }

  // ---- Byte tokens ----

  // A character that writes the hexadecimal digit d.
  predicate WritesDigit(c: byte, d: nat) {
    d < 16 && (c == "0123456789ABCDEF"[d] as int || c == "0123456789abcdef"[d] as int)
  }

  lemma HexMeans(c: byte, d: nat)
    ensures HexDigit(c) == Some(d) <==> WritesDigit(c, d)
  {
    assert d < 10 ==> "0123456789ABCDEF"[d] as int == 48 + d;
  }

  // "<0x", two digits, ">".
  lemma ByteTokenMeans(piece: Piece, b: byte)
    ensures ParseByteToken(piece) == Some(b) <==>
      && |piece| == 6 && piece[..3] == ['<' as int, '0' as int, 'x' as int] && piece[5] == '>' as int
      && WritesDigit(piece[3], b / 16) && WritesDigit(piece[4], b % 16)
  {
    hide HexDigit, WritesDigit;
    if |piece| == 6 {
      HexMeans(piece[3], b / 16);
      HexMeans(piece[4], b % 16);
      DigitSmall(piece[3]);
      DigitSmall(piece[4]);
      assert piece[..3] == [60, 48, 120] <==> piece[0] == 60 && piece[1] == 48 && piece[2] == 120;
    }
  }

  lemma DigitSmall(c: byte)
    ensures HexDigit(c).Some? ==> HexDigit(c).value < 16
  {
  }

  // ---- Normalization ----

  // Spaces become the marker; nothing else changes.
  lemma {:induction false} NormalizeMeans(cs: seq<CodePoint>)
    ensures Normalize(TextOf(cs)) == TextOf(Marked(cs))
  {
    hide Utf8, Normalize;
    if cs == [] {
      NothingNormalized();
    } else {
      NormalizeMeans(cs[1..]);
      CharNormalized(cs[0]);
      NormalizeAppends(Utf8(cs[0]), TextOf(cs[1..]));
      assert Marked(cs)[1..] == Marked(cs[1..]);
    }
  }

  function Marked(cs: seq<CodePoint>): (ms: seq<CodePoint>)
    ensures |ms| == |cs| && forall i | 0 <= i < |cs| :: ms[i] == if cs[i] == 0x20 then 0x2581 else cs[i]
  {
    seq(|cs|, i requires 0 <= i < |cs| => if cs[i] == 0x20 then 0x2581 else cs[i])
  }

  lemma NothingNormalized()
    ensures Normalize([]) == []
  {
  }

  lemma {:induction false} NormalizeAppends(a: Piece, b: Piece)
    ensures Normalize(a + b) == Normalize(a) + Normalize(b)
  {
    if a == [] {
      assert a + b == b;
    } else {
      assert (a + b)[1..] == a[1..] + b;
      NormalizeAppends(a[1..], b);
    }
  }

  lemma {:induction false} OthersStay(bytes: Piece)
    requires forall i | 0 <= i < |bytes| :: bytes[i] != 0x20
    ensures Normalize(bytes) == bytes
  {
    if bytes != [] { OthersStay(bytes[1..]); }
  }

  lemma CharNormalized(c: CodePoint)
    ensures Normalize(Utf8(c)) == Utf8(if c == 0x20 then 0x2581 else c)
  {
    MarkerIs();
    if c == 0x20 {
      assert Normalize([0x20]) == SPACE_MARKER + Normalize([]);
    } else {
      OthersStay(Utf8(c));
    }
  }

  // ---- Seeds ----

  // What one character is seeded with: the first token that is the character, or for each
  // of its bytes the last token that names the byte, or the unknown token.
  ghost predicate SeededWith(v: Vocabulary, ch: Piece, ids: seq<int>) {
    if ch in v.tokens then |ids| == 1 && 0 <= ids[0] && FirstId(v.tokens, ids[0]) && v.tokens[ids[0]] == ch
    else |ids| == |ch| && forall i | 0 <= i < |ch| :: ByteSeed(v, ch[i], ids[i])
  }

  ghost predicate ByteSeed(v: Vocabulary, b: byte, id: int) {
    if NoByteToken(v.tokens, b) then id == v.unk
    else
      && 0 <= id < |v.tokens| && ParseByteToken(v.tokens[id]) == Some(b)
      && forall k | id < k < |v.tokens| :: ParseByteToken(v.tokens[k]) != Some(b)
  }

  // Every token that is one character is found as that character.
  lemma CharacterFound(v: Vocabulary, c: CodePoint)
    requires Usable(v)
    ensures Utf8(c) in v.charIx <==> Utf8(c) in v.tokens
  {
    hide Utf8, Utf8Len;
    LeadTells(c);
    assert IsSingleCodepoint(Utf8(c));
    assert v.tokens[..|v.tokens|] == v.tokens;
  }

  lemma CharSeeded(v: Vocabulary, c: CodePoint)
    requires Usable(v)
    ensures SeededWith(v, Utf8(c), CharIds(v, Utf8(c)))
  {
    hide Utf8, ParseByteToken, IsSingleCodepoint, ByteSeed;
    CharacterFound(v, c);
    var ch := Utf8(c);
    if ch !in v.tokens {
      forall i | 0 <= i < |ch| ensures ByteSeed(v, ch[i], CharIds(v, ch)[i]) { ByteSeeded(v, ch[i]); }
    }
  }

  lemma ByteSeeded(v: Vocabulary, b: byte)
    requires Usable(v)
    ensures ByteSeed(v, b, if v.byteId[b] >= 0 then v.byteId[b] else v.unk)
  {
    hide ParseByteToken, IsSingleCodepoint;
    assert v.tokens[..|v.tokens|] == v.tokens;
    if v.byteId[b] >= 0 {
      assert v.tokens[v.byteId[b]] in v.tokens;
      forall k | v.byteId[b] < k < |v.tokens| ensures ParseByteToken(v.tokens[k]) != Some(b) {
        assert v.tokens[v.byteId[b] + 1..|v.tokens|][k - v.byteId[b] - 1] == v.tokens[k];
      }
    }
  }

  // A text is seeded character by character.
  lemma {:induction false} TextSeeded(v: Vocabulary, cs: seq<CodePoint>) returns (parts: seq<seq<int>>)
    requires Usable(v)
    ensures |parts| == |cs| && forall i | 0 <= i < |cs| :: SeededWith(v, Utf8(cs[i]), parts[i])
    ensures Seeds(v, TextOf(cs)) == Flat(parts)
  {
    hide Utf8, SeededWith, Usable, CharIds, Utf8Len;
    ByteTable(v);
    if cs == [] {
      parts := [];
    } else {
      var rest := TextSeeded(v, cs[1..]);
      parts := [CharIds(v, Utf8(cs[0]))] + rest;
      LeadTells(cs[0]);
      CharSeeded(v, cs[0]);
      var s := TextOf(cs);
      assert s == Utf8(cs[0]) + TextOf(cs[1..]);
      assert CharLength(s) == |Utf8(cs[0])|;
      assert s[..CharLength(s)] == Utf8(cs[0]) && s[CharLength(s)..] == TextOf(cs[1..]);
      assert parts[1..] == rest;
    }
  }

  lemma ByteTable(v: Vocabulary)
    requires Usable(v)
    ensures |v.byteId| == 256
  {
  }

  function Flat(parts: seq<seq<int>>): seq<int> {
    if parts == [] then [] else parts[0] + Flat(parts[1..])
  }
}

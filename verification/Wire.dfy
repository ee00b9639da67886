/** The packet format: five 32-bit words, most significant byte first. */
module Wire {
  import opened Messages

  newtype byte = b: int | 0 <= b < 256

  const MAX_STRUCT_SIZE := 20
  const DATAMSG_TYPE := 1
  const ACKMSG_TYPE := 2
  const SEQMSG_TYPE := 3
  const WORD := 0x1_0000_0000

  /** The four bytes stored for `v`; storing into a byte drops all higher bits. */
  function WordBytes(v: nat): seq<byte> {
    [(v / 0x100_0000 % 256) as byte, (v / 0x1_0000 % 256) as byte, (v / 0x100 % 256) as byte, (v % 256) as byte]
  }

  function WordAt(s: seq<byte>, offset: nat): nat
    requires offset + 4 <= |s|
  {
    s[offset] as nat * 0x100_0000 + s[offset + 1] as nat * 0x1_0000
    + s[offset + 2] as nat * 0x100 + s[offset + 3] as nat
  }

  lemma LowHalf(v: nat)
    ensures v % 0x1_0000 == v / 0x100 % 256 * 0x100 + v % 256
  {
    var q := v / 0x100;
    assert v == 0x1_0000 * (q / 256) + (q % 256 * 0x100 + v % 256);
  }

  lemma LowThree(v: nat)
    ensures v % 0x100_0000 == v / 0x1_0000 % 256 * 0x1_0000 + v % 0x1_0000
  {
    var q := v / 0x1_0000;
    assert v == 0x100_0000 * (q / 256) + (q % 256 * 0x1_0000 + v % 0x1_0000);
  }

  lemma WholeWord(v: nat)
    ensures v % WORD == v / 0x100_0000 % 256 * 0x100_0000 + v % 0x100_0000
  {
    var q := v / 0x100_0000;
    assert v == WORD * (q / 256) + (q % 256 * 0x100_0000 + v % 0x100_0000);
  }

  /** What is read back is the number stored, modulo the word size. */
  lemma WordRoundTrip(s: seq<byte>, offset: nat, v: nat)
    requires offset + 4 <= |s| && s[offset..offset + 4] == WordBytes(v)
    ensures WordAt(s, offset) == v % WORD
  {
    var t := s[offset..offset + 4];
    assert t[0] == s[offset] && t[1] == s[offset + 1] && t[2] == s[offset + 2] && t[3] == s[offset + 3];
    LowHalf(v);
    LowThree(v);
    WholeWord(v);
  }

  function Words(p: Payload): seq<nat> {
    match p
    case DataPayload(d) => [DATAMSG_TYPE, d.sender, d.msgId, d.data]
    case AckPayload(a) => [ACKMSG_TYPE, a.sender, a.msgId, a.proposedSeq, a.proposer]
    case SeqPayload(m) => [SEQMSG_TYPE, m.sender, m.msgId, m.finalSeq, m.finalSeqProposer]
  }

  /** `s` starts with the words of `p`; what follows is arbitrary. */
  ghost predicate Encodes(s: seq<byte>, p: Payload) {
    |s| == MAX_STRUCT_SIZE && StartsWith(s, Words(p))
  }

  ghost predicate StartsWith(s: seq<byte>, ws: seq<nat>) {
    && 4 * |ws| <= |s|
    && forall i :: 0 <= i < |ws| ==> s[4 * i..4 * i + 4] == WordBytes(ws[i])
  }

  /** What the receiver makes of a packet: the leading word selects the deserializer. */
  datatype Decoded = Recognised(payload: Payload) | WrongType(word: nat)

  function Decode(s: seq<byte>): Decoded
    requires |s| == MAX_STRUCT_SIZE
  {
    var w := WordAt(s, 0);
    if w == DATAMSG_TYPE then
      Recognised(DataPayload(DataMessage(WordAt(s, 4), WordAt(s, 8), WordAt(s, 12))))
    else if w == ACKMSG_TYPE then
      Recognised(AckPayload(AckMessage(WordAt(s, 4), WordAt(s, 8), WordAt(s, 12), WordAt(s, 16))))
    else if w == SEQMSG_TYPE then
      Recognised(SeqPayload(SeqMessage(WordAt(s, 4), WordAt(s, 8), WordAt(s, 12), WordAt(s, 16))))
    else
      WrongType(w)
  }

  ghost predicate Fits(p: Payload) {
    forall i :: 0 <= i < |Words(p)| ==> Words(p)[i] < WORD
  }

  lemma WordsReadBack(s: seq<byte>, p: Payload)
    requires Encodes(s, p)
    ensures |s| == MAX_STRUCT_SIZE
    ensures forall i :: 0 <= i < |Words(p)| ==> WordAt(s, 4 * i) == Words(p)[i] % WORD
  {
    forall i | 0 <= i < |Words(p)| ensures WordAt(s, 4 * i) == Words(p)[i] % WORD {
      WordRoundTrip(s, 4 * i, Words(p)[i]);
    }
  }

  /** The message with every field cut to 32 bits. */
  function Truncated(p: Payload): Payload {
    match p
    case DataPayload(d) => DataPayload(DataMessage(d.sender % WORD, d.msgId % WORD, d.data % WORD))
    case AckPayload(a) =>
      AckPayload(AckMessage(a.sender % WORD, a.msgId % WORD, a.proposedSeq % WORD, a.proposer % WORD))
    case SeqPayload(m) =>
      SeqPayload(SeqMessage(m.sender % WORD, m.msgId % WORD, m.finalSeq % WORD, m.finalSeqProposer % WORD))
  }

  /** Every packet is dispatched to the deserializer of its kind, which gives back the fields cut
      to 32 bits, whatever the unused bytes hold. */
  lemma DecodesTruncated(s: seq<byte>, p: Payload)
    requires Encodes(s, p)
    ensures Decode(s) == Recognised(Truncated(p))
  {
    hide Encodes, WordAt;
    WordsReadBack(s, p);
    assert WordAt(s, 4 * 0) == Words(p)[0] % WORD && WordAt(s, 4 * 1) == Words(p)[1] % WORD;
    assert WordAt(s, 4 * 2) == Words(p)[2] % WORD && WordAt(s, 4 * 3) == Words(p)[3] % WORD;
    if |Words(p)| == 5 { assert WordAt(s, 4 * 4) == Words(p)[4] % WORD; }
  }

  lemma TruncatedSame(p: Payload)
    ensures Truncated(p) == p <==> Fits(p)
  {
    var ws := Words(p);
    assert Fits(p) ==> ws[1] < WORD && ws[2] < WORD && ws[3] < WORD && (|ws| == 5 ==> ws[4] < WORD);
  }

  /** A message comes back as it was sent exactly if its fields fit 32 bits. */
  lemma RoundTrip(s: seq<byte>, p: Payload)
    requires Encodes(s, p)
    ensures Decode(s) == Recognised(p) <==> Fits(p)
  {
    hide Encodes, Fits, Truncated;
    DecodesTruncated(s, p);
    TruncatedSame(p);
  }

  // ---------- byte by byte ----------

  /** The number that bytes stand for, most significant first. */
  function Number(bytes: seq<byte>): nat {
    if bytes == [] then 0 else Number(bytes[..|bytes| - 1]) * 256 + bytes[|bytes| - 1] as nat
  }

  lemma OneMoreByte(bytes: seq<byte>, b: byte)
    ensures Number(bytes + [b]) == Number(bytes) * 256 + b as nat
  {
    assert (bytes + [b])[..|bytes|] == bytes;
  }

  lemma NumberOfFour(a: byte, b: byte, c: byte, d: byte)
    ensures Number([a, b, c, d]) == ((a as nat * 256 + b as nat) * 256 + c as nat) * 256 + d as nat
  {
    hide Number;
    OneMoreByte([], a);
    OneMoreByte([a], b);
    OneMoreByte([a, b], c);
    OneMoreByte([a, b, c], d);
    assert [] + [a] == [a] && [a] + [b] == [a, b] && [a, b] + [c] == [a, b, c] && [a, b, c] + [d] == [a, b, c, d];
    assert Number([]) == 0 by { NumberOfNone(); }
  }

  lemma NumberOfNone()
    ensures Number([]) == 0
  {
  }

  lemma WordIsNumber(s: seq<byte>, i: nat)
    requires i + 4 <= |s|
    ensures WordAt(s, i) == Number(s[i..i + 4])
  {
    assert s[i..i + 4] == [s[i], s[i + 1], s[i + 2], s[i + 3]];
    NumberOfFour(s[i], s[i + 1], s[i + 2], s[i + 3]);
  }

  lemma NumberOfWord(v: nat)
    ensures Number(WordBytes(v)) == v % WORD
  {
    var bytes := WordBytes(v);
    WordRoundTrip(bytes, 0, v);
    WordIsNumber(bytes, 0);
    assert bytes[0..4] == bytes;
  }

  /** Four bytes are determined by their number. */
  lemma {:induction false} NumberIdentifies(a: seq<byte>, b: seq<byte>)
    requires |a| == |b| && Number(a) == Number(b)
    ensures a == b
  {
    if a != [] {
      var n := |a| - 1;
      assert a[n] == b[n] && Number(a[..n]) == Number(b[..n]) by {
        LastDigit(Number(a[..n]), a[n], Number(b[..n]), b[n]);
      }
      NumberIdentifies(a[..n], b[..n]);
      assert a == a[..n] + [a[n]] && b == b[..n] + [b[n]];
    }
  }

  lemma LastDigit(m: nat, a: byte, n: nat, b: byte)
    requires m * 256 + a as nat == n * 256 + b as nat
    ensures m == n && a == b
  {
  }

  lemma IsWord(bytes: seq<byte>, v: nat)
    requires |bytes| == 4
    ensures bytes == WordBytes(v) <==> Number(bytes) == v % WORD
  {
    NumberOfWord(v);
    if Number(bytes) == v % WORD { NumberIdentifies(bytes, WordBytes(v)); }
  }

  /** The layout of a packet: 20 bytes, of which the first four name the kind. */
  ghost predicate Layout(s: seq<byte>, p: Payload) {
    && |s| == 20
    && match p
       case DataPayload(d) =>
         && s[..4] == [0, 0, 0, 1]
         && Number(s[4..8]) == d.sender % 0x1_0000_0000 && Number(s[8..12]) == d.msgId % 0x1_0000_0000
         && Number(s[12..16]) == d.data % 0x1_0000_0000
       case AckPayload(a) =>
         && s[..4] == [0, 0, 0, 2]
         && Number(s[4..8]) == a.sender % 0x1_0000_0000 && Number(s[8..12]) == a.msgId % 0x1_0000_0000
         && Number(s[12..16]) == a.proposedSeq % 0x1_0000_0000 && Number(s[16..20]) == a.proposer % 0x1_0000_0000
       case SeqPayload(m) =>
         && s[..4] == [0, 0, 0, 3]
         && Number(s[4..8]) == m.sender % 0x1_0000_0000 && Number(s[8..12]) == m.msgId % 0x1_0000_0000
         && Number(s[12..16]) == m.finalSeq % 0x1_0000_0000
         && Number(s[16..20]) == m.finalSeqProposer % 0x1_0000_0000
  }

  lemma FirstWord(s: seq<byte>, kind: byte)
    requires |s| == 20
    ensures s[..4] == [0, 0, 0, kind] <==> s[0..4] == WordBytes(kind as nat)
  {
    assert s[..4] == s[0..4];
  }

  /** The words of `ws`, one by one. */
  lemma StartsWithEach(s: seq<byte>, ws: seq<nat>)
    requires |s| == 20 && 4 <= |ws| <= 5
    ensures StartsWith(s, ws)
            <==> && s[0..4] == WordBytes(ws[0]) && s[4..8] == WordBytes(ws[1]) && s[8..12] == WordBytes(ws[2])
                 && s[12..16] == WordBytes(ws[3]) && (|ws| == 5 ==> s[16..20] == WordBytes(ws[4]))
  {
    hide WordBytes;
    if StartsWith(s, ws) {
      assert s[4 * 0..4 * 0 + 4] == WordBytes(ws[0]) && s[4 * 1..4 * 1 + 4] == WordBytes(ws[1]);
      assert s[4 * 2..4 * 2 + 4] == WordBytes(ws[2]) && s[4 * 3..4 * 3 + 4] == WordBytes(ws[3]);
      assert |ws| == 5 ==> s[4 * 4..4 * 4 + 4] == WordBytes(ws[4]);
    }
  }

  /** What the serializers write is the layout, and nothing else is. */
  lemma EncodesIsLayout(s: seq<byte>, p: Payload)
    ensures Encodes(s, p) <==> Layout(s, p)
  {
    if |s| == 20 {
      hide StartsWith, WordBytes, Number;
      var ws := Words(p);
      StartsWithEach(s, ws);
      FirstWord(s, 1);
      FirstWord(s, 2);
      FirstWord(s, 3);
      IsWord(s[4..8], ws[1]);
      IsWord(s[8..12], ws[2]);
      IsWord(s[12..16], ws[3]);
      if |ws| == 5 { IsWord(s[16..20], ws[4]); }
    }
  }

  lemma FirstNumber(s: seq<byte>, kind: byte)
    requires |s| == 20
    ensures s[..4] == [0, 0, 0, kind] <==> Number(s[0..4]) == kind as nat
  {
    FirstWord(s, kind);
    IsWord(s[0..4], kind as nat);
  }

  /** What the receiver reads from any 20 bytes. */
  lemma DecodesLayout(s: seq<byte>)
    requires |s| == 20
    ensures s[..4] == [0, 0, 0, 1] ==>
              Decode(s) == Recognised(DataPayload(DataMessage(Number(s[4..8]), Number(s[8..12]), Number(s[12..16]))))
    ensures s[..4] == [0, 0, 0, 2] ==>
              Decode(s) == Recognised(AckPayload(AckMessage(Number(s[4..8]), Number(s[8..12]), Number(s[12..16]),
                                                            Number(s[16..20]))))
    ensures s[..4] == [0, 0, 0, 3] ==>
              Decode(s) == Recognised(SeqPayload(SeqMessage(Number(s[4..8]), Number(s[8..12]), Number(s[12..16]),
                                                            Number(s[16..20]))))
    ensures Decode(s).WrongType? <==> s[..4] !in {[0, 0, 0, 1], [0, 0, 0, 2], [0, 0, 0, 3]}
  {
    hide Number, WordAt;
    WordIsNumber(s, 0);
    WordIsNumber(s, 4);
    WordIsNumber(s, 8);
    WordIsNumber(s, 12);
    WordIsNumber(s, 16);
    FirstNumber(s, 1);
    FirstNumber(s, 2);
    FirstNumber(s, 3);
  }

  // ---------- in place ----------

  method PackI32(buf: array<byte>, offset: nat, i: nat)
    requires offset + 4 <= buf.Length
    modifies buf
    ensures buf[offset..offset + 4] == WordBytes(i)
    ensures buf[..offset] == old(buf[..offset]) && buf[offset + 4..] == old(buf[offset + 4..])
  {
    buf[offset] := (i / 0x100_0000 % 256) as byte;
    buf[offset + 1] := (i / 0x1_0000 % 256) as byte;
    buf[offset + 2] := (i / 0x100 % 256) as byte;
    buf[offset + 3] := (i % 256) as byte;
  }

  method UnpackU32(buf: array<byte>, offset: nat) returns (i: nat)
    requires offset + 4 <= buf.Length
    ensures i == WordAt(buf[..], offset) && i < WORD
  {
    i := buf[offset] as nat * 0x100_0000 + buf[offset + 1] as nat * 0x1_0000
         + buf[offset + 2] as nat * 0x100 + buf[offset + 3] as nat;
  }

  lemma OneMoreWord(s: seq<byte>, t: seq<byte>, ws: seq<nat>, v: nat)
    requires StartsWith(s, ws) && |t| == |s| && 4 * |ws| + 4 <= |s|
    requires t[..4 * |ws|] == s[..4 * |ws|] && t[4 * |ws|..4 * |ws| + 4] == WordBytes(v)
    ensures StartsWith(t, ws + [v])
  {
    var ws' := ws + [v];
    forall i | 0 <= i < |ws'| ensures t[4 * i..4 * i + 4] == WordBytes(ws'[i]) {
      if i < |ws| {
        assert t[4 * i..4 * i + 4] == t[..4 * |ws|][4 * i..4 * i + 4];
        assert s[4 * i..4 * i + 4] == s[..4 * |ws|][4 * i..4 * i + 4];
      }
    }
  }

  /** Packs word `i` of `ws` behind the words before it. */
  method PackWord(buf: array<byte>, ghost ws: seq<nat>, i: nat, v: nat)
    requires i < |ws| && v == ws[i] && 4 * i + 4 <= buf.Length && StartsWith(buf[..], ws[..i])
    modifies buf
    ensures StartsWith(buf[..], ws[..i + 1])
    ensures forall k :: 4 * i + 4 <= k < buf.Length ==> buf[k] == old(buf[k])
  {
    hide StartsWith, WordBytes;
    ghost var before := buf[..];
    PackI32(buf, 4 * i, v);
    assert forall k :: 4 * i + 4 <= k < buf.Length ==> buf[k] == buf[4 * i + 4..][k - (4 * i + 4)];
    assert buf[..][..4 * i] == before[..4 * i] && buf[..][4 * i..4 * i + 4] == buf[4 * i..4 * i + 4];
    OneMoreWord(before, buf[..], ws[..i], v);
    assert ws[..i] + [v] == ws[..i + 1];
  }

  method SerializeDataMessage(d: DataMessage, buf: array<byte>)
    requires buf.Length == MAX_STRUCT_SIZE
    modifies buf
    ensures Encodes(buf[..], DataPayload(d)) && Layout(buf[..], DataPayload(d))
    ensures buf[16..] == old(buf[16..])
  {
    hide StartsWith, Layout;
    ghost var ws := Words(DataPayload(d));
    NoWords(buf[..], ws);
    PackWord(buf, ws, 0, DATAMSG_TYPE);
    PackWord(buf, ws, 1, d.sender);
    PackWord(buf, ws, 2, d.msgId);
    PackWord(buf, ws, 3, d.data);
    assert ws[..4] == ws;
    EncodesIsLayout(buf[..], DataPayload(d));
  }

  method SerializeAckMessage(a: AckMessage, buf: array<byte>)
    requires buf.Length == MAX_STRUCT_SIZE
    modifies buf
    ensures Encodes(buf[..], AckPayload(a)) && Layout(buf[..], AckPayload(a))
  {
    hide StartsWith, Layout;
    ghost var ws := Words(AckPayload(a));
    NoWords(buf[..], ws);
    PackWord(buf, ws, 0, ACKMSG_TYPE);
    PackWord(buf, ws, 1, a.sender);
    PackWord(buf, ws, 2, a.msgId);
    PackWord(buf, ws, 3, a.proposedSeq);
    PackWord(buf, ws, 4, a.proposer);
    assert ws[..5] == ws;
    EncodesIsLayout(buf[..], AckPayload(a));
  }

  method SerializeSeqMessage(m: SeqMessage, buf: array<byte>)
    requires buf.Length == MAX_STRUCT_SIZE
    modifies buf
    ensures Encodes(buf[..], SeqPayload(m)) && Layout(buf[..], SeqPayload(m))
  {
    hide StartsWith, Layout;
    ghost var ws := Words(SeqPayload(m));
    NoWords(buf[..], ws);
    PackWord(buf, ws, 0, SEQMSG_TYPE);
    PackWord(buf, ws, 1, m.sender);
    PackWord(buf, ws, 2, m.msgId);
    PackWord(buf, ws, 3, m.finalSeq);
    PackWord(buf, ws, 4, m.finalSeqProposer);
    assert ws[..5] == ws;
    EncodesIsLayout(buf[..], SeqPayload(m));
  }

  lemma NoWords(s: seq<byte>, ws: seq<nat>)
    ensures StartsWith(s, ws[..0])
  {
  }

  /** Reads the type word and then the fields of that type. */
  method Deserialize(buf: array<byte>) returns (r: Decoded)
    requires buf.Length == MAX_STRUCT_SIZE
    ensures r == Decode(buf[..])
  {
    hide WordAt;
    var w := UnpackU32(buf, 0);
    var x := UnpackU32(buf, 4);
    var y := UnpackU32(buf, 8);
    var z := UnpackU32(buf, 12);
    var t := UnpackU32(buf, 16);
    if w == DATAMSG_TYPE {
      return Recognised(DataPayload(DataMessage(x, y, z)));
    } else if w == ACKMSG_TYPE {
      return Recognised(AckPayload(AckMessage(x, y, z, t)));
    } else if w == SEQMSG_TYPE {
      return Recognised(SeqPayload(SeqMessage(x, y, z, t)));
    }
    return WrongType(w);
  }
}

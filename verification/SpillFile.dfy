/** The probe spill file (sim-cluster/src/probe_log.rs): 19-byte little-endian records, appended
    one at a time, read back up to a length taken earlier. */
module SpillFile {
  import opened Prelude

  type byte = x: int | 0 <= x < 256
  type u16 = x: int | 0 <= x < 0x1_0000

  datatype ProbeKind = Digital | Uart | Analog

  datatype Record = Record(probeId: u64, time: u64, kind: ProbeKind, value: u16)

  const SPILL_REC := 19

  // ---- little-endian numbers ----

  function Pow256(n: nat): (r: nat)
    ensures r > 0
  {
    if n == 0 then 1 else 256 * Pow256(n - 1)
  }

  function ToLE(v: nat, n: nat): (r: seq<byte>)
    ensures |r| == n
    decreases n, v
  {
    if n == 0 then [] else [v % 256] + ToLE(v / 256, n - 1)
  }

  function FromLE(bytes: seq<byte>): (v: nat)
    ensures v < Pow256(|bytes|)
  {
    if bytes == [] then 0 else bytes[0] + 256 * FromLE(bytes[1..])
  }

  lemma {:induction false} LERoundTrip(v: nat, n: nat)
    requires v < Pow256(n)
    ensures FromLE(ToLE(v, n)) == v
    decreases n, v
  {
    if n > 0 {
      LERoundTrip(v / 256, n - 1);
      assert ToLE(v, n)[1..] == ToLE(v / 256, n - 1);
    }
  }

  lemma Widths()
    ensures Pow256(8) == U64_MAX + 1 && Pow256(2) == 0x1_0000
  {
    assert Pow256(1) == 256 && Pow256(2) == 0x1_0000 && Pow256(4) == 0x1_0000_0000 by {
      assert Pow256(3) == 0x100_0000;
    }
    assert Pow256(6) == 0x1_0000_0000_0000 by {
      assert Pow256(5) == 0x100_0000_0000;
    }
    assert Pow256(7) == 0x100_0000_0000_0000;
  }

  /** `to_le_bytes` and `from_le_bytes` of a 64-bit and a 16-bit number. */
  function U64Bytes(v: u64): (r: seq<byte>)
    ensures |r| == 8
  {
    ToLE(v, 8)
  }

  function U16Bytes(v: u16): (r: seq<byte>)
    ensures |r| == 2
  {
    ToLE(v, 2)
  }

  function U64At(bytes: seq<byte>): u64
    requires |bytes| == 8
  {
    Widths();
    FromLE(bytes)
  }

  function U16At(bytes: seq<byte>): u16
    requires |bytes| == 2
  {
    Widths();
    FromLE(bytes)
  }

  lemma NumbersRoundTrip(v: u64, w: u16)
    ensures U64At(U64Bytes(v)) == v && U16At(U16Bytes(w)) == w
  {
    Widths();
    LERoundTrip(v, 8);
    LERoundTrip(w, 2);
  }

  // ---- records ----

  function KindByte(kind: ProbeKind): byte {
    match kind
    case Digital => 1
    case Uart => 2
    case Analog => 3
  }

  function KindOf(b: byte): ProbeKind {
    match b
    case 2 => Uart
    case 3 => Analog
    case _ => Digital
  }

  function Encode(r: Record): (bytes: seq<byte>)
    ensures |bytes| == SPILL_REC
  {
    U64Bytes(r.time) + U64Bytes(r.probeId) + [KindByte(r.kind)] + U16Bytes(r.value)
  }

  function DecodeOne(bytes: seq<byte>): Record
    requires |bytes| == SPILL_REC
  {
    Record(U64At(bytes[8..16]), U64At(bytes[0..8]), KindOf(bytes[16]), U16At(bytes[17..19]))
  }

  lemma Fields(a: seq<byte>, b: seq<byte>, k: byte, c: seq<byte>)
    requires |a| == |b| == 8 && |c| == 2
    ensures var bytes := a + b + [k] + c;
            |bytes| == SPILL_REC && bytes[0..8] == a && bytes[8..16] == b && bytes[16] == k && bytes[17..19] == c
  {
  }

  lemma RecordRoundTrip(r: Record)
    ensures DecodeOne(Encode(r)) == r
  {
    Fields(U64Bytes(r.time), U64Bytes(r.probeId), KindByte(r.kind), U16Bytes(r.value));
    NumbersRoundTrip(r.time, r.value);
    NumbersRoundTrip(r.probeId, r.value);
  }

  // ---- the file ----

  type Chunk = c: seq<byte> | |c| == SPILL_REC witness seq(SPILL_REC, i => 0)

  /** The whole 19-byte chunks at the front; a shorter rest is ignored. */
  function Chunks(bytes: seq<byte>): (r: seq<Chunk>)
    ensures |r| == |bytes| / SPILL_REC
    ensures forall i | 0 <= i < |r| :: r[i] == bytes[i * SPILL_REC..(i + 1) * SPILL_REC]
  {
    seq(|bytes| / SPILL_REC, i requires 0 <= i < |bytes| / SPILL_REC => bytes[i * SPILL_REC..(i + 1) * SPILL_REC])
  }

  function DecodeChunks(chunks: seq<Chunk>): (r: seq<Record>)
    ensures |r| == |chunks| && forall i | 0 <= i < |r| :: r[i] == DecodeOne(chunks[i])
  {
    seq(|chunks|, i requires 0 <= i < |chunks| => DecodeOne(chunks[i]))
  }

  function Decode(bytes: seq<byte>): (r: seq<Record>) {
    DecodeChunks(Chunks(bytes))
  }

  function EncodeAll(rs: seq<Record>): (bytes: seq<byte>)
    ensures |bytes| == SPILL_REC * |rs|
  {
    if rs == [] then [] else EncodeAll(rs[..|rs| - 1]) + Encode(rs[|rs| - 1])
  }

  lemma {:induction false} RecordAt(rs: seq<Record>, i: nat)
    requires i < |rs|
    ensures EncodeAll(rs)[i * SPILL_REC..(i + 1) * SPILL_REC] == Encode(rs[i])
  {
    var n := |rs| - 1;
    var front := EncodeAll(rs[..n]);
    if i < n {
      RecordAt(rs[..n], i);
      assert EncodeAll(rs)[i * SPILL_REC..(i + 1) * SPILL_REC] == front[i * SPILL_REC..(i + 1) * SPILL_REC];
    } else {
      assert EncodeAll(rs)[i * SPILL_REC..(i + 1) * SPILL_REC] == Encode(rs[n]);
    }
  }

  /** What was appended is what is read, even behind a torn record. */
  lemma DecodeIgnoresTornTail(rs: seq<Record>, torn: seq<byte>)
    requires |torn| < SPILL_REC
    ensures Decode(EncodeAll(rs) + torn) == rs
  {
    var bytes := EncodeAll(rs) + torn;
    var got := Decode(bytes);
    assert |got| == |rs|;
    forall i | 0 <= i < |rs| ensures got[i] == rs[i] {
      RecordAt(rs, i);
      assert bytes[i * SPILL_REC..(i + 1) * SPILL_REC] == EncodeAll(rs)[i * SPILL_REC..(i + 1) * SPILL_REC];
      RecordRoundTrip(rs[i]);
    }
  }

  lemma EncodeAppend(rs: seq<Record>, r: Record)
    ensures EncodeAll(rs + [r]) == EncodeAll(rs) + Encode(r)
  {
    assert (rs + [r])[..|rs|] == rs;
  }

  /** `read_spill`: at most `fileLen` bytes of a file that may have grown since. */
  method ReadSpill(file: seq<byte>, fileLen: nat) returns (records: seq<Record>)
    ensures records == Decode(file[..if fileLen < |file| then fileLen else |file|])
  {
    var filled := if fileLen < |file| then fileLen else |file|;
    var buf := file[..filled];
    ghost var chunks := Chunks(buf);
    records := [];
    var offset := 0;
    while offset + SPILL_REC <= filled
      invariant offset == |records| * SPILL_REC <= filled
      invariant forall i | 0 <= i < |records| :: i < |chunks| && records[i] == DecodeOne(chunks[i])
    {
      assert chunks[|records|] == buf[offset..offset + SPILL_REC];
      records := records + [DecodeOne(buf[offset..offset + SPILL_REC])];
      offset := offset + SPILL_REC;
    }
  }
}

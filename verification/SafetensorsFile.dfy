/**
 header, load_tensor and write_tensors of bench/repack_dense_int8.py over whole
 files. JSON is a codec that gives back what it encoded, whatever spaces follow.
 */
module SafetensorsFile {
  import opened Common
  import opened SafetensorsHeader

  type Byte = x: int | 0 <= x < 256

  /** The key of the format record; header never takes it for a tensor. */
  const RESERVED := "__metadata__"

  /** The header object, in order; the format record carries no tensor. */
  type Object = seq<(string, Option<Info>)>

  datatype Codec = Codec(encode: Object -> seq<Byte>, decode: seq<Byte> -> Option<Object>)

  datatype Tensor = Tensor(dtype: Dtype, shape: seq<int>, data: seq<Byte>)

  datatype Error =
    | TruncatedLength
    | HeaderBound
    | TruncatedHeader
    | InvalidJson
    | InvalidTensor
    | PayloadLength
    | UnknownName
    | UnsupportedDtype
    | EmptyBuffer
    | NotContiguous
    | NoByteView

  const SPACE: Byte := 32

  const HEADER_LIMIT := 64 * 1024 * 1024

  function Spaces(n: nat): (s: seq<Byte>)
    ensures |s| == n
  {
    seq(n, _ => SPACE)
  }

  ghost predicate DistinctKeys(o: Object) {
    forall i, j :: 0 <= i < j < |o| ==> o[i].0 != o[j].0
  }

  // ---------- Little-endian lengths ----------

  function Power(k: nat): (p: nat)
    ensures p >= 1
  {
    if k == 0 then 1 else 256 * Power(k - 1)
  }

  /** The k low bytes of n, lowest first. */
  function Pack(n: nat, k: nat): (s: seq<Byte>)
    ensures |s| == k
  {
    if k == 0 then [] else [n % 256] + Pack(n / 256, k - 1)
  }

  function Unpack(s: seq<Byte>): nat {
    if s == [] then 0 else s[0] + 256 * Unpack(s[1..])
  }

  lemma {:induction false} UnpackPack(n: nat, k: nat)
    requires n < Power(k)
    ensures Unpack(Pack(n, k)) == n
  {
    if k > 0 {
      UnpackPack(n / 256, k - 1);
      assert Pack(n, k)[1..] == Pack(n / 256, k - 1);
    }
  }

  /** The eight length bytes, lowest first. */
  lemma {:induction false} UnpackIs(s: seq<Byte>)
    requires |s| == 8
    ensures Unpack(s) == s[0] + 0x100 * (s[1] as int) + 0x1_0000 * (s[2] as int) + 0x100_0000 * (s[3] as int) + 0x1_0000_0000 * (s[4] as int)
      + 0x100_0000_0000 * (s[5] as int) + 0x1_0000_0000_0000 * (s[6] as int) + 0x100_0000_0000_0000 * (s[7] as int)
  {
    UnpackFour(s[4..]);
    assert Unpack(s) == s[0] + 256 * Unpack(s[1..]);
    assert Unpack(s[1..]) == s[1] + 256 * Unpack(s[1..][1..]) && s[1..][1..] == s[2..];
    assert Unpack(s[2..]) == s[2] + 256 * Unpack(s[2..][1..]) && s[2..][1..] == s[3..];
    assert Unpack(s[3..]) == s[3] + 256 * Unpack(s[3..][1..]) && s[3..][1..] == s[4..];
  }

  lemma {:induction false} UnpackFour(s: seq<Byte>)
    requires |s| == 4
    ensures Unpack(s) == s[0] + 0x100 * (s[1] as int) + 0x1_0000 * (s[2] as int) + 0x100_0000 * (s[3] as int)
  {
    assert Unpack(s) == s[0] + 256 * Unpack(s[1..]);
    assert Unpack(s[1..]) == s[1] + 256 * Unpack(s[1..][1..]) && s[1..][1..] == s[2..];
    assert Unpack(s[2..]) == s[2] + 256 * Unpack(s[2..][1..]) && s[2..][1..] == s[3..];
    assert Unpack(s[3..]) == s[3] + 256 * Unpack(s[3..][1..]) && s[3..][1..] == [];
  }

  lemma {:induction false} LimitFits(n: nat)
    requires n <= HEADER_LIMIT
    ensures n < Power(8)
  {
    assert Power(4) == 256 * (256 * (256 * (256 * Power(0))));
    assert Power(8) == 256 * (256 * (256 * (256 * Power(4))));
  }

  // ---------- Reading ----------

  predicate AllTensors(o: Object) {
    forall i :: 0 <= i < |o| ==> o[i].0 == RESERVED || o[i].1.Some?
  }

  /** The entries other than the format record. */
  function EntriesOf(o: Object): (es: seq<(string, Info)>)
    requires AllTensors(o)
  {
    if o == [] then []
    else if o[0].0 == RESERVED then EntriesOf(o[1..])
    else [(o[0].0, o[0].1.value)] + EntriesOf(o[1..])
  }

  function Infos(es: seq<(string, Info)>): (r: seq<Info>)
    ensures |r| == |es| && forall i :: 0 <= i < |es| ==> r[i] == es[i].1
  {
    seq(|es|, i requires 0 <= i < |es| => es[i].1)
  }

  function HeaderSize(file: seq<Byte>): nat
    requires |file| >= 8
  {
    Unpack(file[..8])
  }

  predicate Framed(file: seq<Byte>) {
    |file| >= 8 && 2 <= HeaderSize(file) <= HEADER_LIMIT && 8 + HeaderSize(file) <= |file|
  }

  function ObjectOf(c: Codec, file: seq<Byte>): Option<Object>
    requires Framed(file)
  {
    c.decode(file[8..8 + HeaderSize(file)])
  }

  /** A length of eight bytes, at least two and at most 64 MiB, and that many bytes after it. */
  lemma {:induction false} FramedIff(file: seq<Byte>)
    requires |file| >= 8
    ensures var n := file[0] + 0x100 * (file[1] as int) + 0x1_0000 * (file[2] as int) + 0x100_0000 * (file[3] as int)
        + 0x1_0000_0000 * (file[4] as int) + 0x100_0000_0000 * (file[5] as int)
        + 0x1_0000_0000_0000 * (file[6] as int) + 0x100_0000_0000_0000 * (file[7] as int);
      HeaderSize(file) == n && (Framed(file) <==> 2 <= n <= 67_108_864 && n + 8 <= |file|)
  {
    UnpackIs(file[..8]);
  }

  /** A bounded header that decodes, with tensors that tile the rest of the file. */
  ghost predicate Accepts(c: Codec, file: seq<Byte>) {
    && Framed(file) && ObjectOf(c, file).Some? && AllTensors(ObjectOf(c, file).value)
    && Tiles(Infos(EntriesOf(ObjectOf(c, file).value)), |file| - 8 - HeaderSize(file))
  }

  method Header(c: Codec, file: seq<Byte>) returns (r: Result<(seq<(string, Info)>, nat), Error>)
    ensures r.Ok? <==> Accepts(c, file)
    ensures r.Ok? ==> r.value.0 == EntriesOf(ObjectOf(c, file).value) && r.value.1 == 8 + HeaderSize(file)
  {
    if |file| < 8 { return Err(TruncatedLength); }
    var size := Unpack(file[..8]);
    if !(2 <= size <= HEADER_LIMIT) { return Err(HeaderBound); }
    if |file| < 8 + size { return Err(TruncatedHeader); }
    var data := c.decode(file[8..8 + size]);
    if data.None? { return Err(InvalidJson); }
    if !AllTensors(data.value) { return Err(InvalidTensor); }
    var entries := EntriesOf(data.value);
    var end := CheckOffsets(Infos(entries));
    AcceptedIffTiled(Infos(entries), |file| - 8 - size);
    if end.None? { return Err(InvalidTensor); }
    if |file| != 8 + size + end.value { return Err(PayloadLength); }
    return Ok((entries, 8 + size));
  }

  predicate Loadable(d: Dtype) { d == BF16 || d == F16 || d == F32 || d == I32 || d == I64 }

  function Find(es: seq<(string, Info)>, name: string): (i: nat)
    ensures i <= |es| && (i < |es| ==> es[i].0 == name)
    ensures forall j :: 0 <= j < i ==> es[j].0 != name
  {
    if es == [] || es[0].0 == name then 0 else 1 + Find(es[1..], name)
  }

  /** What load_tensor returns for a file that header accepts. No tensor is made of an empty buffer. */
  ghost function Loaded(c: Codec, file: seq<Byte>, name: string): Result<Tensor, Error>
    requires Accepts(c, file)
  {
    var es := EntriesOf(ObjectOf(c, file).value);
    var i := Find(es, name);
    if i == |es| then Err(UnknownName)
    else
      var e, start := es[i].1, 8 + HeaderSize(file);
      assert Inside(Infos(es)[i], 0, |file| - start) && WellFormed(Infos(es)[i]);
      if !Loadable(e.dtype.value) then Err(UnsupportedDtype)
      else if e.offsets[0] == e.offsets[1] then Err(EmptyBuffer)
      else Ok(Tensor(e.dtype.value, e.shape, file[start + e.offsets[0]..start + e.offsets[1]]))
  }

  /** The types that load, with their sizes in bytes. */
  predicate LoadsAs(d: Dtype, bytes: nat) {
    match d
    case BF16 => bytes == 2
    case F16 => bytes == 2
    case F32 => bytes == 4
    case I32 => bytes == 4
    case I64 => bytes == 8
    case _ => false
  }

  /** Of an accepted file a tensor loads when it is there, has one of those types and has bytes; then it has all its bytes. */
  lemma {:induction false} LoadedIff(c: Codec, file: seq<Byte>, name: string, i: nat)
    requires Accepts(c, file) && i < |EntriesOf(ObjectOf(c, file).value)| && EntriesOf(ObjectOf(c, file).value)[i].0 == name
    requires forall j :: 0 <= j < i ==> EntriesOf(ObjectOf(c, file).value)[j].0 != name
    ensures var e := EntriesOf(ObjectOf(c, file).value)[i].1;
      && e.dtype.Some? && |e.offsets| == 2
      && (Loaded(c, file, name).Ok? <==> LoadsAs(e.dtype.value, Width(e.dtype.value)) && e.offsets[0] != e.offsets[1])
    ensures var r := Loaded(c, file, name);
      r.Ok? ==> LoadsAs(r.value.dtype, Width(r.value.dtype)) && |r.value.data| == Product(r.value.shape) * Width(r.value.dtype)
  {
    var es := EntriesOf(ObjectOf(c, file).value);
    assert Find(es, name) == i;
    assert Inside(Infos(es)[i], 0, |file| - 8 - HeaderSize(file)) && WellFormed(Infos(es)[i]);
  }

  method LoadTensor(c: Codec, file: seq<Byte>, name: string) returns (r: Result<Tensor, Error>)
    ensures Accepts(c, file) ==> r == Loaded(c, file, name)
    ensures !Accepts(c, file) ==> r.Err?
  {
    var head := Header(c, file);
    if head.Err? { return Err(head.error); }
    var entries, start := head.value.0, head.value.1;
    var i := Find(entries, name);
    if i == |entries| { return Err(UnknownName); }
    var e := entries[i].1;
    assert Inside(Infos(entries)[i], 0, |file| - start) && WellFormed(Infos(entries)[i]);
    if !Loadable(e.dtype.value) { return Err(UnsupportedDtype); }
    if e.offsets[0] == e.offsets[1] { return Err(EmptyBuffer); }
    return Ok(Tensor(e.dtype.value, e.shape, file[start + e.offsets[0]..start + e.offsets[1]]));
  }

  // ---------- Writing ----------

  predicate TensorOk(t: Tensor) {
    (forall i :: 0 <= i < |t.shape| ==> t.shape[i] >= 0) && |t.data| == SizeOf(t)
  }

  /** Number of elements times the size of one. */
  function SizeOf(t: Tensor): int { Product(t.shape) * Width(t.dtype) }

  /** Whether the tensor lies in CPU memory without gaps, and whether its last axis has stride one. */
  datatype Layout = Layout(contiguous: bool, unitStride: bool)

  /**
   A tensor is written as a view of its bytes: there is none of a tensor without
   axes, nor of one with a zero among several axes.
   */
  predicate HasByteView(t: Tensor) {
    |t.shape| == 1 || (t.shape != [] && forall i :: 0 <= i < |t.shape| ==> t.shape[i] != 0)
  }

  ghost predicate Writable(ts: seq<(string, Tensor)>) {
    && (forall i :: 0 <= i < |ts| ==> TensorOk(ts[i].1) && Loadable(ts[i].1.dtype) && HasByteView(ts[i].1))
    && (forall i, j :: 0 <= i < j < |ts| ==> ts[i].0 != ts[j].0)
  }

  /** Payload bytes of the first n tensors. */
  function Payload(ts: seq<(string, Tensor)>, n: nat): seq<Byte>
    requires n <= |ts|
  {
    if n == 0 then [] else Payload(ts, n - 1) + ts[n - 1].1.data
  }

  /** Where the n-th tensor's bytes begin. */
  function OffsetAt(ts: seq<(string, Tensor)>, n: nat): nat
    requires n <= |ts|
  {
    if n == 0 then 0 else OffsetAt(ts, n - 1) + |ts[n - 1].1.data|
  }

  lemma {:induction false} PayloadSize(ts: seq<(string, Tensor)>, n: nat)
    requires n <= |ts|
    ensures |Payload(ts, n)| == OffsetAt(ts, n)
  {
    if n > 0 { PayloadSize(ts, n - 1); }
  }

  function InfoAt(ts: seq<(string, Tensor)>, i: nat): Info
    requires i < |ts|
  {
    Info(Some(ts[i].1.dtype), ts[i].1.shape, [OffsetAt(ts, i), OffsetAt(ts, i + 1)])
  }

  /** Assignment to a key: in place when it is there, at the end otherwise. */
  function Put(o: Object, key: string, info: Info): Object {
    if o == [] then [(key, Some(info))]
    else if o[0].0 == key then [(key, Some(info))] + o[1..]
    else [o[0]] + Put(o[1..], key, info)
  }

  function MetadataOf(ts: seq<(string, Tensor)>, n: nat): Object
    requires n <= |ts|
  {
    if n == 0 then [(RESERVED, None)] else Put(MetadataOf(ts, n - 1), ts[n - 1].0, InfoAt(ts, n - 1))
  }

  /** Spaces added up to a multiple of eight bytes. */
  function Padded(s: seq<Byte>): seq<Byte> { s + Spaces(-|s| % 8) }

  /** No more than seven spaces are added, and the length becomes a multiple of eight. */
  lemma {:induction false} PaddedIs(s: seq<Byte>)
    ensures |Padded(s)| % 8 == 0 && |s| <= |Padded(s)| < |s| + 8 && Padded(s)[..|s|] == s
    ensures forall i :: |s| <= i < |Padded(s)| ==> Padded(s)[i] == 32
  {
  }

  /** The encoded header, padded. */
  function RawHeader(c: Codec, o: Object): seq<Byte> { Padded(c.encode(o)) }

  /** Decoding gives back this object from its padded encoding. */
  ghost predicate Decodes(c: Codec, o: Object) { |c.encode(o)| >= 2 && c.decode(RawHeader(c, o)) == Some(o) }

  /** JSON decodes whatever it encodes, as long as no key occurs twice. */
  ghost predicate CodecOk(c: Codec) { forall o: Object :: DistinctKeys(o) ==> Decodes(c, o) }

  function FileOf(c: Codec, ts: seq<(string, Tensor)>): seq<Byte> {
    var raw := RawHeader(c, MetadataOf(ts, |ts|));
    Pack(|raw|, 8) + raw + Payload(ts, |ts|)
  }

  lemma {:induction false} NextEntry(ts: seq<(string, Tensor)>, i: nat, offset: nat, size: int)
    requires i < |ts| && TensorOk(ts[i].1) && offset == OffsetAt(ts, i) && size == SizeOf(ts[i].1)
    ensures offset + size == OffsetAt(ts, i + 1)
    ensures MetadataOf(ts, i + 1)
      == Put(MetadataOf(ts, i), ts[i].0, Info(Some(ts[i].1.dtype), ts[i].1.shape, [offset, offset + size]))
  {
  }

  method CollectMetadata(ts: seq<(string, Tensor)>, layouts: seq<Layout>) returns (r: Result<Object, Error>)
    requires |layouts| == |ts| && forall i :: 0 <= i < |ts| ==> TensorOk(ts[i].1)
    ensures r.Ok? <==> forall i :: 0 <= i < |ts| ==> layouts[i].contiguous && Loadable(ts[i].1.dtype)
    ensures r.Ok? ==> r.value == MetadataOf(ts, |ts|)
  {
    var metadata: Object, offset := [(RESERVED, None)], 0;
    for i := 0 to |ts|
      invariant metadata == MetadataOf(ts, i) && offset == OffsetAt(ts, i)
      invariant forall j :: 0 <= j < i ==> layouts[j].contiguous && Loadable(ts[j].1.dtype)
    {
      var t := ts[i].1;
      if !layouts[i].contiguous { return Err(NotContiguous); }
      if !Loadable(t.dtype) { return Err(UnsupportedDtype); }
      var size := SizeOf(t);
      NextEntry(ts, i, offset, size);
      metadata := Put(metadata, ts[i].0, Info(Some(t.dtype), t.shape, [offset, offset + size]));
      offset := offset + size;
    }
    return Ok(metadata);
  }

  method AppendPayload(before: seq<Byte>, ts: seq<(string, Tensor)>, layouts: seq<Layout>) returns (r: Result<seq<Byte>, Error>)
    requires |layouts| == |ts|
    ensures r.Ok? <==> forall i :: 0 <= i < |ts| ==> layouts[i].unitStride && HasByteView(ts[i].1)
    ensures r.Ok? ==> r.value == before + Payload(ts, |ts|)
  {
    var file := before;
    for i := 0 to |ts|
      invariant file == before + Payload(ts, i)
      invariant forall j :: 0 <= j < i ==> layouts[j].unitStride && HasByteView(ts[j].1)
    {
      if !layouts[i].unitStride || !HasByteView(ts[i].1) { return Err(NoByteView); }
      file := file + ts[i].1.data;
    }
    return Ok(file);
  }

  /** Whether write_tensors can describe the tensor in the header, and then write its bytes. */
  predicate Serializable(t: Tensor, layout: Layout) {
    layout.contiguous && Loadable(t.dtype) && layout.unitStride && HasByteView(t)
  }

  method WriteTensors(c: Codec, ts: seq<(string, Tensor)>, layouts: seq<Layout>) returns (r: Result<seq<Byte>, Error>)
    requires |layouts| == |ts| && forall i :: 0 <= i < |ts| ==> TensorOk(ts[i].1)
    ensures r.Ok? <==> forall i :: 0 <= i < |ts| ==> Serializable(ts[i].1, layouts[i])
    ensures r.Ok? ==> r.value == FileOf(c, ts)
  {
    var metadata := CollectMetadata(ts, layouts);
    if metadata.Err? { return Err(metadata.error); }
    var raw := c.encode(metadata.value);
    raw := Padded(raw);
    r := AppendPayload(Pack(|raw|, 8) + raw, ts, layouts);
  }

  // ---------- Round trip ----------

  predicate NoReserved(ts: seq<(string, Tensor)>) { forall i :: 0 <= i < |ts| ==> ts[i].0 != RESERVED }

  /** A tensor under the reserved key has no bytes. */
  predicate ReservedIsEmpty(ts: seq<(string, Tensor)>) { forall i :: 0 <= i < |ts| && ts[i].0 == RESERVED ==> ts[i].1.data == [] }

  lemma {:induction false} PutNew(o: Object, key: string, info: Info)
    requires forall i :: 0 <= i < |o| ==> o[i].0 != key
    ensures Put(o, key, info) == o + [(key, Some(info))]
  {
    if o != [] { PutNew(o[1..], key, info); }
  }

  /** The tensors under other keys, as header entries. */
  function NamedEntries(ts: seq<(string, Tensor)>, n: nat): seq<(string, Info)>
    requires n <= |ts|
  {
    if n == 0 then []
    else if ts[n - 1].0 == RESERVED then NamedEntries(ts, n - 1)
    else NamedEntries(ts, n - 1) + [(ts[n - 1].0, InfoAt(ts, n - 1))]
  }

  /** What is stored under the reserved key: the format record, or the tensor that replaced it. */
  function ReservedEntry(ts: seq<(string, Tensor)>, n: nat): Option<Info>
    requires n <= |ts|
  {
    if n == 0 then None else if ts[n - 1].0 == RESERVED then Some(InfoAt(ts, n - 1)) else ReservedEntry(ts, n - 1)
  }

  function AsObject(es: seq<(string, Info)>): (o: Object)
    ensures |o| == |es| && forall i :: 0 <= i < |es| ==> o[i] == (es[i].0, Some(es[i].1))
  {
    seq(|es|, i requires 0 <= i < |es| => (es[i].0, Some(es[i].1)))
  }

  /** The header object, read off the tensors. */
  function Listed(ts: seq<(string, Tensor)>, n: nat): Object
    requires n <= |ts|
  {
    [(RESERVED, ReservedEntry(ts, n))] + AsObject(NamedEntries(ts, n))
  }

  /** Every entry stands for one of the tensors. */
  lemma {:induction false} EntryFrom(ts: seq<(string, Tensor)>, n: nat, k: nat) returns (j: nat)
    requires n <= |ts| && k < |NamedEntries(ts, n)|
    ensures j < n && ts[j].0 != RESERVED && NamedEntries(ts, n)[k] == (ts[j].0, InfoAt(ts, j))
  {
    if ts[n - 1].0 != RESERVED && k == |NamedEntries(ts, n - 1)| {
      j := n - 1;
    } else {
      j := EntryFrom(ts, n - 1, k);
    }
  }

  /** And every tensor not under the reserved key has one. */
  lemma {:induction false} EntryOf(ts: seq<(string, Tensor)>, n: nat, i: nat) returns (k: nat)
    requires i < n <= |ts| && ts[i].0 != RESERVED
    ensures k < |NamedEntries(ts, n)| && NamedEntries(ts, n)[k] == (ts[i].0, InfoAt(ts, i))
  {
    if i == n - 1 {
      k := |NamedEntries(ts, n - 1)|;
    } else {
      k := EntryOf(ts, n - 1, i);
    }
  }

  lemma {:induction false} KeyIsNew(ts: seq<(string, Tensor)>, n: nat)
    requires n < |ts| && Writable(ts)
    ensures forall k :: 0 <= k < |NamedEntries(ts, n)| ==> NamedEntries(ts, n)[k].0 != ts[n].0
  {
    forall k | 0 <= k < |NamedEntries(ts, n)| ensures NamedEntries(ts, n)[k].0 != ts[n].0 {
      var j := EntryFrom(ts, n, k);
    }
  }

  lemma {:induction false} PutListed(ts: seq<(string, Tensor)>, n: nat)
    requires 1 <= n <= |ts| && Writable(ts)
    ensures Put(Listed(ts, n - 1), ts[n - 1].0, InfoAt(ts, n - 1)) == Listed(ts, n)
  {
    var o, key, info := AsObject(NamedEntries(ts, n - 1)), ts[n - 1].0, InfoAt(ts, n - 1);
    assert Listed(ts, n - 1)[1..] == o;
    if key != RESERVED {
      KeyIsNew(ts, n - 1);
      PutNew(o, key, info);
      assert o + [(key, Some(info))] == AsObject(NamedEntries(ts, n - 1) + [(key, info)]);
    }
  }

  lemma {:induction false} NothingListed(ts: seq<(string, Tensor)>)
    ensures MetadataOf(ts, 0) == Listed(ts, 0)
  {
    assert AsObject([]) == [];
  }

  lemma {:induction false} MetadataNext(ts: seq<(string, Tensor)>, n: nat)
    requires 1 <= n <= |ts|
    ensures MetadataOf(ts, n) == Put(MetadataOf(ts, n - 1), ts[n - 1].0, InfoAt(ts, n - 1))
  {
  }

  lemma {:induction false} MetadataStep(ts: seq<(string, Tensor)>, n: nat, o: Object)
    requires 1 <= n <= |ts| && Writable(ts) && o == MetadataOf(ts, n - 1) == Listed(ts, n - 1)
    ensures MetadataOf(ts, n) == Listed(ts, n)
  {
    MetadataNext(ts, n);
    PutListed(ts, n);
  }

  lemma {:induction false} MetadataLists(ts: seq<(string, Tensor)>, n: nat)
    requires n <= |ts| && Writable(ts)
    ensures MetadataOf(ts, n) == Listed(ts, n)
  {
    if n == 0 {
      NothingListed(ts);
      return;
    }
    MetadataLists(ts, n - 1);
    MetadataStep(ts, n, Listed(ts, n - 1));
  }

  /** Distinct names, none of them reserved. */
  ghost predicate ProperNames(es: seq<(string, Info)>) {
    (forall k, l :: 0 <= k < l < |es| ==> es[k].0 != es[l].0) && forall k :: 0 <= k < |es| ==> es[k].0 != RESERVED
  }

  lemma {:induction false} NamesAreProper(ts: seq<(string, Tensor)>, n: nat)
    requires n <= |ts| && Writable(ts)
    ensures ProperNames(NamedEntries(ts, n))
  {
    if n > 0 {
      var before, key := NamedEntries(ts, n - 1), ts[n - 1].0;
      NamesAreProper(ts, n - 1);
      KeyIsNew(ts, n - 1);
      if key != RESERVED { assert NamedEntries(ts, n) == before + [(key, InfoAt(ts, n - 1))]; }
    }
  }

  /** The written header has no key twice, so it decodes. */
  lemma {:induction false} HeaderDecodes(c: Codec, ts: seq<(string, Tensor)>)
    requires CodecOk(c) && Writable(ts)
    ensures Decodes(c, MetadataOf(ts, |ts|))
  {
    MetadataLists(ts, |ts|);
    NamesAreProper(ts, |ts|);
    var o := Listed(ts, |ts|);
    forall i, j | 0 <= i < j < |o| ensures o[i].0 != o[j].0 {
      assert o[j].0 == NamedEntries(ts, |ts|)[j - 1].0;
      assert i > 0 ==> o[i].0 == NamedEntries(ts, |ts|)[i - 1].0;
    }
    assert DistinctKeys(o);
  }

  lemma {:induction false} ObjectEntries(es: seq<(string, Info)>)
    requires ProperNames(es)
    ensures AllTensors(AsObject(es)) && EntriesOf(AsObject(es)) == es
  {
    if es != [] {
      ObjectEntries(es[1..]);
      assert AsObject(es)[1..] == AsObject(es[1..]);
    }
  }

  lemma {:induction false} MetadataEntries(ts: seq<(string, Tensor)>)
    requires Writable(ts)
    ensures AllTensors(MetadataOf(ts, |ts|)) && EntriesOf(MetadataOf(ts, |ts|)) == NamedEntries(ts, |ts|)
  {
    var es := NamedEntries(ts, |ts|);
    MetadataLists(ts, |ts|);
    NamesAreProper(ts, |ts|);
    ObjectEntries(es);
    assert Listed(ts, |ts|)[1..] == AsObject(es);
  }

  /** No object yields an entry under the reserved key. */
  lemma {:induction false} ReservedIsNoEntry(o: Object)
    requires AllTensors(o)
    ensures forall k :: 0 <= k < |EntriesOf(o)| ==> EntriesOf(o)[k].0 != RESERVED
  {
    if o != [] { ReservedIsNoEntry(o[1..]); }
  }

  lemma {:induction false} InfoIsWellFormed(ts: seq<(string, Tensor)>, n: nat)
    requires n < |ts| && TensorOk(ts[n].1)
    ensures WellFormed(InfoAt(ts, n))
  {
  }

  // ---------- When the file is accepted ----------

  lemma {:induction false} OffsetsGrow(ts: seq<(string, Tensor)>, i: nat, n: nat)
    requires i <= n <= |ts|
    ensures OffsetAt(ts, i) <= OffsetAt(ts, n)
    decreases n
  {
    if i < n { OffsetsGrow(ts, i, n - 1); }
  }

  lemma {:induction false} EndAppends(es: seq<Info>, e: Info, start: int)
    requires EndOf(es, start).Some? && WellFormed(e) && e.offsets[0] == EndOf(es, start).value
    ensures EndOf(es + [e], start) == Some(e.offsets[1])
  {
    if es == [] {
      assert [e][1..] == [];
    } else {
      EndAppends(es[1..], e, es[0].offsets[1]);
      assert (es + [e])[1..] == es[1..] + [e];
    }
  }

  lemma {:induction false} InfoIsNext(ts: seq<(string, Tensor)>, n: nat)
    requires n < |ts| && Writable(ts) && ts[n].0 != RESERVED
    requires EndOf(Infos(NamedEntries(ts, n)), 0) == Some(OffsetAt(ts, n))
    ensures EndOf(Infos(NamedEntries(ts, n + 1)), 0) == Some(OffsetAt(ts, n + 1))
  {
    InfoIsWellFormed(ts, n);
    EndAppends(Infos(NamedEntries(ts, n)), InfoAt(ts, n), 0);
    assert Infos(NamedEntries(ts, n + 1)) == Infos(NamedEntries(ts, n)) + [InfoAt(ts, n)];
  }

  lemma {:induction false} ReservedAddsNothing(ts: seq<(string, Tensor)>, n: nat)
    requires 1 <= n <= |ts| && ts[n - 1].0 == RESERVED && ts[n - 1].1.data == []
    ensures NamedEntries(ts, n) == NamedEntries(ts, n - 1) && OffsetAt(ts, n) == OffsetAt(ts, n - 1)
  {
  }

  /** With an empty reserved tensor, or none, the entries follow one another up to the end of the payload. */
  lemma {:induction false} InfosChain(ts: seq<(string, Tensor)>, n: nat)
    requires n <= |ts| && Writable(ts) && ReservedIsEmpty(ts)
    ensures EndOf(Infos(NamedEntries(ts, n)), 0) == Some(OffsetAt(ts, n))
  {
    if n == 0 { return; }
    InfosChain(ts, n - 1);
    if ts[n - 1].0 == RESERVED {
      ReservedAddsNothing(ts, n);
      return;
    }
    InfoIsNext(ts, n - 1);
  }

  lemma {:induction false} OthersMissGap(ts: seq<(string, Tensor)>, r: nat, j: nat)
    requires r < |ts| && j < |ts| && j != r && ts[r].1.data != []
    ensures !Covers(InfoAt(ts, j), OffsetAt(ts, r))
  {
    if j < r { OffsetsGrow(ts, j + 1, r); } else { OffsetsGrow(ts, r + 1, j); }
  }

  /** The first byte of a reserved tensor belongs to no entry. */
  lemma {:induction false} ReservedLeavesGap(ts: seq<(string, Tensor)>, r: nat)
    requires r < |ts| && Writable(ts) && ts[r].0 == RESERVED && ts[r].1.data != []
    ensures 0 <= OffsetAt(ts, r) < OffsetAt(ts, |ts|)
    ensures !Covered(Infos(NamedEntries(ts, |ts|)), OffsetAt(ts, r))
  {
    OffsetsGrow(ts, r + 1, |ts|);
    var es := NamedEntries(ts, |ts|);
    forall e | e in Infos(es) ensures !Covers(e, OffsetAt(ts, r)) {
      var k :| 0 <= k < |es| && Infos(es)[k] == e;
      var j := EntryFrom(ts, |ts|, k);
      OthersMissGap(ts, r, j);
    }
  }

  /** A length, a header of that length, and the rest. */
  lemma {:induction false} FrameParts(raw: seq<Byte>, payload: seq<Byte>)
    requires 2 <= |raw| <= HEADER_LIMIT
    ensures var file := Pack(|raw|, 8) + raw + payload;
      Framed(file) && HeaderSize(file) == |raw| && file[8..8 + |raw|] == raw && file[8 + |raw|..] == payload
  {
    var file := Pack(|raw|, 8) + raw + payload;
    LimitFits(|raw|);
    UnpackPack(|raw|, 8);
    assert file[..8] == Pack(|raw|, 8);
    assert file[8..8 + |raw|] == raw && file[8 + |raw|..] == payload;
  }

  /** The codec reads the header back, and the header is not too long. */
  ghost predicate Serializes(c: Codec, ts: seq<(string, Tensor)>) {
    Decodes(c, MetadataOf(ts, |ts|)) && |RawHeader(c, MetadataOf(ts, |ts|))| <= HEADER_LIMIT
  }

  /** How the written file is read back, up to its payload. */
  lemma {:induction false} WrittenFrame(c: Codec, ts: seq<(string, Tensor)>)
    requires Serializes(c, ts)
    ensures var file := FileOf(c, ts);
      && Framed(file) && file[8 + HeaderSize(file)..] == Payload(ts, |ts|)
      && |file| - 8 - HeaderSize(file) == OffsetAt(ts, |ts|)
      && ObjectOf(c, file) == Some(MetadataOf(ts, |ts|))
  {
    FrameParts(RawHeader(c, MetadataOf(ts, |ts|)), Payload(ts, |ts|));
    PayloadSize(ts, |ts|);
  }

  /** A written file is accepted exactly when no bytes were written under the reserved key. */
  lemma {:induction false} AcceptedIffReservedEmpty(c: Codec, ts: seq<(string, Tensor)>)
    requires Serializes(c, ts) && Writable(ts)
    ensures Accepts(c, FileOf(c, ts)) <==> ReservedIsEmpty(ts)
  {
    WrittenFrame(c, ts);
    MetadataEntries(ts);
    if ReservedIsEmpty(ts) {
      InfosChain(ts, |ts|);
      ChainTiles(Infos(NamedEntries(ts, |ts|)), 0);
    } else {
      var r :| 0 <= r < |ts| && ts[r].0 == RESERVED && ts[r].1.data != [];
      ReservedLeavesGap(ts, r);
    }
  }

  lemma {:induction false} PayloadPart(ts: seq<(string, Tensor)>, i: nat, n: nat)
    requires i < n <= |ts|
    ensures OffsetAt(ts, i) <= OffsetAt(ts, i + 1) <= |Payload(ts, n)|
    ensures Payload(ts, n)[OffsetAt(ts, i)..OffsetAt(ts, i + 1)] == ts[i].1.data
    decreases n
  {
    PayloadSize(ts, n - 1);
    if i + 1 < n { PayloadPart(ts, i, n - 1); }
  }

  /** Looking a tensor's name up finds its entry. */
  lemma {:induction false} FindNamed(ts: seq<(string, Tensor)>, i: nat)
    requires Writable(ts) && i < |ts| && ts[i].0 != RESERVED
    ensures var es := NamedEntries(ts, |ts|); var k := Find(es, ts[i].0);
      k < |es| && es[k] == (ts[i].0, InfoAt(ts, i))
  {
    var es := NamedEntries(ts, |ts|);
    var k := EntryOf(ts, |ts|, i);
    var l := Find(es, ts[i].0);
    assert l <= k;
    NamesAreProper(ts, |ts|);
  }

  lemma {:induction false} SliceOfRest(file: seq<Byte>, start: nat, rest: seq<Byte>, lo: nat, hi: nat)
    requires start <= |file| && file[start..] == rest && lo <= hi <= |rest|
    ensures start + hi <= |file| && file[start + lo..start + hi] == rest[lo..hi]
  {
    var part := file[start + lo..start + hi];
    assert |part| == hi - lo;
    forall k | 0 <= k < hi - lo ensures part[k] == rest[lo..hi][k] {
      assert file[start..][lo + k] == file[start + lo + k];
    }
  }

  lemma {:induction false} LoadedAt(c: Codec, file: seq<Byte>, es: seq<(string, Info)>, payload: seq<Byte>, name: string, t: Tensor, lo: nat, hi: nat)
    requires Accepts(c, file) && EntriesOf(ObjectOf(c, file).value) == es && file[8 + HeaderSize(file)..] == payload
    requires Find(es, name) < |es| && es[Find(es, name)].1 == Info(Some(t.dtype), t.shape, [lo, hi]) && Loadable(t.dtype)
    requires lo <= hi <= |payload| && payload[lo..hi] == t.data
    ensures Loaded(c, file, name) == if t.data == [] then Err(EmptyBuffer) else Ok(t)
  {
    SliceOfRest(file, 8 + HeaderSize(file), payload, lo, hi);
  }

  /** The i-th tensor reads back from the written file with its shape, type and bytes. */
  ghost predicate LoadsBack(c: Codec, ts: seq<(string, Tensor)>, i: nat)
    requires i < |ts|
  {
    Accepts(c, FileOf(c, ts)) && Loaded(c, FileOf(c, ts), ts[i].0) == Ok(ts[i].1)
  }

  /** Under any other key a tensor is found, and it loads if it has bytes. */
  lemma {:induction false} WrittenLoads(c: Codec, ts: seq<(string, Tensor)>, i: nat)
    requires Serializes(c, ts) && Writable(ts) && ReservedIsEmpty(ts) && i < |ts| && ts[i].0 != RESERVED
    ensures Accepts(c, FileOf(c, ts))
    ensures Loaded(c, FileOf(c, ts), ts[i].0) == if ts[i].1.data == [] then Err(EmptyBuffer) else Ok(ts[i].1)
  {
    WrittenFrame(c, ts);
    AcceptedIffReservedEmpty(c, ts);
    MetadataEntries(ts);
    FindNamed(ts, i);
    PayloadPart(ts, i, |ts|);
    LoadedAt(c, FileOf(c, ts), NamedEntries(ts, |ts|), Payload(ts, |ts|), ts[i].0, ts[i].1, OffsetAt(ts, i), OffsetAt(ts, i + 1));
  }

  lemma {:induction false} ReservedNeverLoads(c: Codec, file: seq<Byte>)
    requires Accepts(c, file)
    ensures Loaded(c, file, RESERVED) == Err(UnknownName)
  {
    ReservedIsNoEntry(ObjectOf(c, file).value);
  }

  predicate AllHaveBytes(ts: seq<(string, Tensor)>) { forall i :: 0 <= i < |ts| ==> ts[i].1.data != [] }

  /**
   Every tensor written reads back exactly when each has bytes and none is named
   like the format record. One that is makes the whole file unreadable if it has
   bytes; a tensor without bytes is lost on its own.
   */
  lemma {:induction false} RoundTrip(c: Codec, ts: seq<(string, Tensor)>)
    requires Serializes(c, ts) && Writable(ts)
    ensures (forall i :: 0 <= i < |ts| ==> LoadsBack(c, ts, i)) <==> NoReserved(ts) && AllHaveBytes(ts)
    ensures forall i :: 0 <= i < |ts| ==>
      (LoadsBack(c, ts, i) <==> ReservedIsEmpty(ts) && ts[i].0 != RESERVED && ts[i].1.data != [])
  {
    AcceptedIffReservedEmpty(c, ts);
    forall i | 0 <= i < |ts|
      ensures LoadsBack(c, ts, i) <==> ReservedIsEmpty(ts) && ts[i].0 != RESERVED && ts[i].1.data != []
    {
      if ReservedIsEmpty(ts) {
        if ts[i].0 != RESERVED { WrittenLoads(c, ts, i); } else { ReservedNeverLoads(c, FileOf(c, ts)); }
      }
    }
  }

  /** Writing one tensor under the reserved key gives a file that cannot be read. */
  lemma {:induction false} ReservedIsLost() returns (c: Codec, ts: seq<(string, Tensor)>)
    ensures Serializes(c, ts) && Writable(ts) && |ts| == 1
    ensures !Accepts(c, FileOf(c, ts))
  {
    ts := [(RESERVED, Tensor(I32, [1], [0, 0, 0, 0]))];
    var o := MetadataOf(ts, 1);
    c := Codec(_ => Spaces(8), _ => Some(o));
    assert Product([1]) == Product([1][..0]) * 1;
    assert Writable(ts) && !ReservedIsEmpty(ts);
    AcceptedIffReservedEmpty(c, ts);
  }

  /** A tensor without elements is written and its file is accepted, yet it does not load. */
  lemma {:induction false} EmptyIsLost() returns (c: Codec, ts: seq<(string, Tensor)>)
    ensures Serializes(c, ts) && Writable(ts) && |ts| == 1
    ensures Accepts(c, FileOf(c, ts)) && Loaded(c, FileOf(c, ts), ts[0].0) == Err(EmptyBuffer)
  {
    ts := [("w", Tensor(F32, [0], []))];
    var o := MetadataOf(ts, 1);
    c := Codec(_ => Spaces(8), _ => Some(o));
    assert Product([0]) == Product([0][..0]) * 0;
    assert Writable(ts);
    WrittenLoads(c, ts, 0);
  }
}

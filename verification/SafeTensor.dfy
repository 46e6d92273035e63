/** The strict safetensors container: building a one-tensor bundle, and validating any
    payload.  JSON text is abstracted to a codec between JSON values and bytes. */
module SafeTensor {
  import opened Common

  /** An object keeps its pairs in text order, duplicates included. */
  datatype Json =
    | Object(fields: seq<(string, Json)>)
    | Array(items: seq<Json>)
    | String(text: string)
    | Int(number: int)
    | Bool(truth: bool)
    | Other

  datatype Codec = Codec(encode: Json -> Bytes, decode: Bytes -> Option<Json>)

  const MAX_HEADER_BYTES := 65536
  const FORMAT := "nano-aural-controlfoley-condition"
  const METADATA := "__metadata__"

  function DtypeBytes(dtype: string): nat {
    if dtype in {"BOOL", "U8", "I8"} then 1
    else if dtype in {"I16", "U16", "F16", "BF16"} then 2
    else if dtype in {"I32", "U32", "F32"} then 4
    else if dtype in {"F64", "I64", "U64"} then 8
    else 0
  }

  predicate NameCharacter(c: char) {
    '0' <= c <= '9' || 'A' <= c <= 'Z' || 'a' <= c <= 'z' || c == '.' || c == '_' || c == '-'
  }

  /** `_tensor_name` and `_safe_identifier`. */
  predicate Identifier(s: string) {
    0 < |s| <= 64 && forall k :: 0 <= k < |s| ==> NameCharacter(s[k])
  }

  // --------------------------------------------------------------- length framing

  /** `struct.pack("<Q", n)`, byte by byte. */
  function Pack(n: nat, width: nat): (bytes: Bytes)
    ensures |bytes| == width
  {
    if width == 0 then [] else [(n % 256) as Byte] + Pack(n / 256, width - 1)
  }

  function Unpack(bytes: Bytes): nat {
    if bytes == [] then 0 else bytes[0] as nat + 256 * Unpack(bytes[1..])
  }

  function Power(width: nat): nat {
    if width == 0 then 1 else 256 * Power(width - 1)
  }

  lemma {:induction false} PackRoundTrip(n: nat, width: nat)
    requires n < Power(width)
    ensures Unpack(Pack(n, width)) == n
  {
    if width > 0 {
      assert n / 256 < Power(width - 1);
      PackRoundTrip(n / 256, width - 1);
      assert Pack(n, width)[1..] == Pack(n / 256, width - 1);
    }
  }

  // ------------------------------------------------------------------- object fields

  predicate DistinctKeys(fields: seq<(string, Json)>) {
    forall j, k :: 0 <= j < k < |fields| ==> fields[j].0 != fields[k].0
  }

  /** `_unique_object` at every level of the text. */
  predicate Unique(j: Json) {
    match j
    case Object(fields) => DistinctKeys(fields) && forall k :: 0 <= k < |fields| ==> Unique(fields[k].1)
    case Array(items) => forall k :: 0 <= k < |items| ==> Unique(items[k])
    case _ => true
  }

  function Lookup(fields: seq<(string, Json)>, key: string): Option<Json> {
    if fields == [] then None
    else if fields[0].0 == key then Some(fields[0].1)
    else Lookup(fields[1..], key)
  }

  function Without(fields: seq<(string, Json)>, key: string): seq<(string, Json)> {
    if fields == [] then []
    else (if fields[0].0 == key then [] else [fields[0]]) + Without(fields[1..], key)
  }

  // --------------------------------------------------------------------- descriptors

  datatype Descriptor = Descriptor(name: string, dtype: string, shape: seq<int>, start: int, end: int)

  predicate Ints(items: seq<Json>) {
    forall k :: 0 <= k < |items| ==> items[k].Int?
  }

  function Numbers(items: seq<Json>): seq<int>
    requires Ints(items)
  {
    seq(|items|, k requires 0 <= k < |items| => items[k].number)
  }

  function Product(shape: seq<int>): int {
    if shape == [] then 1 else Product(shape[..|shape| - 1]) * shape[|shape| - 1]
  }

  /** A field of the header with exactly the three expected members of the right types. */
  predicate Typed(value: Json) {
    && value.Object? && |value.fields| == 3 && DistinctKeys(value.fields)
    && var dtype, shape, offsets := Lookup(value.fields, "dtype"), Lookup(value.fields, "shape"), Lookup(value.fields, "data_offsets");
       && dtype.Some? && dtype.value.String? && DtypeBytes(dtype.value.text) > 0
       && shape.Some? && shape.value.Array? && shape.value.items != [] && Ints(shape.value.items)
       && offsets.Some? && offsets.value.Array? && |offsets.value.items| == 2 && Ints(offsets.value.items)
  }

  function DescriptorOf(field: (string, Json)): Descriptor
    requires Typed(field.1)
  {
    var fields := field.1.fields;
    var offsets := Numbers(Lookup(fields, "data_offsets").value.items);
    Descriptor(field.0, Lookup(fields, "dtype").value.text, Numbers(Lookup(fields, "shape").value.items), offsets[0], offsets[1])
  }

  /** The tensor's own condition: its range lies in the data and is exactly as long as
      its type and shape say. */
  predicate Fits(d: Descriptor, length: nat) {
    && (forall k :: 0 <= k < |d.shape| ==> d.shape[k] > 0)
    && 0 <= d.start < d.end <= length
    && d.end - d.start == DtypeBytes(d.dtype) * Product(d.shape)
  }

  // -------------------------------------------------------------------------- tiling

  datatype Range = Range(start: int, end: int)

  function RangesOf(tensors: seq<Descriptor>): seq<Range> {
    seq(|tensors|, k requires 0 <= k < |tensors| => Range(tensors[k].start, tensors[k].end))
  }

  /** How many of the ranges contain position i. */
  function Cover(ranges: seq<Range>, i: int): nat {
    if ranges == [] then 0
    else (if ranges[0].start <= i < ranges[0].end then 1 else 0) + Cover(ranges[1..], i)
  }

  predicate Within(ranges: seq<Range>, low: int, high: int) {
    forall k :: 0 <= k < |ranges| ==> low <= ranges[k].start < ranges[k].end <= high
  }

  /** The ranges, in any order, cut [low, high) into pieces without gap or overlap. */
  predicate Partition(ranges: seq<Range>, low: int, high: int) {
    low <= high && Within(ranges, low, high) && forall i :: low <= i < high ==> Cover(ranges, i) == 1
  }

  predicate LessEqual(a: Range, b: Range) {
    a.start < b.start || (a.start == b.start && a.end <= b.end)
  }

  predicate Sorted(ranges: seq<Range>) {
    ranges == [] || ((forall r :: r in ranges[1..] ==> LessEqual(ranges[0], r)) && Sorted(ranges[1..]))
  }

  function Insert(ranges: seq<Range>, r: Range): seq<Range> {
    if ranges == [] || LessEqual(r, ranges[0]) then [r] + ranges else [ranges[0]] + Insert(ranges[1..], r)
  }

  function Sort(ranges: seq<Range>): seq<Range> {
    if ranges == [] then [] else Insert(Sort(ranges[1..]), ranges[0])
  }

  lemma {:induction false} InsertFacts(ranges: seq<Range>, r: Range, i: int, low: int, high: int)
    ensures Cover(Insert(ranges, r), i) == Cover([r] + ranges, i)
    ensures forall x :: x in Insert(ranges, r) <==> x == r || x in ranges
    ensures Sorted(ranges) ==> Sorted(Insert(ranges, r))
  {
    assert ([r] + ranges)[1..] == ranges;
    if ranges != [] && !LessEqual(r, ranges[0]) {
      InsertFacts(ranges[1..], r, i, low, high);
      var rest := Insert(ranges[1..], r);
      assert Insert(ranges, r)[1..] == rest;
      assert ([r] + ranges[1..])[1..] == ranges[1..];
      assert forall x :: x in ranges <==> x == ranges[0] || x in ranges[1..];
    } else if ranges != [] {
      assert forall x :: x in ranges <==> x == ranges[0] || x in ranges[1..];
    }
  }

  lemma {:induction false} SortFacts(ranges: seq<Range>, i: int)
    ensures Sorted(Sort(ranges)) && Cover(Sort(ranges), i) == Cover(ranges, i)
    ensures forall x :: x in Sort(ranges) <==> x in ranges
  {
    if ranges != [] {
      SortFacts(ranges[1..], i);
      InsertFacts(Sort(ranges[1..]), ranges[0], i, 0, 0);
      assert ([ranges[0]] + Sort(ranges[1..]))[1..] == Sort(ranges[1..]);
      assert forall x :: x in ranges <==> x == ranges[0] || x in ranges[1..];
    }
  }

  /** The cursor loop over the sorted ranges. */
  predicate Chains(ranges: seq<Range>, cursor: int, length: int) {
    if ranges == [] then cursor == length
    else ranges[0].start == cursor && Chains(ranges[1..], ranges[0].end, length)
  }

  lemma {:induction false} CoverZero(ranges: seq<Range>, i: int)
    requires forall k :: 0 <= k < |ranges| ==> i < ranges[k].start || ranges[k].end <= i
    ensures Cover(ranges, i) == 0
  {
    if ranges != [] {
      forall k | 0 <= k < |ranges[1..]| ensures i < ranges[1..][k].start || ranges[1..][k].end <= i {
        assert ranges[1..][k] == ranges[k + 1];
      }
      CoverZero(ranges[1..], i);
    }
  }

  lemma {:induction false} CoverMember(ranges: seq<Range>, k: nat, i: int)
    requires k < |ranges| && ranges[k].start <= i < ranges[k].end
    ensures Cover(ranges, i) >= 1
  {
    if k > 0 {
      CoverMember(ranges[1..], k - 1, i);
    }
  }

  lemma {:induction false} Covered(ranges: seq<Range>, i: int) returns (k: nat)
    requires Cover(ranges, i) >= 1
    ensures k < |ranges| && ranges[k].start <= i < ranges[k].end
  {
    if ranges[0].start <= i < ranges[0].end {
      k := 0;
    } else {
      var j := Covered(ranges[1..], i);
      k := j + 1;
    }
  }

  /** The first range of a sorted partition starts at its low end, and the others cut the
      remainder. */
  lemma PartitionHead(ranges: seq<Range>, low: int, high: int)
    requires Sorted(ranges) && ranges != [] && Partition(ranges, low, high)
    ensures ranges[0].start == low && Partition(ranges[1..], ranges[0].end, high)
  {
    var k := Covered(ranges, low);
    assert k == 0 || ranges[k] in ranges[1..];
    var rest := ranges[1..];
    forall j | 0 <= j < |rest| ensures ranges[0].end <= rest[j].start < rest[j].end <= high {
      assert rest[j] == ranges[j + 1];
      CoverMember(rest, j, rest[j].start);
      assert rest[j] in rest && Cover(ranges, rest[j].start) == 1;
    }
    forall i | ranges[0].end <= i < high ensures Cover(rest, i) == 1 {
      assert Cover(ranges, i) == 1;
    }
  }

  /** Scanning the sorted ranges accepts exactly the partitions. */
  lemma {:induction false} ChainsIffPartition(ranges: seq<Range>, low: int, high: int)
    requires Sorted(ranges) && Within(ranges, low, high) && low <= high
    ensures Chains(ranges, low, high) <==> Partition(ranges, low, high)
    decreases |ranges|
  {
    if ranges == [] {
      if low < high {
        assert Cover(ranges, low) == 0;
      }
    } else {
      var rest, end := ranges[1..], ranges[0].end;
      if Partition(ranges, low, high) {
        PartitionHead(ranges, low, high);
        ChainsIffPartition(rest, end, high);
      }
      if Chains(ranges, low, high) {
        ChainStarts(rest, end, high);
        forall j | 0 <= j < |rest| ensures end <= rest[j].start < rest[j].end <= high {
          assert rest[j] == ranges[j + 1];
        }
        ChainsIffPartition(rest, end, high);
        forall i | low <= i < high ensures Cover(ranges, i) == 1 {
          if i < end {
            CoverZero(rest, i);
          }
        }
      }
    }
  }

  lemma {:induction false} ChainStarts(ranges: seq<Range>, cursor: int, length: int)
    requires Chains(ranges, cursor, length)
    requires forall k :: 0 <= k < |ranges| ==> ranges[k].start < ranges[k].end
    ensures forall k :: 0 <= k < |ranges| ==> cursor <= ranges[k].start
  {
    if ranges != [] {
      forall k | 0 <= k < |ranges[1..]| ensures ranges[1..][k].start < ranges[1..][k].end {
        assert ranges[1..][k] == ranges[k + 1];
      }
      ChainStarts(ranges[1..], ranges[0].end, length);
      forall k | 0 <= k < |ranges| ensures cursor <= ranges[k].start {
        if k > 0 {
          assert ranges[k] == ranges[1..][k - 1];
        }
      }
    }
  }

  /** Order does not matter: sorting and scanning decides the partition property. */
  lemma SortedScanDecides(ranges: seq<Range>, length: nat)
    requires Within(ranges, 0, length)
    ensures Chains(Sort(ranges), 0, length) <==> Partition(ranges, 0, length)
  {
    var sorted := Sort(ranges);
    SortFacts(ranges, 0);
    forall k | 0 <= k < |sorted| ensures 0 <= sorted[k].start < sorted[k].end <= length {
      assert sorted[k] in ranges;
    }
    ChainsIffPartition(sorted, 0, length);
    forall i ensures Cover(sorted, i) == Cover(ranges, i) {
      SortFacts(ranges, i);
    }
  }

  // ---------------------------------------------------------------------- acceptance

  datatype Bundle = Bundle(codecVersion: string, schemaVersion: string, tensors: seq<Descriptor>, data: Bytes)

  /** Equality of decoded objects, which ignores the order of keys. */
  predicate IsMetadata(value: Json, codecVersion: string, schemaVersion: string) {
    && value.Object? && |value.fields| == 3 && DistinctKeys(value.fields)
    && Lookup(value.fields, "format") == Some(String(FORMAT))
    && Lookup(value.fields, "codec_version") == Some(String(codecVersion))
    && Lookup(value.fields, "schema_version") == Some(String(schemaVersion))
  }

  predicate Describes(field: (string, Json), length: nat) {
    Identifier(field.0) && Typed(field.1) && Fits(DescriptorOf(field), length)
  }

  function Descriptors(fields: seq<(string, Json)>): seq<Descriptor>
    requires forall k :: 0 <= k < |fields| ==> Typed(fields[k].1)
  {
    seq(|fields|, k requires 0 <= k < |fields| => DescriptorOf(fields[k]))
  }

  /** What a decoded header must satisfy: sealed metadata, at least one tensor, every
      tensor exactly as long as its range, and the ranges a partition of the data. */
  predicate Accepts(fields: seq<(string, Json)>, codecVersion: string, schemaVersion: string, length: nat) {
    && Lookup(fields, METADATA).Some? && IsMetadata(Lookup(fields, METADATA).value, codecVersion, schemaVersion)
    && var tensors := Without(fields, METADATA);
       && tensors != [] && (forall k :: 0 <= k < |tensors| ==> Describes(tensors[k], length))
       && Partition(RangesOf(Descriptors(tensors)), 0, length)
  }

  /** The length-prefixed header and the data behind it. */
  function Split(payload: Bytes): Option<(Bytes, Bytes)> {
    if |payload| <= 8 then None
    else
      var size := Unpack(payload[..8]);
      if size == 0 || size > MAX_HEADER_BYTES || 8 + size >= |payload| then None
      else Some((payload[8..8 + size], payload[8 + size..]))
  }

  function Header(c: Codec, header: Bytes): Option<seq<(string, Json)>> {
    if header == [] || header[0] != 123 then None
    else
      var value := c.decode(header);
      if value.None? || !Unique(value.value) || !value.value.Object? || value.value.fields == [] then None
      else Some(value.value.fields)
  }

  predicate Accepted(c: Codec, payload: Bytes, codecVersion: string, schemaVersion: string, maxSize: Option<int>) {
    && Identifier(codecVersion) && Identifier(schemaVersion)
    && (maxSize.Some? ==> |payload| <= maxSize.value)
    && Split(payload).Some?
    && Header(c, Split(payload).value.0).Some?
    && Accepts(Header(c, Split(payload).value.0).value, codecVersion, schemaVersion, |Split(payload).value.1|)
  }

  function BundleOf(c: Codec, payload: Bytes, codecVersion: string, schemaVersion: string): Bundle
    requires Accepted(c, payload, codecVersion, schemaVersion, None)
  {
    var (header, data) := Split(payload).value;
    Bundle(codecVersion, schemaVersion, Descriptors(Without(Header(c, header).value, METADATA)), data)
  }

  lemma {:induction false} ProductGrows(shape: seq<int>, k: nat)
    requires k <= |shape| && forall j :: 0 <= j < |shape| ==> shape[j] > 0
    ensures 0 < Product(shape[..k]) <= Product(shape)
    decreases |shape|
  {
    if k < |shape| {
      var n := |shape| - 1;
      ProductGrows(shape[..n], k);
      assert shape[..n][..k] == shape[..k];
      ProductGrows(shape[..n], n);
    } else {
      assert shape[..k] == shape;
      if k > 0 {
        ProductGrows(shape[..k - 1], k - 1);
        assert shape[..k - 1][..k - 1] == shape[..k - 1];
      }
    }
  }

  /** The product loop with its early exit: it fails only when the full product cannot
      equal a range inside the data. */
  method ExactProduct(unit: nat, shape: seq<int>, length: nat) returns (product: Option<int>)
    requires unit > 0 && forall k :: 0 <= k < |shape| ==> shape[k] > 0
    ensures product.Some? ==> product.value == unit * Product(shape)
    ensures product.None? ==> unit * Product(shape) > length
  {
    var total := unit;
    var k := 0;
    while k < |shape|
      invariant 0 <= k <= |shape| && total == unit * Product(shape[..k])
    {
      assert shape[..k + 1][..k] == shape[..k];
      total := total * shape[k];
      k := k + 1;
      if total > length {
        ProductGrows(shape, k);
        Scale(unit, Product(shape[..k]), Product(shape));
        return None;
      }
    }
    assert shape[..k] == shape;
    product := Some(total);
  }

  lemma Scale(unit: nat, a: int, b: int)
    requires a <= b
    ensures unit * a <= unit * b
  {
  }

  method ValidateDescriptor(field: (string, Json), length: nat) returns (d: Option<Descriptor>)
    ensures d.Some? <==> Describes(field, length)
    ensures d.Some? ==> d.value == DescriptorOf(field)
  {
    if !Identifier(field.0) || !Typed(field.1) {
      return None;
    }
    var candidate := DescriptorOf(field);
    var k := 0;
    while k < |candidate.shape|
      invariant 0 <= k <= |candidate.shape| && forall j :: 0 <= j < k ==> candidate.shape[j] > 0
    {
      if candidate.shape[k] <= 0 {
        return None;
      }
      k := k + 1;
    }
    var bytes := ExactProduct(DtypeBytes(candidate.dtype), candidate.shape, length);
    if bytes.None? || candidate.start < 0 || candidate.end <= candidate.start || candidate.end > length
       || candidate.end - candidate.start != bytes.value {
      return None;
    }
    d := Some(candidate);
  }

  /** `validate_safe_tensor_bundle` after the header was decoded. */
  method ValidateHeader(fields: seq<(string, Json)>, codecVersion: string, schemaVersion: string, length: nat)
    returns (tensors: Option<seq<Descriptor>>)
    ensures tensors.Some? <==> Accepts(fields, codecVersion, schemaVersion, length)
    ensures tensors.Some? ==> tensors.value == Descriptors(Without(fields, METADATA))
  {
    var metadata, header := Lookup(fields, METADATA), Without(fields, METADATA);
    if metadata.None? || !IsMetadata(metadata.value, codecVersion, schemaVersion) || header == [] {
      return None;
    }
    var found, ranges := [], [];
    var k := 0;
    while k < |header|
      invariant 0 <= k <= |header| && |found| == k
      invariant forall j :: 0 <= j < k ==> Describes(header[j], length) && found[j] == DescriptorOf(header[j])
      invariant ranges == RangesOf(found)
    {
      var d := ValidateDescriptor(header[k], length);
      if d.None? {
        return None;
      }
      found, ranges := found + [d.value], ranges + [Range(d.value.start, d.value.end)];
      k := k + 1;
    }
    assert found == Descriptors(header);
    SortedScanDecides(ranges, length);
    var sorted := Sort(ranges);
    var cursor, j := 0, 0;
    while j < |sorted|
      invariant 0 <= j <= |sorted|
      invariant Chains(sorted, 0, length) <==> Chains(sorted[j..], cursor, length)
    {
      if sorted[j].start != cursor {
        return None;
      }
      cursor := sorted[j].end;
      j := j + 1;
    }
    tensors := if cursor == length then Some(found) else None;
  }

  method Validate(c: Codec, payload: Bytes, codecVersion: string, schemaVersion: string, maxSize: Option<int>)
    returns (bundle: Option<Bundle>)
    ensures bundle.Some? <==> Accepted(c, payload, codecVersion, schemaVersion, maxSize)
    ensures bundle.Some? ==> bundle.value == BundleOf(c, payload, codecVersion, schemaVersion)
  {
    if !Identifier(codecVersion) || !Identifier(schemaVersion) || (maxSize.Some? && |payload| > maxSize.value) {
      return None;
    }
    var parts := Split(payload);
    if parts.None? {
      return None;
    }
    var fields := Header(c, parts.value.0);
    if fields.None? {
      return None;
    }
    var tensors := ValidateHeader(fields.value, codecVersion, schemaVersion, |parts.value.1|);
    bundle := if tensors.None? then None else Some(Bundle(codecVersion, schemaVersion, tensors.value, parts.value.1));
  }

  // ------------------------------------------------------------------------ building

  function MetadataOf(codecVersion: string, schemaVersion: string): Json {
    Object([("codec_version", String(codecVersion)), ("format", String(FORMAT)), ("schema_version", String(schemaVersion))])
  }

  function TensorOf(length: nat): Json {
    Object([("data_offsets", Array([Int(0), Int(length)])), ("dtype", String("U8")), ("shape", Array([Int(length)]))])
  }

  /** Assigning a key of a dictionary display: a repeated key keeps one entry. */
  function Assign(fields: seq<(string, Json)>, key: string, value: Json): seq<(string, Json)> {
    if fields == [] then [(key, value)]
    else if fields[0].0 == key then [(key, value)] + fields[1..]
    else [fields[0]] + Assign(fields[1..], key, value)
  }

  predicate TextLess(a: string, b: string) {
    b != [] && (a == [] || a[0] < b[0] || (a[0] == b[0] && TextLess(a[1..], b[1..])))
  }

  /** `sort_keys` for the at most two keys of a built header. */
  function KeySorted(fields: seq<(string, Json)>): seq<(string, Json)> {
    if |fields| == 2 && TextLess(fields[1].0, fields[0].0) then [fields[1], fields[0]] else fields
  }

  function BuiltHeader(length: nat, codecVersion: string, schemaVersion: string, tensorName: string): Json {
    Object(KeySorted(Assign([(METADATA, MetadataOf(codecVersion, schemaVersion))], tensorName, TensorOf(length))))
  }

  /** `build_u8_safe_tensor_bundle`; None stands for its ValueErrors. */
  function Build(c: Codec, value: Bytes, codecVersion: string, schemaVersion: string, tensorName: string): Option<Bytes> {
    if value == [] || !Identifier(codecVersion) || !Identifier(schemaVersion) || !Identifier(tensorName) then None
    else
      var header := c.encode(BuiltHeader(|value|, codecVersion, schemaVersion, tensorName));
      Some(Pack(|header|, 8) + header + value)
  }

  /** The JSON library on one header: text that begins with a brace, fits the header limit
      and decodes to what was encoded. */
  predicate Carries(c: Codec, header: Json) {
    c.decode(c.encode(header)) == Some(header) && 0 < |c.encode(header)| <= MAX_HEADER_BYTES && c.encode(header)[0] == 123
  }

  /** It carries every header a build can produce: identifiers are at most 64 characters,
      and no value has 2^64 bytes. */
  ghost predicate Lossless(c: Codec) {
    forall n: nat, cv, sv, name :: Buildable(n, cv, sv, name) ==> Carries(c, BuiltHeader(n, cv, sv, name))
  }

  predicate Buildable(n: nat, cv: string, sv: string, name: string) {
    n < Power(8) && Identifier(cv) && Identifier(sv) && Identifier(name)
  }

  function TensorBytes(b: Bundle, name: string): Option<Bytes> {
    TensorIn(b.tensors, b.data, name)
  }

  function TensorIn(tensors: seq<Descriptor>, data: Bytes, name: string): Option<Bytes> {
    if tensors == [] then None
    else if tensors[0].name == name then
      if 0 <= tensors[0].start <= tensors[0].end <= |data| then Some(data[tensors[0].start..tensors[0].end]) else None
    else TensorIn(tensors[1..], data, name)
  }

  lemma EightBytes(n: nat)
    requires n <= MAX_HEADER_BYTES
    ensures n < Power(8)
  {
    assert Power(2) == 65536 && Power(3) == 256 * Power(2);
    assert Power(8) == 256 * Power(7) && Power(7) == 256 * Power(6) && Power(6) == 256 * Power(5)
           && Power(5) == 256 * Power(4) && Power(4) == 256 * Power(3);
  }

  lemma SplitParts(prefix: Bytes, header: Bytes, value: Bytes)
    requires |prefix| == 8 && Unpack(prefix) == |header| && 0 < |header| <= MAX_HEADER_BYTES && value != []
    ensures Split(prefix + header + value) == Some((header, value))
  {
    var payload := prefix + header + value;
    assert payload[..8] == prefix;
    assert payload[8..8 + |header|] == header && payload[8 + |header|..] == value;
  }

  lemma BuiltSplits(header: Bytes, value: Bytes)
    requires 0 < |header| <= MAX_HEADER_BYTES && value != []
    ensures Split(Pack(|header|, 8) + header + value) == Some((header, value))
  {
    EightBytes(|header|);
    PackRoundTrip(|header|, 8);
    SplitParts(Pack(|header|, 8), header, value);
  }

  lemma LookupThree(a: (string, Json), b: (string, Json), d: (string, Json), key: string)
    ensures Lookup([a, b, d], key) ==
            if a.0 == key then Some(a.1) else if b.0 == key then Some(b.1) else if d.0 == key then Some(d.1) else None
  {
    assert [a, b, d][1..] == [b, d] && [b, d][1..] == [d] && [d][1..] == [];
    assert Lookup([d], key) == if d.0 == key then Some(d.1) else None;
    assert Lookup([b, d], key) == if b.0 == key then Some(b.1) else Lookup([d], key);
  }

  lemma MetadataIsSealed(cv: string, sv: string)
    ensures IsMetadata(MetadataOf(cv, sv), cv, sv) && Unique(MetadataOf(cv, sv))
  {
    var fields := MetadataOf(cv, sv).fields;
    LookupThree(fields[0], fields[1], fields[2], "format");
    LookupThree(fields[0], fields[1], fields[2], "codec_version");
    LookupThree(fields[0], fields[1], fields[2], "schema_version");
    assert fields == [fields[0], fields[1], fields[2]];
    assert "codec_version"[0] != "format"[0] && "codec_version"[0] != "schema_version"[0] && "format"[0] != "schema_version"[0];
  }

  lemma TensorIsTyped(n: nat)
    ensures Typed(TensorOf(n)) && Unique(TensorOf(n)) && Lookup(TensorOf(n).fields, "format").None?
    ensures n > 0 ==> Fits(DescriptorOf(("t", TensorOf(n))), n)
    ensures forall name :: DescriptorOf((name, TensorOf(n))) == Descriptor(name, "U8", [n], 0, n)
  {
    var fields := TensorOf(n).fields;
    LookupThree(fields[0], fields[1], fields[2], "dtype");
    LookupThree(fields[0], fields[1], fields[2], "shape");
    LookupThree(fields[0], fields[1], fields[2], "data_offsets");
    LookupThree(fields[0], fields[1], fields[2], "format");
    assert fields == [fields[0], fields[1], fields[2]];
    assert |"data_offsets"| != |"dtype"| && "dtype"[0] != "shape"[0] && |"data_offsets"| != |"shape"|;
    assert "format"[0] != "data_offsets"[0] && "format"[0] != "dtype"[0] && "format"[0] != "shape"[0];
    assert Lookup(fields, "dtype") == Some(String("U8"));
    assert Lookup(fields, "shape") == Some(Array([Int(n)]));
    assert Lookup(fields, "data_offsets") == Some(Array([Int(0), Int(n)]));
    assert Product([n]) == n by {
      assert [n][..0] == [];
    }
    assert Numbers([Int(n)]) == [n] && Numbers([Int(0), Int(n)]) == [0, n];
  }

  /** Two fields in either key order, taken apart again. */
  lemma TwoFields(first: (string, Json), second: (string, Json))
    requires first.0 == METADATA && second.0 != METADATA
    ensures forall fields :: fields in {[first, second], [second, first]} ==>
              Lookup(fields, METADATA) == Some(first.1) && Without(fields, METADATA) == [second] && DistinctKeys(fields)
  {
    assert [first, second][1..] == [second] && [second, first][1..] == [first];
    assert [first][1..] == [] && [second][1..] == [];
    assert Without([], METADATA) == [];
    assert Without([first], METADATA) == [] + Without([first][1..], METADATA);
    assert Without([second], METADATA) == [second] + Without([second][1..], METADATA);
    assert Without([first, second], METADATA) == [second];
    assert Without([second, first], METADATA) == [second];
  }

  lemma BuiltFields(n: nat, cv: string, sv: string, name: string)
    ensures var fields := BuiltHeader(n, cv, sv, name).fields;
            if name == METADATA then fields == [(METADATA, TensorOf(n))]
            else && Lookup(fields, METADATA) == Some(MetadataOf(cv, sv))
                 && Without(fields, METADATA) == [(name, TensorOf(n))]
                 && DistinctKeys(fields)
    ensures BuiltHeader(n, cv, sv, name).fields != []
    ensures Unique(BuiltHeader(n, cv, sv, name))
  {
    var first, second := (METADATA, MetadataOf(cv, sv)), (name, TensorOf(n));
    var fields := BuiltHeader(n, cv, sv, name).fields;
    if name != METADATA {
      assert Assign([first], name, TensorOf(n)) == [first, second];
      assert fields in {[first, second], [second, first]};
      TwoFields(first, second);
    } else {
      assert Assign([first], name, TensorOf(n)) == [second];
    }
    MetadataIsSealed(cv, sv);
    TensorIsTyped(n);
  }

  lemma WholeRangeIsPartition(n: nat)
    requires n > 0
    ensures Partition([Range(0, n)], 0, n)
  {
    forall i | 0 <= i < n ensures Cover([Range(0, n)], i) == 1 {
      assert [Range(0, n)][1..] == [];
    }
  }

  lemma BuiltAccepts(n: nat, cv: string, sv: string, name: string)
    requires n > 0 && Identifier(name)
    ensures Accepts(BuiltHeader(n, cv, sv, name).fields, cv, sv, n) <==> name != METADATA
  {
    BuiltFields(n, cv, sv, name);
    MetadataIsSealed(cv, sv);
    TensorIsTyped(n);
    if name != METADATA {
      var tensors := Without(BuiltHeader(n, cv, sv, name).fields, METADATA);
      assert Describes(tensors[0], n);
      assert RangesOf(Descriptors(tensors)) == [Range(0, n)];
      WholeRangeIsPartition(n);
    }
  }

  // ------------------------------------------------------- a codec for built headers

  function CharByte(c: char): Byte {
    if c as int < 256 then (c as int) as Byte else 0
  }

  function Ascii(s: string): Bytes
    requires forall k :: 0 <= k < |s| ==> NameCharacter(s[k])
  {
    seq(|s|, k requires 0 <= k < |s| => CharByte(s[k]))
  }

  /** Everything a built header depends on, written out with its lengths. */
  function Plain(n: nat, cv: string, sv: string, name: string): Bytes
    requires Buildable(n, cv, sv, name)
  {
    [(123 as Byte), |cv| as Byte, |sv| as Byte, |name| as Byte] + Ascii(cv) + Ascii(sv) + Ascii(name) + Pack(n, 8)
  }

  lemma AsciiIsInjective(a: string, b: string)
    requires forall k :: 0 <= k < |a| ==> NameCharacter(a[k])
    requires forall k :: 0 <= k < |b| ==> NameCharacter(b[k])
    requires Ascii(a) == Ascii(b)
    ensures a == b
  {
    assert |a| == |Ascii(a)| == |b|;
    forall k | 0 <= k < |a| ensures a[k] == b[k] {
      assert Ascii(a)[k] == Ascii(b)[k];
    }
  }

  lemma PlainParts(n: nat, cv: string, sv: string, name: string)
    requires Buildable(n, cv, sv, name)
    ensures var t := Plain(n, cv, sv, name);
            && |t| == 12 + |cv| + |sv| + |name| && t[1] as int == |cv| && t[2] as int == |sv| && t[3] as int == |name|
            && t[4..4 + |cv|] == Ascii(cv) && t[4 + |cv|..4 + |cv| + |sv|] == Ascii(sv)
            && t[4 + |cv| + |sv|..4 + |cv| + |sv| + |name|] == Ascii(name) && t[4 + |cv| + |sv| + |name|..] == Pack(n, 8)
  {
  }

  lemma PlainIsInjective(n: nat, cv: string, sv: string, name: string, n': nat, cv': string, sv': string, name': string)
    requires Buildable(n, cv, sv, name) && Buildable(n', cv', sv', name')
    requires Plain(n, cv, sv, name) == Plain(n', cv', sv', name')
    ensures n == n' && cv == cv' && sv == sv' && name == name'
  {
    PlainParts(n, cv, sv, name);
    PlainParts(n', cv', sv', name');
    AsciiIsInjective(cv, cv');
    AsciiIsInjective(sv, sv');
    AsciiIsInjective(name, name');
    PackRoundTrip(n, 8);
    PackRoundTrip(n', 8);
  }

  ghost predicate WritesAs(header: Json, text: Bytes) {
    exists n: nat, cv, sv, name :: Buildable(n, cv, sv, name) && header == BuiltHeader(n, cv, sv, name) && text == Plain(n, cv, sv, name)
  }

  ghost function PlainEncode(header: Json): Bytes {
    if exists text :: WritesAs(header, text) then var text :| WritesAs(header, text); text else []
  }

  ghost function PlainDecode(text: Bytes): Option<Json> {
    if exists header :: WritesAs(header, text) then var header :| WritesAs(header, text); Some(header) else None
  }

  lemma TextNamesOneHeader(a: Json, b: Json, text: Bytes)
    requires WritesAs(a, text) && WritesAs(b, text)
    ensures a == b && 0 < |text| <= MAX_HEADER_BYTES && text[0] == 123
  {
    var n: nat, cv, sv, name :| Buildable(n, cv, sv, name) && a == BuiltHeader(n, cv, sv, name) && text == Plain(n, cv, sv, name);
    var n': nat, cv', sv', name' :| Buildable(n', cv', sv', name') && b == BuiltHeader(n', cv', sv', name') && text == Plain(n', cv', sv', name');
    PlainIsInjective(n, cv, sv, name, n', cv', sv', name');
    PlainParts(n, cv, sv, name);
  }

  /** There are such codecs: this one writes what the header depends on. */
  lemma LosslessCodecExists() returns (c: Codec)
    ensures Lossless(c)
  {
    c := Codec(PlainEncode, PlainDecode);
    forall n: nat, cv, sv, name | Buildable(n, cv, sv, name) ensures Carries(c, BuiltHeader(n, cv, sv, name)) {
      var header := BuiltHeader(n, cv, sv, name);
      assert WritesAs(header, Plain(n, cv, sv, name));
      var text := PlainEncode(header);
      assert WritesAs(header, text);
      assert WritesAs(PlainDecode(text).value, text);
      TextNamesOneHeader(header, PlainDecode(text).value, text);
    }
  }

  // ---------------------------------------------------------------------- the round trip

  /** Round trip: a bundle built from any value validates, and gives the value back, unless
      the tensor is named like the metadata entry, which the name check permits; then the
      built payload is never accepted. */
  lemma BuildRoundTrips(c: Codec, value: Bytes, cv: string, sv: string, name: string)
    requires Carries(c, BuiltHeader(|value|, cv, sv, name))
    requires value != [] && Identifier(cv) && Identifier(sv) && Identifier(name)
    ensures var payload := Build(c, value, cv, sv, name).value;
            && (Accepted(c, payload, cv, sv, None) <==> name != METADATA)
            && (name != METADATA ==>
                  && BundleOf(c, payload, cv, sv).tensors == [Descriptor(name, "U8", [|value|], 0, |value|)]
                  && TensorBytes(BundleOf(c, payload, cv, sv), name) == Some(value))
  {
    var j := BuiltHeader(|value|, cv, sv, name);
    BuiltSplits(c.encode(j), value);
    BuiltFields(|value|, cv, sv, name);
    BuiltAccepts(|value|, cv, sv, name);
    assert Header(c, c.encode(j)) == Some(j.fields);
    if name != METADATA {
      TensorIsTyped(|value|);
      assert Descriptors([(name, TensorOf(|value|))]) == [Descriptor(name, "U8", [|value|], 0, |value|)];
      assert value[0..|value|] == value;
    }
  }

  /** The name check admits the colliding name. */
  lemma MetadataIsAnIdentifier()
    ensures Identifier(METADATA)
  {
  }
}

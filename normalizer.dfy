/**
 * Conversion of Google Ads API values into plain, JSON-serialisable data
 * (ads_mcp/utils.py: `format_output_value`, lines 91-119, and
 * `format_output_row`, lines 122-126).
 *
 * A Python value is modelled by `WireValue`. The kinds overlap as Python's
 * `isinstance` tests do: a proto-plus enum is an `IntEnum`, hence also an
 * int, and strings and bytes are iterable. The normalizer tests the kinds in
 * a fixed order, and the lemmas below show which test wins on the overlaps.
 */
module Normalizer {

  /** A protobuf message object; its contents are seen only through the library conversions. */
  type MessageId = nat

  datatype WireValue =
    | ProtoEnum(name: string, number: int)    // a proto-plus enum member, e.g. CampaignStatus.ENABLED
    | ProtoPlusMessage(plus: MessageId)       // a proto-plus message wrapper
    | RawMessage(raw: MessageId)              // a raw protobuf message (upb C-extension type)
    | Str(s: string)
    | Bytes(bytes: seq<bv8>)
    | Int(n: int)
    | Float(f: real)
    | Bool(flag: bool)
    | NoneValue
    | List(items: seq<WireValue>)              // a Python list
    | Sequence(items: seq<WireValue>)          // any other iterable of items: tuple, repeated container
    // A mapping, entries in insertion order. Python keeps its keys distinct;
    // the model does not require it, so the lemmas also cover repeated keys.
    | Dict(entries: seq<(WireValue, WireValue)>)
    | Opaque(id: nat)                          // an object of any other type, not iterable

  /**
   * The library conversions the normalizer calls: `proto.Message.to_dict`
   * and `MessageToDict(value, preserving_proto_field_name=True)`.
   */
  datatype Converters = Converters(plusToDict: MessageId -> WireValue, rawToDict: MessageId -> WireValue)

  // ---- the isinstance tests, in the order the normalizer applies them ------

  predicate IsProtoEnum(v: WireValue) { v.ProtoEnum? }

  predicate IsProtoMessage(v: WireValue) { v.ProtoPlusMessage? }

  predicate IsRawMessage(v: WireValue) { v.RawMessage? }

  /** `isinstance(v, (str, bytes, int, float, bool, type(None)))`; an enum member is an int. */
  predicate IsScalar(v: WireValue)
  {
    v.ProtoEnum? || v.Str? || v.Bytes? || v.Int? || v.Float? || v.Bool? || v.NoneValue?
  }

  /** `iter(v)` succeeds. */
  predicate IsIterable(v: WireValue)
  {
    v.Str? || v.Bytes? || v.List? || v.Sequence? || v.Dict?
  }

  /** What `for item in v` visits: characters, byte values, items, or the keys of a mapping. */
  function Iterate(v: WireValue): (r: seq<WireValue>)
    requires IsIterable(v)
  {
    match v
    case Str(s) => seq(|s|, k requires 0 <= k < |s| => Str([s[k]]))
    case Bytes(b) => seq(|b|, k requires 0 <= k < |b| => Int(b[k] as int))
    case List(items) => items
    case Sequence(items) => items
    case Dict(entries) => seq(|entries|, k requires 0 <= k < |entries| => entries[k].0)
  }

  /**
   * `format_output_value`. In the last branch only lists, other sequences
   * and mappings remain iterable (strings and bytes were taken as scalars);
   * each becomes a new list. Anything else makes iteration raise `TypeError`
   * and is returned as it is. So, short of a message conversion, the result
   * is a scalar other than an enum member, a list, or the non-iterable
   * object itself.
   */
  function FormatOutputValue(v: WireValue, conv: Converters): (r: WireValue)
    ensures !IsProtoMessage(v) && !IsRawMessage(v) ==>
              (IsScalar(r) && !IsProtoEnum(r)) || r.List? || (r == v && !IsIterable(v))
    decreases v
  {
    if IsProtoEnum(v) then Str(v.name)
    else if IsProtoMessage(v) then conv.plusToDict(v.plus)
    else if IsRawMessage(v) then conv.rawToDict(v.raw)
    else if IsScalar(v) then v
    else if v.List? || v.Sequence? then
      List(seq(|v.items|, k requires 0 <= k < |v.items| => FormatOutputValue(v.items[k], conv)))
    else if v.Dict? then
      List(seq(|v.entries|, k requires 0 <= k < |v.entries| => FormatOutputValue(v.entries[k].0, conv)))
    else v
  }

  // ---- the dispatch, branch by branch -------------------------------------

  /** An enum member becomes its symbolic name, although it is also an int. */
  lemma EnumBecomesName(v: WireValue, conv: Converters)
    requires IsProtoEnum(v)
    ensures IsScalar(v)
    ensures FormatOutputValue(v, conv) == Str(v.name)
    ensures FormatOutputValue(v, conv) != Int(v.number)
  {
  }

  /** A proto-plus message becomes what `to_dict` gives; a raw one what `MessageToDict` gives. */
  lemma MessagesBecomeDicts(v: WireValue, conv: Converters)
    ensures IsProtoMessage(v) ==> FormatOutputValue(v, conv) == conv.plusToDict(v.plus)
    ensures IsRawMessage(v) ==> FormatOutputValue(v, conv) == conv.rawToDict(v.raw)
  {
  }

  /**
   * Scalars other than enum members come back unchanged; in particular a
   * string (which is iterable) is never split into its characters.
   */
  lemma ScalarsUnchanged(v: WireValue, conv: Converters)
    requires IsScalar(v) && !IsProtoEnum(v)
    ensures FormatOutputValue(v, conv) == v
    ensures v.Str? ==> IsIterable(v) && !FormatOutputValue(v, conv).List?
  {
  }

  /**
   * Past the enum, message and scalar tests, an iterable value becomes a list
   * of the same length whose k-th element is the normalisation of the k-th
   * item that iteration visits; any other value comes back unchanged.
   */
  lemma {:induction false} IterableFallback(v: WireValue, conv: Converters)
    requires !IsProtoEnum(v) && !IsProtoMessage(v) && !IsRawMessage(v) && !IsScalar(v)
    ensures var r := FormatOutputValue(v, conv);
            if IsIterable(v) then
              && r.List? && |r.items| == |Iterate(v)|
              && forall k :: 0 <= k < |r.items| ==> r.items[k] == FormatOutputValue(Iterate(v)[k], conv)
            else r == v
  {
  }

  /** A mapping that reaches the iterable branch yields its keys: its values are dropped. */
  lemma MappingYieldsKeys(entries: seq<(WireValue, WireValue)>, conv: Converters)
    ensures var r := FormatOutputValue(Dict(entries), conv);
            && r.List? && |r.items| == |entries|
            && forall k :: 0 <= k < |entries| ==> r.items[k] == FormatOutputValue(entries[k].0, conv)
  {
  }

  /**
   * A tuple or repeated container becomes a new list of its normalised items,
   * never the container itself.
   */
  lemma SequenceBecomesList(items: seq<WireValue>, conv: Converters)
    ensures var r := FormatOutputValue(Sequence(items), conv);
            && r.List? && r != Sequence(items) && |r.items| == |items|
            && forall k :: 0 <= k < |items| ==> r.items[k] == FormatOutputValue(items[k], conv)
  {
  }

  /** A list of scalars (no enum members) normalises to an equal list. */
  lemma ScalarListUnchanged(items: seq<WireValue>, conv: Converters)
    requires forall k :: 0 <= k < |items| ==> IsScalar(items[k]) && !IsProtoEnum(items[k])
    ensures FormatOutputValue(List(items), conv) == List(items)
  {
    var r := FormatOutputValue(List(items), conv);
    forall k | 0 <= k < |items| ensures r.items[k] == items[k] {
      ScalarsUnchanged(items[k], conv);
    }
    assert r.items == items;
  }

  // ---- what the normaliser produces ---------------------------------------

  /**
   * Built-in Python data: scalars that are not enum members, lists and
   * mappings of such. Tuples and repeated containers are not.
   */
  predicate IsPlainData(v: WireValue)
  {
    match v
    case ProtoEnum(_, _) => false
    case ProtoPlusMessage(_) => false
    case RawMessage(_) => false
    case Sequence(_) => false
    case Opaque(_) => false
    case List(items) => forall k :: 0 <= k < |items| ==> IsPlainData(items[k])
    case Dict(entries) =>
      forall k :: 0 <= k < |entries| ==> IsPlainData(entries[k].0) && IsPlainData(entries[k].1)
    case _ => true
  }

  /**
   * No object of an unrecognised type occurs where the normaliser would keep
   * it. The values of a mapping are dropped, so they may hold anything.
   */
  predicate NoKeptOpaque(v: WireValue)
  {
    match v
    case Opaque(_) => false
    case List(items) => forall k :: 0 <= k < |items| ==> NoKeptOpaque(items[k])
    case Sequence(items) => forall k :: 0 <= k < |items| ==> NoKeptOpaque(items[k])
    case Dict(entries) => forall k :: 0 <= k < |entries| ==> NoKeptOpaque(entries[k].0)
    case _ => true
  }

  /** The library conversions produce built-in data for every message. */
  ghost predicate ConvertsToPlainData(conv: Converters)
  {
    (forall m: MessageId :: IsPlainData(conv.plusToDict(m))) &&
    (forall m: MessageId :: IsPlainData(conv.rawToDict(m)))
  }

  /**
   * The normaliser turns every value without a kept unrecognised object into
   * built-in data, provided the library conversions do so for messages.
   */
  lemma {:induction false} NormalizesToPlainData(v: WireValue, conv: Converters)
    requires NoKeptOpaque(v) && ConvertsToPlainData(conv)
    ensures IsPlainData(FormatOutputValue(v, conv))
    decreases v
  {
    match v
    case List(items) =>
      forall k | 0 <= k < |items| ensures IsPlainData(FormatOutputValue(items[k], conv)) {
        NormalizesToPlainData(items[k], conv);
      }
    case Sequence(items) =>
      forall k | 0 <= k < |items| ensures IsPlainData(FormatOutputValue(items[k], conv)) {
        NormalizesToPlainData(items[k], conv);
      }
    case Dict(entries) =>
      forall k | 0 <= k < |entries| ensures IsPlainData(FormatOutputValue(entries[k].0, conv)) {
        NormalizesToPlainData(entries[k].0, conv);
      }
    case _ =>
  }

  /** Built-in data without mappings (so also without tuples or containers): what the normaliser leaves as it is. */
  predicate IsPlainMappingFree(v: WireValue)
  {
    match v
    case List(items) => forall k :: 0 <= k < |items| ==> IsPlainMappingFree(items[k])
    case Dict(_) => false
    case _ => IsPlainData(v)
  }

  /**
   * Built-in data without mappings is a fixed point of the normaliser; a
   * mapping is not, since it is replaced by the list of its keys, and
   * neither is a tuple or container, which becomes a list.
   */
  lemma {:induction false} MappingFreeDataIsFixed(v: WireValue, conv: Converters)
    requires IsPlainMappingFree(v)
    ensures FormatOutputValue(v, conv) == v
    decreases v
  {
    match v
    case List(items) =>
      forall k | 0 <= k < |items| ensures FormatOutputValue(items[k], conv) == items[k] {
        MappingFreeDataIsFixed(items[k], conv);
      }
      assert FormatOutputValue(v, conv).items == items;
    case _ =>
  }

  // ---- format_output_row --------------------------------------------------

  /**
   * `format_output_row`: for each attribute path, in order, the normalised
   * value that `resolve` (the library's `get_nested_attr`) finds on the row,
   * keyed by the literal path. A repeated path overwrites the same key.
   */
  function FormatOutputRow<Row>(row: Row, attributes: seq<string>,
                                resolve: (Row, string) -> WireValue, conv: Converters): (r: map<string, WireValue>)
    ensures r.Keys == set a | a in attributes
    ensures forall a :: a in attributes ==> r[a] == FormatOutputValue(resolve(row, a), conv)
  {
    if attributes == [] then map[]
    else
      var last := attributes[|attributes| - 1];
      FormatOutputRow(row, attributes[..|attributes| - 1], resolve, conv)[last := FormatOutputValue(resolve(row, last), conv)]
  }
}

/** Type-preserving encoding of message payloads. */
module Codec {
  import opened Common

  const RESERVED := "__lb_type__"
  const DATA := "data"

  /** A payload. A dict is its items in order; an instance is its class and its fields in declaration order. */
  datatype Value =
    | Null
    | Bool(b: bool)
    | Int(n: int)
    | Float(x: real)
    | Str(s: string)
    | List(items: seq<Value>)
    | Dict(entries: seq<Entry>)
    | Inst(cls: nat, fields: seq<Entry>)

  datatype Entry = Entry(key: string, val: Value)

  /** A field of a dataclass; `init` says whether the constructor takes it. */
  datatype Field = Field(name: string, init: bool, default: Option<Value>)

  /** The dataclasses of a program: their tags, what importing a tag finds, and their fields. */
  datatype Classes = Classes(tag: nat -> string, resolve: string -> Option<nat>, schema: nat -> seq<Field>)

  datatype Error = MissingData | NoCodec | NotADict | WrongFields

  // ---------- encoding ----------

  function Encode(k: Classes, v: Value): Value {
    match v
    case List(items) => List(EncodeItems(k, items))
    case Dict(entries) => Dict(EncodeEntries(k, entries))
    case Inst(cls, fields) => Dict([Entry(RESERVED, Str(k.tag(cls))), Entry(DATA, Dict(EncodeEntries(k, fields)))])
    case _ => v
  }

  function EncodeItems(k: Classes, vs: seq<Value>): (r: seq<Value>)
    ensures |r| == |vs|
  {
    if vs == [] then [] else [Encode(k, vs[0])] + EncodeItems(k, vs[1..])
  }

  function EncodeEntries(k: Classes, es: seq<Entry>): (r: seq<Entry>)
    ensures |r| == |es| && forall i :: 0 <= i < |es| ==> r[i].key == es[i].key
  {
    if es == [] then [] else [Entry(es[0].key, Encode(k, es[0].val))] + EncodeEntries(k, es[1..])
  }

  // ---------- decoding ----------

  /** Position of a key, or `|es|` when it is absent. */
  function Find(es: seq<Entry>, key: string): (i: nat)
    ensures i <= |es| && (i < |es| ==> es[i].key == key)
    ensures forall j :: 0 <= j < i ==> es[j].key != key
  {
    if es == [] then 0 else if es[0].key == key then 0 else 1 + Find(es[1..], key)
  }

  predicate Has(es: seq<Entry>, key: string) {
    Find(es, key) < |es|
  }

  /** A dict the decoder takes for an encoded instance. */
  predicate IsEnvelope(es: seq<Entry>) {
    Has(es, RESERVED) && !es[Find(es, RESERVED)].val.Null?
  }

  function Decode(k: Classes, v: Value): Result<Value, Error>
    decreases v, 0
  {
    match v
    case List(items) =>
      (match DecodeItems(k, items) case Err(e) => Err(e) case Ok(vs) => Ok(List(vs)))
    case Dict(entries) =>
      if IsEnvelope(entries) then Rebuild(k, entries)
      else (match DecodeEntries(k, entries) case Err(e) => Err(e) case Ok(es) => Ok(Dict(es)))
    case _ => Ok(v)
  }

  function DecodeItems(k: Classes, vs: seq<Value>): Result<seq<Value>, Error>
    decreases vs, 0
  {
    if vs == [] then Ok([])
    else match Decode(k, vs[0])
      case Err(e) => Err(e)
      case Ok(v) =>
        match DecodeItems(k, vs[1..])
        case Err(e) => Err(e)
        case Ok(more) => Ok([v] + more)
  }

  function DecodeEntries(k: Classes, es: seq<Entry>): Result<seq<Entry>, Error>
    decreases es, 0
  {
    if es == [] then Ok([])
    else match Decode(k, es[0].val)
      case Err(e) => Err(e)
      case Ok(v) =>
        match DecodeEntries(k, es[1..])
        case Err(e) => Err(e)
        case Ok(more) => Ok([Entry(es[0].key, v)] + more)
  }

  function Rebuild(k: Classes, es: seq<Entry>): Result<Value, Error>
    requires IsEnvelope(es)
    decreases es, 1
  {
    var tag := es[Find(es, RESERVED)].val;
    if !Has(es, DATA) then Err(MissingData)
    else
      var data := es[Find(es, DATA)].val;
      if !tag.Str? || k.resolve(tag.s).None? then Err(NoCodec)
      else if !data.Dict? then Err(NotADict)
      else Assemble(k, k.resolve(tag.s).value, DecodeEntries(k, data.entries))
  }

  function Assemble(k: Classes, cls: nat, fields: Result<seq<Entry>, Error>): Result<Value, Error> {
    match fields
    case Err(e) => Err(e)
    case Ok(fs) => Construct(k, cls, fs)
  }

  predicate Takes(schema: seq<Field>, key: string) {
    exists j :: 0 <= j < |schema| && schema[j].name == key && schema[j].init
  }

  /** Every keyword is one the constructor takes, and every one it needs is there. */
  predicate Acceptable(schema: seq<Field>, fields: seq<Entry>) {
    && (forall i :: 0 <= i < |fields| ==> Takes(schema, fields[i].key))
    && (forall j :: 0 <= j < |schema| && schema[j].init && schema[j].default.None? ==> Has(fields, schema[j].name))
  }

  /** `cls(**fields)`: what is not given takes its default. */
  function Construct(k: Classes, cls: nat, fields: seq<Entry>): Result<Value, Error> {
    if Acceptable(k.schema(cls), fields) then Ok(Inst(cls, Fill(k.schema(cls), fields))) else Err(WrongFields)
  }

  /** The attributes of the new instance, in declaration order. */
  function Fill(schema: seq<Field>, fields: seq<Entry>): seq<Entry> {
    if schema == [] then [] else Attribute(schema[0], fields) + Fill(schema[1..], fields)
  }

  function Attribute(f: Field, fields: seq<Entry>): seq<Entry> {
    if f.init && Has(fields, f.name) then [fields[Find(fields, f.name)]]
    else if f.default.Some? then [Entry(f.name, f.default.value)]
    else []
  }

  // ---------- what round trips ----------

  ghost predicate DistinctKeys(es: seq<Entry>) {
    forall i, j :: 0 <= i < j < |es| ==> es[i].key != es[j].key
  }

  ghost predicate Matches(es: seq<Entry>, schema: seq<Field>) {
    |es| == |schema| && forall i :: 0 <= i < |es| ==> es[i].key == schema[i].name
  }

  /** The constructor takes every field. */
  ghost predicate AllInit(schema: seq<Field>) {
    forall j :: 0 <= j < |schema| ==> schema[j].init
  }

  /** Values a program can hold: dict keys are distinct, and an instance has the fields of its class. */
  ghost predicate Proper(k: Classes, v: Value) {
    match v
    case List(items) => forall i :: 0 <= i < |items| ==> Proper(k, items[i])
    case Dict(es) => DistinctKeys(es) && forall i :: 0 <= i < |es| ==> Proper(k, es[i].val)
    case Inst(cls, es) =>
      DistinctKeys(es) && Matches(es, k.schema(cls)) && forall i :: 0 <= i < |es| ==> Proper(k, es[i].val)
    case _ => true
  }

  /** No plain dict looks like an envelope, and every class is found again under its own tag and can be
      constructed from its fields. */
  ghost predicate Faithful(k: Classes, v: Value) {
    match v
    case List(items) => forall i :: 0 <= i < |items| ==> Faithful(k, items[i])
    case Dict(es) => !IsEnvelope(es) && forall i :: 0 <= i < |es| ==> Faithful(k, es[i].val)
    case Inst(cls, es) =>
      && k.resolve(k.tag(cls)) == Some(cls) && AllInit(k.schema(cls))
      && forall i :: 0 <= i < |es| ==> Faithful(k, es[i].val)
    case _ => true
  }

  lemma {:induction false} FindSameKeys(a: seq<Entry>, b: seq<Entry>, key: string)
    requires |a| == |b| && forall i :: 0 <= i < |a| ==> a[i].key == b[i].key
    ensures Find(a, key) == Find(b, key)
  {
    if a != [] && a[0].key != key {
      FindSameKeys(a[1..], b[1..], key);
    }
  }

  lemma {:induction false} EncodeEntriesAt(k: Classes, es: seq<Entry>, i: nat)
    requires i < |es|
    ensures EncodeEntries(k, es)[i].val == Encode(k, es[i].val)
  {
    if i > 0 {
      EncodeEntriesAt(k, es[1..], i - 1);
    }
  }

  lemma EntryKept(k: Classes, es: seq<Entry>, key: string)
    ensures Find(EncodeEntries(k, es), key) == Find(es, key)
    ensures Has(es, key) ==> EncodeEntries(k, es)[Find(es, key)].val == Encode(k, es[Find(es, key)].val)
  {
    FindSameKeys(EncodeEntries(k, es), es, key);
    if Has(es, key) {
      EncodeEntriesAt(k, es, Find(es, key));
    }
  }

  lemma NullKept(k: Classes, v: Value)
    ensures Encode(k, v).Null? <==> v.Null?
  {
  }

  lemma EnvelopeKept(k: Classes, es: seq<Entry>)
    ensures IsEnvelope(EncodeEntries(k, es)) <==> IsEnvelope(es)
  {
    EntryKept(k, es, RESERVED);
    if Has(es, RESERVED) {
      NullKept(k, es[Find(es, RESERVED)].val);
    }
  }

  lemma FindInOrder(es: seq<Entry>, i: nat)
    requires i < |es| && DistinctKeys(es)
    ensures Find(es, es[i].key) == i
  {
  }

  lemma {:induction false} FillAll(schema: seq<Field>, es: seq<Entry>, n: nat)
    requires DistinctKeys(es) && Matches(es, schema) && AllInit(schema) && n <= |es|
    ensures Fill(schema[n..], es) == es[n..]
    decreases |es| - n
  {
    if n < |es| {
      FindInOrder(es, n);
      FillAll(schema, es, n + 1);
      assert schema[n..][0] == schema[n] && schema[n..][1..] == schema[n + 1..];
      assert [es[n]] + es[n + 1..] == es[n..];
    }
  }

  /** A dict is taken for an instance exactly when its reserved key leads to something other than `None`. */
  lemma EnvelopeIff(es: seq<Entry>)
    requires DistinctKeys(es)
    ensures IsEnvelope(es) <==> exists i :: 0 <= i < |es| && es[i].key == RESERVED && !es[i].val.Null?
  {
    if i :| 0 <= i < |es| && es[i].key == RESERVED && !es[i].val.Null? {
      FindInOrder(es, i);
    }
  }

  /** What makes an envelope fail before its fields are looked at. */
  lemma BadEnvelope(k: Classes, es: seq<Entry>)
    requires IsEnvelope(es)
    ensures var tag := es[Find(es, RESERVED)].val;
            && (!Has(es, DATA) ==> Rebuild(k, es) == Err(MissingData))
            && (Has(es, DATA) && (!tag.Str? || k.resolve(tag.s).None?) ==> Rebuild(k, es) == Err(NoCodec))
            && (Has(es, DATA) && tag.Str? && k.resolve(tag.s).Some? && !es[Find(es, DATA)].val.Dict? ==>
                  Rebuild(k, es) == Err(NotADict))
  {
  }

  /** The entries of `es` without the one at `j`. */
  function Omit(es: seq<Entry>, j: nat): seq<Entry>
    requires j < |es|
  {
    es[..j] + es[j + 1..]
  }

  lemma OmitFinds(es: seq<Entry>, j: nat, i: nat)
    requires DistinctKeys(es) && i < |es| && j < |es|
    ensures DistinctKeys(Omit(es, j))
    ensures if i == j then !Has(Omit(es, j), es[i].key)
            else Has(Omit(es, j), es[i].key) && Omit(es, j)[Find(Omit(es, j), es[i].key)] == es[i]
  {
    var rest := Omit(es, j);
    if i != j {
      var at := if i < j then i else i - 1;
      assert rest[at] == es[i];
      FindInOrder(rest, at);
    } else {
      assert forall at :: 0 <= at < |rest| ==> rest[at] == es[if at < j then at else at + 1];
    }
  }

  lemma {:induction false} FillOmitted(schema: seq<Field>, es: seq<Entry>, j: nat, n: nat)
    requires DistinctKeys(es) && Matches(es, schema) && AllInit(schema) && j < |es| && n <= |es|
    requires schema[j].default.Some?
    ensures Fill(schema[n..], Omit(es, j)) == es[j := Entry(schema[j].name, schema[j].default.value)][n..]
    decreases |es| - n
  {
    if n < |es| {
      var filled := es[j := Entry(schema[j].name, schema[j].default.value)];
      OmitFinds(es, j, n);
      FillOmitted(schema, es, j, n + 1);
      assert schema[n..][0] == schema[n] && schema[n..][1..] == schema[n + 1..];
      assert [filled[n]] + filled[n + 1..] == filled[n..];
    }
  }

  lemma OmittedAcceptable(schema: seq<Field>, es: seq<Entry>, j: nat)
    requires DistinctKeys(es) && Matches(es, schema) && AllInit(schema) && j < |es|
    ensures Acceptable(schema, Omit(es, j)) <==> schema[j].default.Some?
  {
    var rest := Omit(es, j);
    forall i | 0 <= i < |rest|
      ensures Takes(schema, rest[i].key)
    {
      var at := if i < j then i else i + 1;
      assert rest[i] == es[at] && schema[at].name == rest[i].key;
    }
    forall i | 0 <= i < |es|
      ensures Has(rest, schema[i].name) <==> i != j
    {
      OmitFinds(es, j, i);
    }
  }

  /** A field that is not given takes its default; without one the construction fails. */
  lemma MissingFieldTakesDefault(k: Classes, cls: nat, es: seq<Entry>, j: nat)
    requires DistinctKeys(es) && Matches(es, k.schema(cls)) && AllInit(k.schema(cls)) && j < |es|
    ensures var f := k.schema(cls)[j];
            Construct(k, cls, Omit(es, j)) == if f.default.None? then Err(WrongFields)
                                              else Ok(Inst(cls, es[j := Entry(f.name, f.default.value)]))
  {
    var schema := k.schema(cls);
    OmittedAcceptable(schema, es, j);
    if schema[j].default.Some? {
      FillOmitted(schema, es, j, 0);
      var filled := es[j := Entry(schema[j].name, schema[j].default.value)];
      assert schema[0..] == schema && filled[0..] == filled;
    }
  }

  lemma AcceptableIffAllInit(schema: seq<Field>, es: seq<Entry>)
    requires DistinctKeys(es) && Matches(es, schema)
    ensures Acceptable(schema, es) <==> AllInit(schema)
  {
    forall i | 0 <= i < |es|
      ensures Has(es, schema[i].name) && (Takes(schema, es[i].key) <==> schema[i].init)
    {
      FindInOrder(es, i);
      assert forall j :: 0 <= j < |schema| && schema[j].name == es[i].key ==> es[j].key == es[i].key;
    }
  }

  /** The envelope of an instance is read back as one: its tag and its fields. */
  lemma RebuildEnvelope(k: Classes, cls: nat, fields: seq<Entry>)
    ensures var es := [Entry(RESERVED, Str(k.tag(cls))), Entry(DATA, Dict(fields))];
            && IsEnvelope(es)
            && Rebuild(k, es) == if k.resolve(k.tag(cls)).None? then Err(NoCodec)
                                 else Assemble(k, k.resolve(k.tag(cls)).value, DecodeEntries(k, fields))
  {
    var es := [Entry(RESERVED, Str(k.tag(cls))), Entry(DATA, Dict(fields))];
    assert Find(es, RESERVED) == 0;
    assert es[1..][0].key == DATA;
    assert Find(es, DATA) == 1;
  }

  /** Decoding the encoded value gives the value back exactly when it is faithful. */
  lemma {:induction false} RoundTrip(k: Classes, v: Value)
    requires Proper(k, v)
    ensures Decode(k, Encode(k, v)) == Ok(v) <==> Faithful(k, v)
    decreases v, 0
  {
    match v {
      case List(items) => RoundTripItems(k, items);
      case Dict(es) =>
        EnvelopeKept(k, es);
        RoundTripEntries(k, es);
        if IsEnvelope(es) {
          RebuildIsInstance(k, EncodeEntries(k, es));
        }
      case Inst(cls, es) =>
        RoundTripEntries(k, es);
        RebuildEnvelope(k, cls, EncodeEntries(k, es));
        RoundTripFields(k, cls, es);
      case _ =>
    }
  }

  lemma RebuildIsInstance(k: Classes, es: seq<Entry>)
    requires IsEnvelope(es)
    ensures Rebuild(k, es).Ok? ==> Rebuild(k, es).value.Inst?
  {
  }

  lemma {:induction false} DecodeKeepsKeys(k: Classes, es: seq<Entry>)
    ensures var r := DecodeEntries(k, es);
            r.Ok? ==> |r.value| == |es| && forall i :: 0 <= i < |es| ==> r.value[i].key == es[i].key
  {
    if es != [] {
      DecodeKeepsKeys(k, es[1..]);
    }
  }

  lemma RoundTripFields(k: Classes, cls: nat, es: seq<Entry>)
    requires DistinctKeys(es) && Matches(es, k.schema(cls))
    ensures var r := DecodeEntries(k, EncodeEntries(k, es));
            r.Ok? ==> Construct(k, cls, r.value) == if AllInit(k.schema(cls)) then Ok(Inst(cls, r.value))
                else Err(WrongFields)
  {
    var r := DecodeEntries(k, EncodeEntries(k, es));
    DecodeKeepsKeys(k, EncodeEntries(k, es));
    if r.Ok? {
      AcceptableIffAllInit(k.schema(cls), r.value);
      if AllInit(k.schema(cls)) {
        FillAll(k.schema(cls), r.value, 0);
        assert k.schema(cls)[0..] == k.schema(cls) && r.value[0..] == r.value;
      }
    }
  }

  /** An instance with a field its constructor does not take is encoded with that field and never comes back. */
  lemma UnsettableFieldIsFatal(k: Classes, cls: nat, es: seq<Entry>)
    requires Proper(k, Inst(cls, es)) && k.resolve(k.tag(cls)) == Some(cls) && !AllInit(k.schema(cls))
    requires forall i :: 0 <= i < |es| ==> Faithful(k, es[i].val)
    ensures Decode(k, Encode(k, Inst(cls, es))) == Err(WrongFields)
  {
    RoundTripEntries(k, es);
    RebuildEnvelope(k, cls, EncodeEntries(k, es));
    RoundTripFields(k, cls, es);
  }

  lemma {:induction false} RoundTripItems(k: Classes, vs: seq<Value>)
    requires forall i :: 0 <= i < |vs| ==> Proper(k, vs[i])
    ensures DecodeItems(k, EncodeItems(k, vs)) == Ok(vs) <==> forall i :: 0 <= i < |vs| ==> Faithful(k, vs[i])
    decreases vs, 0
  {
    if vs != [] {
      assert Proper(k, vs[0]);
      RoundTrip(k, vs[0]);
      assert forall i :: 0 <= i < |vs[1..]| ==> vs[1..][i] == vs[i + 1];
      RoundTripItems(k, vs[1..]);
      assert vs == [vs[0]] + vs[1..] && EncodeItems(k, vs)[1..] == EncodeItems(k, vs[1..]);
    }
  }

  lemma EntriesRoundTripApart(k: Classes, es: seq<Entry>)
    requires es != []
    ensures DecodeEntries(k, EncodeEntries(k, es)) == Ok(es) <==>
            && Decode(k, Encode(k, es[0].val)) == Ok(es[0].val)
            && DecodeEntries(k, EncodeEntries(k, es[1..])) == Ok(es[1..])
  {
    assert es == [es[0]] + es[1..] && EncodeEntries(k, es)[1..] == EncodeEntries(k, es[1..]);
    var r := DecodeEntries(k, EncodeEntries(k, es));
    if r == Ok(es) {
      assert r.value[1..] == es[1..];
    }
  }

  lemma {:induction false} RoundTripEntries(k: Classes, es: seq<Entry>)
    requires forall i :: 0 <= i < |es| ==> Proper(k, es[i].val)
    ensures DecodeEntries(k, EncodeEntries(k, es)) == Ok(es) <==> forall i :: 0 <= i < |es| ==> Faithful(k, es[i].val)
    decreases es, 0
  {
    if es != [] {
      assert Proper(k, es[0].val);
      RoundTrip(k, es[0].val);
      assert forall i :: 0 <= i < |es[1..]| ==> es[1..][i] == es[i + 1];
      RoundTripEntries(k, es[1..]);
      EntriesRoundTripApart(k, es);
    }
  }

  /** Distinct faithful values have distinct encodings. */
  lemma {:induction false} EncodeInjective(k: Classes, v: Value, w: Value)
    requires Proper(k, v) && Faithful(k, v) && Proper(k, w) && Faithful(k, w) && Encode(k, v) == Encode(k, w)
    ensures v == w
  {
    RoundTrip(k, v);
    RoundTrip(k, w);
  }

  // ---------- encoding without needless copies ----------

  /** An instance occurs somewhere in the value. */
  predicate Tagged(v: Value) {
    match v
    case List(items) => exists i :: 0 <= i < |items| && Tagged(items[i])
    case Dict(es) => exists i :: 0 <= i < |es| && Tagged(es[i].val)
    case Inst(_, _) => true
    case _ => false
  }

  lemma {:induction false} EncodeItemsAt(k: Classes, vs: seq<Value>, i: nat)
    requires i < |vs|
    ensures EncodeItems(k, vs)[i] == Encode(k, vs[i])
  {
    if i > 0 {
      EncodeItemsAt(k, vs[1..], i - 1);
    }
  }

  /** `_encode_obj`; `same` says that the result is the argument object itself. */
  method EncodeObj(k: Classes, v: Value) returns (out: Value, same: bool)
    ensures out == Encode(k, v)
    ensures same <==> !Tagged(v)
    ensures same ==> out == v
    decreases v, 1
  {
    match v {
      case Inst(cls, fields) =>
        var data, _ := EncodeEntryLoop(k, fields);
        return Dict([Entry(RESERVED, Str(k.tag(cls))), Entry(DATA, Dict(data))]), false;
      case Dict(entries) =>
        var outDict, changed := EncodeEntryLoop(k, entries);
        if changed {
          return Dict(outDict), false;
        }
        return v, true;
      case List(items) =>
        var outList, changed := EncodeItemLoop(k, items);
        if changed {
          return List(outList), false;
        }
        return v, true;
      case _ => return v, true;
    }
  }

  method EncodeItemLoop(k: Classes, items: seq<Value>) returns (outList: seq<Value>, changed: bool)
    ensures outList == EncodeItems(k, items)
    ensures changed <==> exists i :: 0 <= i < |items| && Tagged(items[i])
    ensures !changed ==> outList == items
    decreases items, 0
  {
    outList, changed := [], false;
    for i := 0 to |items|
      invariant |outList| == i && forall j :: 0 <= j < i ==> outList[j] == Encode(k, items[j])
      invariant changed <==> exists j :: 0 <= j < i && Tagged(items[j])
      invariant !changed ==> outList == items[..i]
    {
      var ev, same := EncodeObj(k, items[i]);
      if !same {
        changed := true;
      }
      outList := outList + [ev];
    }
    forall j | 0 <= j < |items|
      ensures outList[j] == EncodeItems(k, items)[j]
    {
      EncodeItemsAt(k, items, j);
    }
  }

  method EncodeEntryLoop(k: Classes, entries: seq<Entry>) returns (outDict: seq<Entry>, changed: bool)
    ensures outDict == EncodeEntries(k, entries)
    ensures changed <==> exists i :: 0 <= i < |entries| && Tagged(entries[i].val)
    ensures !changed ==> outDict == entries
    decreases entries, 0
  {
    outDict, changed := [], false;
    for i := 0 to |entries|
      invariant |outDict| == i && forall j :: 0 <= j < i ==>
                outDict[j] == Entry(entries[j].key, Encode(k, entries[j].val))
      invariant changed <==> exists j :: 0 <= j < i && Tagged(entries[j].val)
      invariant !changed ==> outDict == entries[..i]
    {
      var ev, same := EncodeObj(k, entries[i].val);
      if !same {
        changed := true;
      }
      outDict := outDict + [Entry(entries[i].key, ev)];
    }
    forall j | 0 <= j < |entries|
      ensures outDict[j] == EncodeEntries(k, entries)[j]
    {
      EncodeEntriesAt(k, entries, j);
    }
  }

  // ---------- decoding without needless copies ----------

  /** An envelope occurs in the value outside of other envelopes. */
  predicate Enveloped(v: Value) {
    match v
    case List(items) => exists i :: 0 <= i < |items| && Enveloped(items[i])
    case Dict(es) => IsEnvelope(es) || exists i :: 0 <= i < |es| && Enveloped(es[i].val)
    case _ => false
  }

  function Then<T>(done: seq<T>, rest: Result<seq<T>, Error>): Result<seq<T>, Error> {
    match rest
    case Err(e) => Err(e)
    case Ok(more) => Ok(done + more)
  }

  lemma ThenOne<T>(done: seq<T>, x: T, rest: Result<seq<T>, Error>)
    ensures Then(done, Then([x], rest)) == Then(done + [x], rest)
  {
    if rest.Ok? {
      assert done + ([x] + rest.value) == (done + [x]) + rest.value;
    }
  }

  lemma ThenEnds<T>(done: seq<T>, rest: Result<seq<T>, Error>)
    ensures Then([], rest) == rest && Then(done, Ok([])) == Ok(done)
  {
    if rest.Ok? {
      assert [] + rest.value == rest.value;
    }
    assert done + [] == done;
  }

  /** `_decode_obj`; `same` says that the result is the argument object itself. */
  method DecodeObj(k: Classes, v: Value) returns (r: Result<Value, Error>, same: bool)
    ensures r == Decode(k, v)
    ensures r.Ok? ==> (same <==> !Enveloped(v))
    ensures r.Ok? && same ==> r.value == v
    decreases v, 1
  {
    match v {
      case Dict(entries) =>
        if IsEnvelope(entries) {
          r := RebuildObj(k, entries);
          return r, false;
        }
        var outDict, changed := DecodeEntryLoop(k, entries);
        if outDict.Err? {
          return Err(outDict.error), false;
        }
        if changed {
          return Ok(Dict(outDict.value)), false;
        }
        return Ok(v), true;
      case List(items) =>
        var outList, changed := DecodeItemLoop(k, items);
        if outList.Err? {
          return Err(outList.error), false;
        }
        if changed {
          return Ok(List(outList.value)), false;
        }
        return Ok(v), true;
      case _ => return Ok(v), true;
    }
  }

  method RebuildObj(k: Classes, es: seq<Entry>) returns (r: Result<Value, Error>)
    requires IsEnvelope(es)
    ensures r == Rebuild(k, es)
    decreases es, 1
  {
    var tag := es[Find(es, RESERVED)].val;
    if !Has(es, DATA) {
      return Err(MissingData);
    }
    var data := es[Find(es, DATA)].val;
    if !tag.Str? || k.resolve(tag.s).None? {
      return Err(NoCodec);
    }
    if !data.Dict? {
      return Err(NotADict);
    }
    var fields, _ := DecodeEntryLoop(k, data.entries);
    return Assemble(k, k.resolve(tag.s).value, fields);
  }

  method DecodeItemLoop(k: Classes, items: seq<Value>) returns (r: Result<seq<Value>, Error>, changed: bool)
    ensures r == DecodeItems(k, items)
    ensures r.Ok? ==> (changed <==> exists i :: 0 <= i < |items| && Enveloped(items[i]))
    ensures r.Ok? && !changed ==> r.value == items
    decreases items, 0
  {
    var outList := [];
    changed := false;
    assert items[0..] == items;
    ThenEnds(outList, DecodeItems(k, items));
    for i := 0 to |items|
      invariant DecodeItems(k, items) == Then(outList, DecodeItems(k, items[i..]))
      invariant changed <==> exists j :: 0 <= j < i && Enveloped(items[j])
      invariant !changed ==> outList == items[..i]
    {
      assert items[i..][0] == items[i] && items[i..][1..] == items[i + 1..];
      var dv, same := DecodeObj(k, items[i]);
      if dv.Err? {
        return Err(dv.error), changed;
      }
      if !same {
        changed := true;
      }
      ThenOne(outList, dv.value, DecodeItems(k, items[i + 1..]));
      outList := outList + [dv.value];
    }
    ThenEnds(outList, Ok([]));
    return Ok(outList), changed;
  }

  lemma DecodeEntriesFrom(k: Classes, entries: seq<Entry>, i: nat)
    requires i < |entries|
    ensures var dv := Decode(k, entries[i].val);
            DecodeEntries(k, entries[i..])
            == if dv.Err? then Err(dv.error)
                else Then([Entry(entries[i].key, dv.value)], DecodeEntries(k, entries[i + 1..]))
  {
    assert entries[i..][0] == entries[i] && entries[i..][1..] == entries[i + 1..];
  }

  method DecodeEntryLoop(k: Classes, entries: seq<Entry>) returns (r: Result<seq<Entry>, Error>, changed: bool)
    ensures r == DecodeEntries(k, entries)
    ensures r.Ok? ==> (changed <==> exists i :: 0 <= i < |entries| && Enveloped(entries[i].val))
    ensures r.Ok? && !changed ==> r.value == entries
    decreases entries, 0
  {
    var outDict := [];
    changed := false;
    assert entries[0..] == entries;
    ThenEnds(outDict, DecodeEntries(k, entries));
    for i := 0 to |entries|
      invariant DecodeEntries(k, entries) == Then(outDict, DecodeEntries(k, entries[i..]))
      invariant changed <==> exists j :: 0 <= j < i && Enveloped(entries[j].val)
      invariant !changed ==> outDict == entries[..i]
    {
      DecodeEntriesFrom(k, entries, i);
      var dv, same := DecodeObj(k, entries[i].val);
      if dv.Err? {
        return Err(dv.error), changed;
      }
      if !same {
        changed := true;
      }
      ThenOne(outDict, Entry(entries[i].key, dv.value), DecodeEntries(k, entries[i + 1..]));
      outDict := outDict + [Entry(entries[i].key, dv.value)];
    }
    ThenEnds(outDict, Ok([]));
    return Ok(outDict), changed;
  }
}

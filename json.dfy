/**
 * The part of Go's encoding/json that decides the shape of the payment
 * request body: a struct is written as an object whose members come from its
 * fields in declaration order, under the rules set by each field's struct tag.
 * Byte-level output (quoting, escaping, number formatting) is not modelled;
 * a body is a tree of values.
 */
module Json {
  import opened Wrappers

  /** An exact decimal `coefficient * 10^exponent` from the decimal library; opaque here. */
  datatype Decimal = Decimal(coefficient: int, exponent: int)

  /**
   * A JSON value. `Num` stands for the text the decimal library writes for a
   * decimal, whatever its quoting (by default it is written as a quoted
   * string), not for a JSON number.
   */
  datatype Value =
    | Null
    | Bool(b: bool)
    | Str(s: string)
    | Num(d: Decimal)
    | Obj(members: seq<Member>)

  datatype Member = Member(key: string, value: Value)

  /**
   * One struct field as the encoder sees it: `json:"-"` (Ignored; the encoder
   * never looks at its value) or a key name, with or without `omitempty`.
   */
  datatype Field =
    | Ignored
    | Tagged(name: string, omitEmpty: bool, value: Value)

  /**
   * Go's "empty value" test used by `omitempty`, restricted to the kinds that
   * occur here: false, "" and a nil pointer. A struct (an object, or a decimal)
   * is never empty.
   */
  predicate IsEmpty(v: Value) {
    v == Null || v == Bool(false) || v == Str("")
  }

  /** Whether the encoder writes this field at all. */
  predicate Emitted(f: Field) {
    f.Tagged? && !(f.omitEmpty && IsEmpty(f.value))
  }

  /** The members the encoder writes for a struct with these fields. */
  function EncodeStruct(fields: seq<Field>): (ms: seq<Member>)
    ensures |ms| <= |fields|
  {
    if fields == [] then []
    else
      var rest := EncodeStruct(fields[1..]);
      if Emitted(fields[0]) then [Member(fields[0].name, fields[0].value)] + rest else rest
  }

  /** The keys of an object, in order. */
  function Keys(ms: seq<Member>): (ks: seq<string>)
    ensures |ks| == |ms|
    ensures forall i :: 0 <= i < |ms| ==> ks[i] == ms[i].key
  {
    if ms == [] then [] else [ms[0].key] + Keys(ms[1..])
  }

  /** The value stored under `key`, the first one if the key repeats. */
  function Lookup(ms: seq<Member>, key: string): (r: Option<Value>)
    ensures r.None? <==> key !in Keys(ms)
    ensures r.Some? ==> Member(key, r.value) in ms
  {
    if ms == [] then None
    else if ms[0].key == key then Some(ms[0].value)
    else Lookup(ms[1..], key)
  }

  /** Encoding a struct distributes over splitting its field list. */
  lemma {:induction false} EncodeStructAppend(a: seq<Field>, b: seq<Field>)
    ensures EncodeStruct(a + b) == EncodeStruct(a) + EncodeStruct(b)
  {
    if a == [] {
      assert a + b == b;
    } else {
      assert (a + b)[1..] == a[1..] + b;
      EncodeStructAppend(a[1..], b);
    }
  }

  /** What one field contributes to the object. */
  function EncodeField(f: Field): (ms: seq<Member>)
    ensures ms == EncodeStruct([f])
    ensures |ms| == if Emitted(f) then 1 else 0
  {
    assert [f][1..] == [];
    if Emitted(f) then [Member(f.name, f.value)] else []
  }

  /**
   * Every member of the encoded object comes from an emitted field, and every
   * emitted field yields a member: the encoder neither invents nor drops keys.
   */
  lemma {:induction false} EncodeStructMembers(fields: seq<Field>, m: Member)
    ensures m in EncodeStruct(fields) <==>
      exists i :: 0 <= i < |fields| && Emitted(fields[i]) && m == Member(fields[i].name, fields[i].value)
  {
    if fields != [] {
      EncodeStructMembers(fields[1..], m);
      if m in EncodeStruct(fields[1..]) {
        var i :| 0 <= i < |fields[1..]| && Emitted(fields[1..][i]) && m == Member(fields[1..][i].name, fields[1..][i].value);
        assert fields[i + 1] == fields[1..][i];
      }
      if exists i :: 0 <= i < |fields| && Emitted(fields[i]) && m == Member(fields[i].name, fields[i].value) {
        var i :| 0 <= i < |fields| && Emitted(fields[i]) && m == Member(fields[i].name, fields[i].value);
        if i > 0 {
          assert fields[1..][i - 1] == fields[i];
        }
      }
    }
  }

  /** An ignored field leaves no trace: the object is what the other fields give. */
  lemma IgnoredFieldInvisible(before: seq<Field>, after: seq<Field>)
    ensures EncodeStruct(before + [Ignored] + after) == EncodeStruct(before + after)
  {
    EncodeStructAppend(before + [Ignored], after);
    EncodeStructAppend(before, [Ignored]);
    EncodeStructAppend(before, after);
    assert EncodeField(Ignored) == [];
  }

  /** Looking a key up in two objects laid end to end: the first one that has it answers. */
  lemma {:induction false} LookupAppend(a: seq<Member>, b: seq<Member>, key: string)
    ensures Lookup(a + b, key) == if key in Keys(a) then Lookup(a, key) else Lookup(b, key)
  {
    if a == [] {
      assert a + b == b;
    } else {
      assert (a + b)[0] == a[0];
      assert (a + b)[1..] == a[1..] + b;
      LookupAppend(a[1..], b, key);
      assert Keys(a) == [a[0].key] + Keys(a[1..]);
    }
  }

  lemma KeysAppend(a: seq<Member>, b: seq<Member>)
    ensures Keys(a + b) == Keys(a) + Keys(b)
  {
  }
}

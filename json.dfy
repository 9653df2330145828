/** The small wrapper type the model needs for partial results. */
module Wrappers {
  datatype Option<+T> = None | Some(value: T)
}

/**
 * Values as JavaScript's JSON functions see them, and the two library calls
 * the debug port makes on them (`JSON.parse` and `JSON.stringify`).
 * The library itself is not modelled: a `Codec` carries the two calls as
 * total functions, and `Lossless` states the one law the port relies on.
 */
module Json {
  import opened Wrappers

  /** A plain-data JavaScript value that may be logged. `Undefined` is JavaScript's
      `undefined`: it is no JSON value, but it can stand in an argument list
      and it is the slot value that ends the decoding loop of the print path. */
  datatype JsonValue =
    | Undefined
    | Null
    | Bool(b: bool)
    | Num(n: int)
    | Str(s: string)
    | Arr(elems: seq<JsonValue>)
    | Obj(members: seq<Member>)

  datatype Member = Member(key: string, value: JsonValue)

  /** `JSON.parse` (None when it throws) and `JSON.stringify`. */
  datatype Codec = Codec(parse: string -> Option<JsonValue>, stringify: JsonValue -> string)

  /** What a value looks like after a trip through JSON text: an undefined
      array slot becomes null and an undefined object member is dropped. */
  function Wire(v: JsonValue): JsonValue
  {
    match v
    case Undefined => Null
    case Arr(xs) => Arr(WireList(xs))
    case Obj(ms) => Obj(WireMembers(ms))
    case _ => v
  }

  function WireList(xs: seq<JsonValue>): seq<JsonValue>
  {
    seq(|xs|, i requires 0 <= i < |xs| => Wire(xs[i]))
  }

  function WireMembers(ms: seq<Member>): seq<Member>
  {
    if ms == [] then []
    else (if ms[0].value.Undefined? then [] else [Member(ms[0].key, Wire(ms[0].value))])
         + WireMembers(ms[1..])
  }

  /** A value that JSON represents exactly: no `undefined` anywhere inside. */
  predicate Representable(v: JsonValue)
  {
    match v
    case Undefined => false
    case Arr(xs) => forall i :: 0 <= i < |xs| ==> Representable(xs[i])
    case Obj(ms) => forall i :: 0 <= i < |ms| ==> Representable(ms[i].value)
    case _ => true
  }

  /** The number a string of decimal digits spells. */
  function DigitsValue(k: string): nat
  {
    if k == [] then 0
    else DigitsValue(k[..|k| - 1]) * 10 + (if '0' <= k[|k| - 1] <= '9' then k[|k| - 1] as int - '0' as int else 0)
  }

  /** A key JavaScript treats as an array index: a canonical decimal numeral
      (no leading zero) below 2^32 - 1. */
  predicate IndexKey(k: string)
  {
    && |k| > 0
    && (forall i :: 0 <= i < |k| ==> '0' <= k[i] <= '9')
    && (k[0] == '0' ==> |k| == 1)
    && DigitsValue(k) < 0xFFFF_FFFF
  }

  /** Members as a JavaScript object enumerates them: keys are distinct, and
      the index keys come first, in ascending numeric order. */
  predicate EnumerationOrder(ms: seq<Member>)
  {
    forall i, j :: 0 <= i < j < |ms| ==>
      && ms[i].key != ms[j].key
      && (IndexKey(ms[j].key) ==> IndexKey(ms[i].key) && DigitsValue(ms[i].key) < DigitsValue(ms[j].key))
  }

  /** A value a JavaScript program can hold: every number is an integer a
      double represents exactly (at most 2^53 in magnitude), and every object,
      at every depth, lists its members in enumeration order. */
  predicate JsShaped(v: JsonValue)
  {
    match v
    case Arr(xs) => forall i :: 0 <= i < |xs| ==> JsShaped(xs[i])
    case Obj(ms) => EnumerationOrder(ms) && forall i :: 0 <= i < |ms| ==> JsShaped(ms[i].value)
    case Num(n) => -0x20_0000_0000_0000 <= n <= 0x20_0000_0000_0000
    case _ => true
  }

  /** No JavaScript object has two members with one key. */
  lemma DupKeyNotJsShaped(ms: seq<Member>, i: nat, j: nat)
    requires i < j < |ms| && ms[i].key == ms[j].key
    ensures !JsShaped(Obj(ms))
  {
  }

  /** No JavaScript object lists a string key before an index key. */
  lemma StringKeyFirstNotJsShaped(ms: seq<Member>, i: nat, j: nat)
    requires i < j < |ms| && !IndexKey(ms[i].key) && IndexKey(ms[j].key)
    ensures !JsShaped(Obj(ms))
  {
  }

  /** The law assumed of the JSON library: parsing the text of a defined value
      a JavaScript program can hold gives back that value as it survives the
      trip. */
  ghost predicate Lossless(c: Codec)
  {
    forall v: JsonValue :: !v.Undefined? && JsShaped(v) ==> c.parse(c.stringify(v)) == Some(Wire(v))
  }

  /** The indexed slots a decoded value offers to `args[i]`: an array's
      elements; numbers, booleans and objects offer none. */
  function Slots(v: JsonValue): seq<JsonValue>
  {
    if v.Arr? then v.elems else []
  }

  /** `args[i]`, which is `undefined` past the end. */
  function Slot(v: JsonValue, i: nat): JsonValue
  {
    if i < |Slots(v)| then Slots(v)[i] else Undefined
  }

  /** The longest prefix of `xs` holding no `undefined`. */
  function TakeDefined(xs: seq<JsonValue>): (r: seq<JsonValue>)
    ensures |r| <= |xs| && r == xs[..|r|]
    ensures forall k :: 0 <= k < |r| ==> !r[k].Undefined?
    ensures |r| == |xs| || xs[|r|].Undefined?
  {
    if xs == [] || xs[0].Undefined? then [] else [xs[0]] + TakeDefined(xs[1..])
  }

  /** The argument list the print path builds from a parsed message: a string
      is a one-element list, `null` and `undefined` throw on `args[i]` (None),
      anything else gives its slots up to the first undefined one. */
  function Decoded(v: JsonValue): Option<seq<JsonValue>>
  {
    if v.Str? then Some([v])
    else if v.Null? || v.Undefined? then None
    else Some(TakeDefined(Slots(v)))
  }

  /** The three properties of TakeDefined single out one sequence. */
  lemma TakeDefinedUnique(xs: seq<JsonValue>, r: seq<JsonValue>)
    requires |r| <= |xs| && r == xs[..|r|]
    requires forall k :: 0 <= k < |r| ==> !r[k].Undefined?
    requires |r| == |xs| || xs[|r|].Undefined?
    ensures r == TakeDefined(xs)
  {
  }

  /** The decoding loop of the print path: collect `args[i]` for i = 0, 1, …
      until a slot is undefined. */
  method DecodeArgs(parsed: JsonValue) returns (r: Option<seq<JsonValue>>)
    ensures r == Decoded(parsed)
  {
    if parsed.Str? {
      return Some([parsed]);
    }
    if parsed.Null? || parsed.Undefined? {
      return None;
    }
    var arr: seq<JsonValue> := [];
    var i: nat := 0;
    while !Slot(parsed, i).Undefined?
      invariant i <= |Slots(parsed)|
      invariant arr == Slots(parsed)[..i]
      invariant forall k :: 0 <= k < i ==> !arr[k].Undefined?
      decreases |Slots(parsed)| - i
    {
      arr := arr + [Slot(parsed, i)];
      i := i + 1;
    }
    TakeDefinedUnique(Slots(parsed), arr);
    return Some(arr);
  }

  /** A representable value survives the trip through JSON text unchanged. */
  lemma {:induction false} WireKeeps(v: JsonValue)
    requires Representable(v)
    ensures Wire(v) == v
    decreases v, 1
  {
    match v
    case Arr(xs) =>
      forall i | 0 <= i < |xs| ensures WireList(xs)[i] == xs[i] {
        WireKeeps(xs[i]);
      }
    case Obj(ms) =>
      WireMembersKeep(ms);
    case _ =>
  }

  lemma {:induction false} WireMembersKeep(ms: seq<Member>)
    requires forall i :: 0 <= i < |ms| ==> Representable(ms[i].value)
    ensures WireMembers(ms) == ms
    decreases ms, 0
  {
    if ms != [] {
      WireKeeps(ms[0].value);
      WireMembersKeep(ms[1..]);
      assert ms == [ms[0]] + ms[1..];
    }
  }

  /** Round trip of an argument list: decoding the JSON text of `xs` gives
      the list as JSON lets it through, and `xs` itself when it is
      representable. Nothing is cut short, because the trip turns every
      undefined slot into null. */
  lemma RoundTrip(c: Codec, xs: seq<JsonValue>)
    requires Lossless(c) && forall i :: 0 <= i < |xs| ==> JsShaped(xs[i])
    ensures c.parse(c.stringify(Arr(xs))) == Some(Arr(WireList(xs)))
    ensures Decoded(Arr(WireList(xs))) == Some(WireList(xs))
    ensures (forall i :: 0 <= i < |xs| ==> Representable(xs[i])) ==> WireList(xs) == xs
  {
    var ws := WireList(xs);
    assert JsShaped(Arr(xs));
    assert Wire(Arr(xs)) == Arr(ws);
    assert forall k :: 0 <= k < |ws| ==> !ws[k].Undefined? by {
      forall k | 0 <= k < |ws| ensures !ws[k].Undefined? {
        assert ws[k] == Wire(xs[k]);
      }
    }
    TakeDefinedUnique(ws, ws);
    if forall i :: 0 <= i < |xs| ==> Representable(xs[i]) {
      WireKeeps(Arr(xs));
    }
  }
}

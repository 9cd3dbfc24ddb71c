/** JSON values as the request handlers see them after body parsing, and the two
    JavaScript object operations the handlers use on them: optional property
    access (`x?.key`) and object spread (`{ ...a, ...b }`). */
module Json {

  /** A parsed JSON value. `Undefined` is JavaScript's `undefined`: it never comes
      out of the parser, but it is what a missing property reads as, and it can be
      stored as a field value by an object literal. Numbers are modelled as
      integers. */
  datatype Json =
    | Undefined
    | Null
    | Bool(b: bool)
    | Num(n: int)
    | Str(s: string)
    | Arr(items: seq<Json>)
    | Obj(fields: map<string, Json>)

  /** The empty object `{}`, the body of every plain success response. */
  const Empty: Json := Obj(map[])

  /** Property access `j?.key`: the field when `j` is an object that has it,
      `undefined` otherwise (no prototype members are modelled). */
  function Member(j: Json, key: string): Json
  {
    match j
    case Obj(fields) => if key in fields then fields[key] else Undefined
    case _ => Undefined
  }

  /** The character of a decimal digit. */
  function Digit(d: nat): char
    requires d < 10
  {
    match d
    case 0 => '0' case 1 => '1' case 2 => '2' case 3 => '3' case 4 => '4'
    case 5 => '5' case 6 => '6' case 7 => '7' case 8 => '8' case _ => '9'
  }

  /** Distinct digits have distinct characters. */
  lemma DigitInjective(a: nat, b: nat)
    requires a < 10 && b < 10 && Digit(a) == Digit(b)
    ensures a == b
  {
  }

  /** The canonical decimal spelling of a natural number, as JavaScript uses for
      array and string indices when they become property keys. */
  function NatToString(n: nat): (s: string)
    ensures 1 <= |s|
    ensures |s| == 1 <==> n < 10
    decreases n
  {
    if n < 10 then [Digit(n)]
    else NatToString(n / 10) + [Digit(n % 10)]
  }

  /** Different indices never spell the same key. */
  lemma {:induction false} NatToStringInjective(a: nat, b: nat)
    requires NatToString(a) == NatToString(b)
    ensures a == b
    decreases a
  {
    if a < 10 {
      assert b < 10;
      assert Digit(a) == NatToString(a)[0] == NatToString(b)[0] == Digit(b);
      DigitInjective(a, b);
    } else {
      assert b >= 10;
      var sa, sb := NatToString(a), NatToString(b);
      assert sa[..|sa| - 1] == NatToString(a / 10);
      assert sb[..|sb| - 1] == NatToString(b / 10);
      NatToStringInjective(a / 10, b / 10);
      assert Digit(a % 10) == sa[|sa| - 1] == sb[|sb| - 1] == Digit(b % 10);
      DigitInjective(a % 10, b % 10);
    }
  }

  /** The own enumerable properties of the first `n` items, keyed by index. */
  function IndexFields(items: seq<Json>, n: nat): map<string, Json>
    requires n <= |items|
  {
    if n == 0 then map[] else IndexFields(items, n - 1)[NatToString(n - 1) := items[n - 1]]
  }

  /** The one-character strings a string spreads into. */
  function Characters(s: string): seq<Json>
  {
    seq(|s|, i requires 0 <= i < |s| => Str([s[i]]))
  }

  /** The properties `...j` contributes to an object literal: an object's own
      fields, one entry per index for an array or a string, nothing for
      `undefined`, `null`, booleans and numbers. */
  function Spread(j: Json): map<string, Json>
  {
    match j
    case Obj(fields) => fields
    case Arr(items) => IndexFields(items, |items|)
    case Str(s) => IndexFields(Characters(s), |s|)
    case _ => map[]
  }

  /** The keys `"0"`, ..., the spelling of `n - 1`. */
  function IndexKeys(n: nat): set<string>
  {
    if n == 0 then {} else IndexKeys(n - 1) + {NatToString(n - 1)}
  }

  /** An index at or beyond `n` is not among the first `n` index keys. */
  lemma {:induction false} IndexKeysExclude(n: nat, m: nat)
    requires n <= m
    ensures NatToString(m) !in IndexKeys(n)
  {
    if n > 0 {
      IndexKeysExclude(n - 1, m);
      if NatToString(n - 1) == NatToString(m) {
        NatToStringInjective(n - 1, m);
      }
    }
  }

  /** Spreading the first `n` items gives exactly the first `n` index keys,
      all distinct, so `n` keys in all. */
  lemma {:induction false} IndexFieldsAreIndices(items: seq<Json>, n: nat)
    requires n <= |items|
    ensures IndexFields(items, n).Keys == IndexKeys(n)
    ensures |IndexFields(items, n)| == n
  {
    if n > 0 {
      IndexFieldsAreIndices(items, n - 1);
      IndexKeysExclude(n - 1, n - 1);
    }
  }

  /** The key of index `i` maps to the `i`-th item. */
  lemma {:induction false} IndexFieldsValue(items: seq<Json>, n: nat, i: nat)
    requires i < n <= |items|
    ensures NatToString(i) in IndexFields(items, n)
    ensures IndexFields(items, n)[NatToString(i)] == items[i]
  {
    if i < n - 1 {
      IndexFieldsValue(items, n - 1, i);
      if NatToString(i) == NatToString(n - 1) {
        NatToStringInjective(i, n - 1);
      }
    }
  }

  /** An object literal built from `layers` in order, `{ ...l0, ...l1, ... }`. */
  function Layer(layers: seq<map<string, Json>>): map<string, Json>
  {
    if |layers| == 0 then map[] else Layer(layers[..|layers| - 1]) + layers[|layers| - 1]
  }

  /** Later keys win: a key is in the literal when some layer has it, and its
      value comes from the LAST layer that has it. */
  lemma {:induction false} LayerLastWins(layers: seq<map<string, Json>>)
    ensures forall k :: k in Layer(layers) <==> exists i :: 0 <= i < |layers| && k in layers[i]
    ensures forall k, i :: 0 <= i < |layers| && k in layers[i] && LastWith(layers, k, i) ==> Layer(layers)[k] == layers[i][k]
  {
    if |layers| > 0 {
      var init := layers[..|layers| - 1];
      LayerLastWins(init);
      assert forall i :: 0 <= i < |init| ==> init[i] == layers[i];
      forall k, i | 0 <= i < |layers| && k in layers[i] && LastWith(layers, k, i)
        ensures k in Layer(layers) && Layer(layers)[k] == layers[i][k]
      {
        if i < |init| {
          assert LastWith(init, k, i);
        }
      }
    }
  }

  /** No layer after the `i`-th has key `k`. */
  ghost predicate LastWith(layers: seq<map<string, Json>>, k: string, i: nat)
  {
    forall j :: i < j < |layers| ==> k !in layers[j]
  }
}

/**
 * JSON values as the server and the browser exchange them, and the one
 * object operation both sides use: the spread-and-override literal
 * `{ ...o, key: value }`.
 *
 * An object is a property list in insertion order (the order JavaScript
 * keeps for string keys). A key may occur twice; a read takes its first
 * occurrence.
 */
module Json {

  datatype Option<+T> = None | Some(value: T)

  datatype Value =
    | Null
    | Bool(b: bool)
    | Num(n: int)
    | Str(s: string)
    | Arr(items: seq<Value>)
    | Obj(fields: seq<(string, Value)>)

  /** The own properties of an object, in insertion order. */
  type Props = seq<(string, Value)>

  /** The keys of an object, in insertion order. */
  function KeysOf(o: Props): (ks: seq<string>)
    ensures |ks| == |o|
    ensures forall i :: 0 <= i < |o| ==> ks[i] == o[i].0
  {
    if o == [] then [] else [o[0].0] + KeysOf(o[1..])
  }

  /** Property read `o[k]`; `None` stands for `undefined`. */
  function Get(o: Props, k: string): (r: Option<Value>)
  {
    if o == [] then None
    else if o[0].0 == k then Some(o[0].1)
    else Get(o[1..], k)
  }

  /** A read is defined exactly for the object's own keys. */
  lemma {:induction false} GetDefined(o: Props, k: string)
    ensures Get(o, k).Some? <==> k in KeysOf(o)
  {
    if o != [] && o[0].0 != k {
      GetDefined(o[1..], k);
      assert KeysOf(o) == [o[0].0] + KeysOf(o[1..]);
    }
  }

  /** Reading the key stored at index i yields its value when no earlier property has that key. */
  lemma {:induction false} GetAt(o: Props, i: nat)
    requires i < |o|
    requires forall j :: 0 <= j < i ==> o[j].0 != o[i].0
    ensures Get(o, o[i].0) == Some(o[i].1)
  {
    if i > 0 {
      assert o[0].0 != o[i].0;
      GetAt(o[1..], i - 1);
    }
  }

  /**
   * The object literal `{ ...o, [k]: v }`: an existing key keeps its position
   * and takes the new value, a new key is appended after all existing ones.
   */
  function With(o: Props, k: string, v: Value): (r: Props)
    ensures Get(r, k) == Some(v)
    ensures forall q :: q != k ==> Get(r, q) == Get(o, q)
    ensures KeysOf(r) == if k in KeysOf(o) then KeysOf(o) else KeysOf(o) + [k]
    ensures k !in KeysOf(o) ==> r == o + [(k, v)]
  {
    if o == [] then [(k, v)]
    else if o[0].0 == k then [(k, v)] + o[1..]
    else [o[0]] + With(o[1..], k, v)
  }

  /**
   * The own properties that spreading `v` contributes to an object literal:
   * an object gives its properties; `null`, booleans and numbers give none.
   * Strings and arrays would give index-keyed properties ("0", "1", ...);
   * no metric reads such keys, so they are given none here as well.
   */
  function Spread(v: Value): Props {
    match v
    case Obj(fields) => fields
    case _ => []
  }

  /** JavaScript's `x || d` for an optional number: absent and 0 are falsy. */
  function OrElse(x: Option<int>, d: int): int {
    if x.Some? && x.value != 0 then x.value else d
  }
}

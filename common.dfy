/** Small vocabulary shared by every module: optional values, JavaScript
    truthiness of strings, ASCII case folding, substring search, the
    first-index search behind `find`/`findIndex` and sequence regrouping. */
module Common {

  datatype Option<+T> = None | Some(value: T)

  /** JavaScript truthiness of an optional string: `undefined` and `""` are falsy. */
  predicate Present(s: Option<string>)
  {
    s.Some? && s.value != ""
  }

  /** `(s || '')`: the string itself, or the empty string when it is absent. */
  function OrEmpty(s: Option<string>): string
  {
    if s.Some? then s.value else ""
  }

  function Max(a: real, b: real): real
  {
    if a >= b then a else b
  }

  /** `toLowerCase` restricted to the ASCII letters. */
  function LowerChar(c: char): char
  {
    if 'A' <= c <= 'Z' then (c as int + 32) as char else c
  }

  function Lower(s: string): (r: string)
    ensures |r| == |s|
  {
    if s == [] then [] else [LowerChar(s[0])] + Lower(s[1..])
  }

  /** `s.includes(sub)`: `sub` occurs somewhere in `s`. */
  predicate Contains(s: string, sub: string)
  {
    sub <= s || (s != [] && Contains(s[1..], sub))
  }

  /** The position of the first element of `keys` equal to `key`, as
      `findIndex` returns it (`None` standing for -1). */
  function IndexOf<K(==)>(keys: seq<K>, key: K): (r: Option<nat>)
    ensures r.Some? ==> r.value < |keys| && keys[r.value] == key && key !in keys[..r.value]
    ensures r.None? <==> key !in keys
  {
    if keys == [] then None
    else if keys[0] == key then Some(0)
    else match IndexOf(keys[1..], key)
      case None => None
      case Some(i) =>
        assert keys[..i + 1] == [keys[0]] + keys[1..][..i];
        Some(i + 1)
  }

  /** The search loop of `find`/`findIndex`. */
  method FindIndex<K(==)>(keys: seq<K>, key: K) returns (r: Option<nat>)
    ensures r == IndexOf(keys, key)
  {
    var i := 0;
    while i < |keys|
      invariant 0 <= i <= |keys|
      invariant key !in keys[..i]
    {
      if keys[i] == key {
        return Some(i);
      }
      assert keys[..i + 1] == keys[..i] + [keys[i]];
      i := i + 1;
    }
    assert keys[..i] == keys;
    return None;
  }

  /** Regrouping the pieces pushed onto a sequence. */
  lemma AppendAssoc<T>(r: seq<T>, a: seq<T>, b: seq<T>, c: seq<T>, d: seq<T>)
    ensures r + a + b + c + d == r + (a + b + c + d)
  {
  }
}

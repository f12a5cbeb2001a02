/** Small vocabulary shared by every module of the model. */
module Common {
  datatype Option<+T> = None | Some(value: T)

  datatype Result<+T, +E> = Ok(value: T) | Err(error: E)

  /** The value Go's map lookup yields: the stored one, or the zero value. */
  function GetOr<K, V>(m: map<K, V>, k: K, zero: V): V {
    if k in m then m[k] else zero
  }

  /** `s` with the element at `i` moved to the front, the others in their order. */
  function WinnerFirst<T>(s: seq<T>, i: nat): (r: seq<T>)
    requires i < |s|
  {
    [s[i]] + s[..i] + s[i + 1..]
  }

  lemma WinnerFirstIsPermutation<T>(s: seq<T>, i: nat)
    requires i < |s|
    ensures multiset(WinnerFirst(s, i)) == multiset(s)
  {
    assert s == s[..i] + [s[i]] + s[i + 1..];
  }
}

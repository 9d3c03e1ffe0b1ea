/** Python list subscription as the emulator uses it: `xs[i]` for reading and
    `xs[i] = v` for writing. Negative indices count from the end of the list,
    and an index outside [-len, len) raises IndexError, modelled as None. */
module PyList {

  datatype Option<+T> = None | Some(value: T)

  /** The cell that subscript `i` denotes in a list of length `n`, or None when
      Python raises IndexError. The cell is the unique one in [0, n) that is
      congruent to `i` modulo `n`. */
  function Index(i: int, n: nat): (k: Option<nat>)
    ensures k.Some? <==> -(n as int) <= i < n
    ensures k.Some? ==> k.value < n && (i - k.value) % n == 0
    ensures k.Some? && 0 <= i ==> k.value == i
  {
    if 0 <= i < n then Some(i)
    else if -(n as int) <= i < 0 then Some(i + n)
    else None
  }

  /** `xs[i]`: the element read, or None for IndexError. */
  function Load<T>(xs: seq<T>, i: int): (r: Option<T>)
    ensures r.Some? <==> -|xs| <= i < |xs|
    ensures r.Some? ==> r.value == xs[Index(i, |xs|).value]
  {
    match Index(i, |xs|)
    case Some(k) => Some(xs[k])
    case None => None
  }

  /** `xs[i] = v`: the updated list, or None for IndexError (the list is then
      left as it was). */
  function Store<T>(xs: seq<T>, i: int, v: T): (r: Option<seq<T>>)
    ensures r.Some? <==> -|xs| <= i < |xs|
    ensures r.Some? ==> |r.value| == |xs|
  {
    match Index(i, |xs|)
    case Some(k) => Some(xs[k := v])
    case None => None
  }

  /** Reading back after a successful write: the written cell (under any
      subscript that denotes it) holds `v`; every other subscript reads what it
      read before. */
  lemma StoreThenLoad<T>(xs: seq<T>, i: int, v: T, j: int)
    requires Store(xs, i, v).Some?
    ensures Load(Store(xs, i, v).value, j)
            == if Index(j, |xs|) == Index(i, |xs|) then Some(v) else Load(xs, j)
  {
  }
}

// Server command lines are built as (option, value) pairs: every
// addParameter call and every game-mode setting adds one. The executable
// receives them flattened into one list of strings.
module Arguments {

  type Pair = (string, string)

  /** The pairs laid out one after the other, option before value. */
  function Flatten(ps: seq<Pair>): (r: seq<string>)
    ensures |r| == 2 * |ps|
  {
    if |ps| == 0 then [] else [ps[0].0, ps[0].1] + Flatten(ps[1..])
  }

  /** Appending in two steps is appending the two pieces joined. */
  lemma Extend<T>(a: seq<T>, b: seq<T>, c: seq<T>)
    ensures a + b + c == a + (b + c)
  {
  }

  /** Adding a pair at the end adds its option and its value at the end. */
  lemma {:induction false} FlattenSnoc(ps: seq<Pair>, p: Pair)
    ensures Flatten(ps + [p]) == Flatten(ps) + [p.0, p.1]
  {
    if |ps| > 0 {
      assert (ps + [p])[1..] == ps[1..] + [p];
      FlattenSnoc(ps[1..], p);
    }
  }

  /** Entry 2i of the flat list is the option of pair i, entry 2i+1 its value. */
  lemma {:induction false} FlattenIndex(ps: seq<Pair>, i: nat)
    requires i < |ps|
    ensures Flatten(ps)[2 * i] == ps[i].0 && Flatten(ps)[2 * i + 1] == ps[i].1
  {
    if i > 0 {
      FlattenIndex(ps[1..], i - 1);
    }
  }
}

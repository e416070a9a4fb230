/**
 * Shapes of Go values that the model must keep apart: fixed-width unsigned
 * integers, a nil slice versus an allocated one, nil-able pointers, and the
 * (value, error) pairs returned by collaborators.
 */
module GoTypes {

  const MaxUint64: int := 0xFFFF_FFFF_FFFF_FFFF

  type uint64 = x: int | 0 <= x <= MaxUint64
  type byte = x: int | 0 <= x < 0x100
  type Bytes = seq<byte>

  /** A nil-able pointer: `None` is Go's nil. */
  datatype Option<+T> = None | Some(value: T)

  /** A (value, error) pair of a collaborator; `text` is what `err.Error()` returns. */
  datatype Result<+T> = Ok(value: T) | Err(text: string)

  /** A Go slice: `Nil` is the nil slice, `Items([])` an allocated empty one such as `make([]T, 0)`. */
  datatype Slice<+T> = Nil | Items(elems: seq<T>)

  /** A Go `[]byte`, which may be nil. */
  type GoBytes = Slice<byte>

  function Elems<T>(s: Slice<T>): seq<T>
  {
    if s.Nil? then [] else s.elems
  }

  /** The built-in `append(s, x)`; its result is never nil. */
  function Append<T>(s: Slice<T>, x: T): Slice<T>
  {
    Items(Elems(s) + [x])
  }

  /** The slice reached from `init` by `s = append(s, f(x))` for each `x` of `xs`, in order. */
  function Appended<T, U>(init: Slice<U>, f: T -> U, xs: seq<T>): Slice<U>
    decreases |xs|
  {
    if |xs| == 0 then init
    else Append(Appended(init, f, xs[..|xs| - 1]), f(xs[|xs| - 1]))
  }

  /**
   * Appending keeps what was there, adds exactly one element per item, in
   * the items' order, and leaves the slice nil only when it started nil and
   * nothing was appended.
   */
  lemma {:induction false} AppendedElems<T, U>(init: Slice<U>, f: T -> U, xs: seq<T>)
    ensures Appended(init, f, xs).Nil? <==> init.Nil? && |xs| == 0
    ensures |Elems(Appended(init, f, xs))| == |Elems(init)| + |xs|
    ensures Elems(Appended(init, f, xs))[..|Elems(init)|] == Elems(init)
    ensures forall i :: 0 <= i < |xs| ==> Elems(Appended(init, f, xs))[|Elems(init)| + i] == f(xs[i])
    decreases |xs|
  {
    var r := Appended(init, f, xs);
    if |xs| == 0 {
      assert Elems(init)[..|Elems(init)|] == Elems(init);
    } else {
      var front := xs[..|xs| - 1];
      AppendedElems(init, f, front);
      var p := Appended(init, f, front);
      assert Elems(r) == Elems(p) + [f(xs[|xs| - 1])];
      assert Elems(r)[..|Elems(init)|] == Elems(p)[..|Elems(init)|];
      forall i | 0 <= i < |xs|
        ensures Elems(r)[|Elems(init)| + i] == f(xs[i])
      {
        if i < |front| {
          assert front[i] == xs[i];
        }
      }
    }
  }

  /** Appending to a nil slice: one element per item, in order, nil exactly when there were none. */
  lemma AppendedToNil<T, U>(f: T -> U, xs: seq<T>)
    ensures Appended(Nil, f, xs).Nil? <==> |xs| == 0
    ensures |Elems(Appended(Nil, f, xs))| == |xs|
    ensures forall i :: 0 <= i < |xs| ==> Elems(Appended(Nil, f, xs))[i] == f(xs[i])
  {
    AppendedElems(Nil, f, xs);
  }

  /** The step that a loop over `xs` performs: one more append extends the prefix by one item. */
  lemma AppendedStep<T, U>(init: Slice<U>, f: T -> U, xs: seq<T>, i: nat)
    requires i < |xs|
    ensures Appended(init, f, xs[..i + 1]) == Append(Appended(init, f, xs[..i]), f(xs[i]))
  {
    assert xs[..i + 1][..i] == xs[..i];
  }
}

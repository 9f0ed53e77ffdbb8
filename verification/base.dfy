/** Helpers shared by every tier of the model: an optional value (JavaScript's
    null/undefined, Rust's `Option`, Python's `None`) and the order-preserving
    projection that every `.map` over a list performs. */
module Base {

  datatype Option<+T> = None | Some(value: T)

  /** `xs.map(f)`: exactly one output per input, in input order. */
  function MapSeq<A, B>(f: A -> B, xs: seq<A>): (ys: seq<B>)
    ensures |ys| == |xs|
    ensures forall i :: 0 <= i < |xs| ==> ys[i] == f(xs[i])
  {
    if xs == [] then [] else [f(xs[0])] + MapSeq(f, xs[1..])
  }
}

/**
 * Rust's `std::cmp::Ordering`, `Ord::cmp` on integers and `Ordering::then_with`,
 * and the strict lexicographic order on three keys that `Version` and `FfiTime`
 * both implement by chaining `cmp` with `then_with`.
 */
module StdCmp {

  datatype Ordering = Less | Equal | Greater {

    /** `Ordering::reverse`. */
    function Reverse(): Ordering {
      match this
      case Less => Greater
      case Equal => Equal
      case Greater => Less
    }

    /** `self.then_with(|| next)`: the first non-`Equal` of the two. */
    function Then(next: Ordering): (r: Ordering)
      ensures this != Equal ==> r == this
      ensures this == Equal ==> r == next
    {
      if this == Equal then next else this
    }
  }

  /** `a.cmp(&b)` on integers. */
  function Compare(a: int, b: int): (r: Ordering)
    ensures r == Less <==> a < b
    ensures r == Equal <==> a == b
    ensures r == Greater <==> a > b
  {
    if a < b then Less else if a == b then Equal else Greater
  }

  /** Strict lexicographic order on triples of integers. */
  predicate LexLess(a: (int, int, int), b: (int, int, int)) {
    || a.0 < b.0
    || (a.0 == b.0 && a.1 < b.1)
    || (a.0 == b.0 && a.1 == b.1 && a.2 < b.2)
  }
}

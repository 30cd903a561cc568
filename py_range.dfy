/** Python's `range(start, stop)` with the default step of one. */
module PyRange {

  datatype Range = Range(start: int, stop: int) {
    /** `i in range(start, stop)`. */
    predicate Contains(i: int) {
      start <= i < stop
    }

    /** `len(range(start, stop))`: empty when `stop <= start`. */
    function Len(): (n: nat)
      ensures n == 0 <==> stop <= start
    {
      if start < stop then stop - start else 0
    }

    /** `list(range(start, stop))`. */
    function Elements(): (r: seq<int>)
      ensures |r| == Len()
      ensures forall i :: 0 <= i < |r| ==> r[i] == start + i
      decreases stop - start
    {
      if start < stop then [start] + Range(start + 1, stop).Elements() else []
    }
  }
}

/**
 A batch of observations handed to `update`: `rows` is an n x `width` array,
 and `typecode` is the array's own numeric type.
 */
module Batches {
  import opened LinAlg
  import opened Roundoff

  datatype Batch = Batch(rows: Matrix, width: nat, typecode: Typecode)

  /** Every row of the batch has the batch's width. */
  predicate WellFormed(b: Batch) {
    HasWidth(b.rows, b.width)
  }

  /** The typecode an accumulator ends up with when its buffers are created:
      its own if one was given, otherwise the batch's. */
  function Inherit(own: Typecode, b: Batch): (r: Typecode)
    ensures own != "" ==> r == own
    ensures r == own || r == b.typecode
    ensures r == "" <==> own == "" && b.typecode == ""
  {
    if own == "" then b.typecode else own
  }

  /** Once settled, the typecode is kept whatever batch comes next. */
  lemma InheritSettled(own: Typecode, b1: Batch, b2: Batch)
    requires Inherit(own, b1) != ""
    ensures Inherit(Inherit(own, b1), b2) == Inherit(own, b1)
  {
  }

  /** The single batch holding the rows of `b1` followed by those of `b2`.
      Both share one typecode: concatenating arrays of different typecodes
      upcasts, and that is not modelled. */
  function Concat(b1: Batch, b2: Batch): Batch
    requires b2.typecode == b1.typecode
  {
    Batch(b1.rows + b2.rows, b1.width, b1.typecode)
  }

  /** Every batch is well formed and has width `d`. */
  predicate AllWidth(bs: seq<Batch>, d: nat) {
    forall k :: 0 <= k < |bs| ==> WellFormed(bs[k]) && bs[k].width == d
  }

  /** All the rows of a sequence of batches of width `d`, in order. */
  function AllRows(bs: seq<Batch>, d: nat): (r: Matrix)
    requires AllWidth(bs, d)
    ensures HasWidth(r, d)
  {
    if |bs| == 0 then [] else bs[0].rows + AllRows(bs[1..], d)
  }
}

/** Properties of the page record that relate several calls: what the
    getters answer for a NULL page, and what a page holds after any
    sequence of setter calls. */
module PageProperties {
  import opened Types
  import opened Pages

  /** Every getter on a NULL page answers its sentinel. */
  lemma NullPageSentinels()
    ensures GetWidth(null) == -1.0 && GetHeight(null) == -1.0
    ensures GetIndex(null) == 0 && GetDocument(null) == null
    ensures GetData(null) == None && !GetVisibility(null)
  {
  }

  /** Setter calls on one page, applied in order. */
  function ApplyAll(s: PageState, ops: seq<Setter>): (t: PageState)
    decreases |ops|
  {
    if ops == [] then s else ApplyAll(Apply(s, ops[0]), ops[1..])
  }

  /** The value the last call in `ops` that `writes` picks out wrote, or
      `initial` when there is none. */
  function LastWritten<T>(ops: seq<Setter>, writes: Setter -> Option<T>, initial: T): (v: T)
    decreases |ops|
  {
    if ops == [] then initial
    else match writes(ops[|ops| - 1])
      case Some(v) => v
      case None => LastWritten(ops[..|ops| - 1], writes, initial)
  }

  function HeightWritten(op: Setter): (w: Option<real>)
  {
    if op.HeightTo? then Some(op.height) else None
  }

  function WidthWritten(op: Setter): (w: Option<real>)
  {
    if op.WidthTo? then Some(op.width) else None
  }

  function DataWritten(op: Setter): (w: Option<Option<Handle>>)
  {
    if op.DataTo? then Some(op.data) else None
  }

  function VisibilityWritten(op: Setter): (w: Option<bool>)
  {
    if op.VisibilityTo? then Some(op.visible) else None
  }

  /** Reference definition of a page after setter calls: each settable
      field holds the last value written to it, and the index is the one
      the page started with. */
  function LastWrites(s: PageState, ops: seq<Setter>): (t: PageState)
    ensures t.index == s.index
  {
    PageState(
      LastWritten(ops, HeightWritten, s.height),
      LastWritten(ops, WidthWritten, s.width),
      s.index,
      LastWritten(ops, DataWritten, s.data),
      LastWritten(ops, VisibilityWritten, s.visible))
  }

  lemma {:induction false} ApplyAllSnoc(s: PageState, ops: seq<Setter>, op: Setter)
    ensures ApplyAll(s, ops + [op]) == Apply(ApplyAll(s, ops), op)
    decreases |ops|
  {
    if ops == [] {
      assert [op][1..] == [];
    } else {
      assert (ops + [op])[1..] == ops[1..] + [op];
      ApplyAllSnoc(Apply(s, ops[0]), ops[1..], op);
    }
  }

  /** Any sequence of setter calls leaves a page in the state the reference
      definition gives: the last write to each field wins, and no setter
      touches another field or the index. */
  lemma {:induction false} LastWriteWins(s: PageState, ops: seq<Setter>)
    ensures ApplyAll(s, ops) == LastWrites(s, ops)
    decreases |ops|
  {
    if ops != [] {
      var front, op := ops[..|ops| - 1], ops[|ops| - 1];
      assert ops == front + [op];
      ApplyAllSnoc(s, front, op);
      LastWriteWins(s, front);
    }
  }

  /** A page's index is fixed for its whole life: no sequence of setter
      calls changes it. */
  lemma {:induction false} SettersKeepIndex(s: PageState, ops: seq<Setter>)
    ensures ApplyAll(s, ops).index == s.index
  {
    LastWriteWins(s, ops);
  }

  /** Setters of two different fields can be called in either order. */
  lemma SettersCommute(s: PageState, a: Setter, b: Setter)
    requires !(a.WidthTo? && b.WidthTo?) && !(a.HeightTo? && b.HeightTo?)
    requires !(a.DataTo? && b.DataTo?) && !(a.VisibilityTo? && b.VisibilityTo?)
    ensures ApplyAll(s, [a, b]) == ApplyAll(s, [b, a])
  {
    LastWriteWins(s, [a, b]);
    LastWriteWins(s, [b, a]);
  }
}

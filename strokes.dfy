/** The drawing slice of the client game store: the ordered stroke history. */
module Strokes {

  /** The update `addStroke(s)` applies to the stroke list: an unconditional
      append, with no duplicate check and no cap. */
  function AddStroke<S>(strokes: seq<S>, s: S): (r: seq<S>)
    ensures |r| == |strokes| + 1
    ensures r[..|strokes|] == strokes
    ensures r[|strokes|] == s
  {
    strokes + [s]
  }

  /** The stroke list after delivering `ss` one by one, in order. */
  function AddStrokes<S>(strokes: seq<S>, ss: seq<S>): seq<S>
    decreases ss
  {
    if ss == [] then strokes else AddStrokes(AddStroke(strokes, ss[0]), ss[1..])
  }

  /** Every delivered stroke is kept, in delivery order, after the old ones:
      the history only grows, by exactly the number of strokes delivered. */
  lemma {:induction false} AddStrokesAppendsAll<S>(strokes: seq<S>, ss: seq<S>)
    ensures AddStrokes(strokes, ss) == strokes + ss
    ensures |AddStrokes(strokes, ss)| == |strokes| + |ss|
    decreases ss
  {
    if ss != [] {
      AddStrokesAppendsAll(AddStroke(strokes, ss[0]), ss[1..]);
      assert strokes + [ss[0]] + ss[1..] == strokes + ss;
    }
  }
}

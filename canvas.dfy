/**
 * The drawing operations a clock face performs on its 2D canvas, as a log.
 * Coordinates, radii, line widths and shadows are floating-point detail and
 * are not recorded; angles are in half-degrees (units of pi/360 radians).
 */
module Canvas {
  import opened Wrappers

  datatype CanvasOp =
    | Resize(width: nat, height: nat)              // `canvas.width = …; canvas.height = …`
    | ClearRect(width: nat, height: nat)           // `clearRect(0, 0, width, height)`
    | FillFace(fill: string, outline: Option<string>)
    | Tick(angle: nat)                              // angle counted clockwise from 3 o'clock
    | Label(text: string)
    | Hand(angle: nat, color: string)               // angle counted clockwise from 12 o'clock
    | Hub
    | StartInterval(periodMs: nat)
    | StopInterval

  /** The size an HTML canvas has before a script sets it. */
  const InitialWidth: nat := 300
  const InitialHeight: nat := 150

  /** How many of the operations in `ops` satisfy `p`. */
  function Count(ops: seq<CanvasOp>, p: CanvasOp -> bool): (n: nat)
    ensures n <= |ops|
    ensures n == 0 <==> forall i :: 0 <= i < |ops| ==> !p(ops[i])
  {
    if ops == [] then 0 else (if p(ops[0]) then 1 else 0) + Count(ops[1..], p)
  }

  lemma {:induction false} CountAppend(a: seq<CanvasOp>, b: seq<CanvasOp>, p: CanvasOp -> bool)
    ensures Count(a + b, p) == Count(a, p) + Count(b, p)
    decreases |a|
  {
    if a != [] {
      assert (a + b)[1..] == a[1..] + b;
      CountAppend(a[1..], b, p);
    } else {
      assert a + b == b;
    }
  }

  /** Appending three batches to a log one after another appends them as one batch. */
  lemma AppendBatches(log: seq<CanvasOp>, a: seq<CanvasOp>, b: seq<CanvasOp>, c: seq<CanvasOp>)
    ensures log + a + b + c == log + (a + b + c)
  {
  }
}

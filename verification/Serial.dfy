/** The per-affair operation queue, built from a map of promise tails, and the FIFO lock it implements. */
module Serial {
  import opened Option

  /** Life of one queued operation: its promise chain waits for the previous tail, the operation runs,
      its result settles (possibly by throwing), and then its own tail settles. */
  datatype OpPhase = Waiting | Running | Finished(threw: bool) | Released

  /** `previous` is the tail the operation was chained to; `None` is an already resolved promise. */
  datatype Operation = Operation(affair: string, previous: Option<nat>, phase: OpPhase)

  /** `tails` maps an affair to the operation whose tail is recorded for it. */
  datatype Queue = Queue(ops: seq<Operation>, tails: map<string, nat>)

  const EMPTY_QUEUE := Queue([], map[])

  predicate Settled(q: Queue, tail: Option<nat>) {
    tail.Some? ==> tail.value < |q.ops| && q.ops[tail.value].phase == Released
  }

  function Tail(q: Queue, affair: string): Option<nat> {
    if affair in q.tails then Some(q.tails[affair]) else None
  }

  function WithPhase(q: Queue, i: nat, phase: OpPhase): Queue
    requires i < |q.ops|
  {
    q.(ops := q.ops[i := q.ops[i].(phase := phase)])
  }

  datatype Move = Call(affair: string) | Start(op: nat) | Finish(op: nat, threw: bool) | Release(op: nat) | Cleanup(op: nat)

  /** When the promise machinery can make a move. */
  predicate Enabled(q: Queue, m: Move) {
    match m
    case Call(_) => true
    case Start(i) => i < |q.ops| && q.ops[i].phase == Waiting && Settled(q, q.ops[i].previous)
    case Finish(i, _) => i < |q.ops| && q.ops[i].phase == Running
    case Release(i) => i < |q.ops| && q.ops[i].phase.Finished?
    case Cleanup(i) => i < |q.ops| && q.ops[i].phase == Released
  }

  function Next(q: Queue, m: Move): Queue
    requires Enabled(q, m)
  {
    match m
    case Call(affair) => Queue(q.ops + [Operation(affair, Tail(q, affair), Waiting)], q.tails[affair := |q.ops|])
    case Start(i) => WithPhase(q, i, Running)
    case Finish(i, threw) => WithPhase(q, i, Finished(threw))
    case Release(i) => WithPhase(q, i, Released)
    case Cleanup(i) => if Tail(q, q.ops[i].affair) == Some(i) then q.(tails := q.tails - {q.ops[i].affair}) else q
  }

  /** The queue object. Each method is one synchronous piece of the source: the call itself, and the
      promise callbacks it registers. */
  class AffairOperationQueue {
    var ops: seq<Operation>
    var tails: map<string, nat>

    function Value(): Queue
      reads this
    {
      Queue(ops, tails)
    }

    constructor ()
      ensures Value() == EMPTY_QUEUE
    {
      ops, tails := [], map[];
    }

    method Run(affair: string) returns (op: nat)
      modifies this
      ensures Value() == Next(old(Value()), Call(affair)) && op == |old(ops)|
    {
      var previous := if affair in tails then Some(tails[affair]) else None;
      op := |ops|;
      ops := ops + [Operation(affair, previous, Waiting)];
      tails := tails[affair := op];
    }

    method StartOperation(op: nat)
      requires Enabled(Value(), Start(op))
      modifies this`ops
      ensures Value() == Next(old(Value()), Start(op))
    {
      ops := ops[op := ops[op].(phase := Running)];
    }

    method SettleResult(op: nat, threw: bool)
      requires Enabled(Value(), Finish(op, threw))
      modifies this`ops
      ensures Value() == Next(old(Value()), Finish(op, threw))
    {
      ops := ops[op := ops[op].(phase := Finished(threw))];
    }

    method SettleTail(op: nat)
      requires Enabled(Value(), Release(op))
      modifies this`ops
      ensures Value() == Next(old(Value()), Release(op))
    {
      ops := ops[op := ops[op].(phase := Released)];
    }

    method CleanupTail(op: nat)
      requires Enabled(Value(), Cleanup(op))
      modifies this`tails
      ensures Value() == Next(old(Value()), Cleanup(op))
    {
      var affair := ops[op].affair;
      if affair in tails && tails[affair] == op {
        tails := tails - {affair};
      }
    }
  }

  // ----- what every run keeps -----

  ghost predicate Before(q: Queue, i: int, j: int) {
    0 <= i < j < |q.ops| && q.ops[i].affair == q.ops[j].affair
  }

  /** Everything called earlier for the same affair has released. */
  ghost predicate EarlierReleased(q: Queue, j: int) {
    forall i :: Before(q, i, j) ==> q.ops[i].phase == Released
  }

  ghost predicate Inv(q: Queue) {
    // an operation is chained to the nearest earlier one of its own affair, or to nothing if all earlier ones released
    && (forall j :: 0 <= j < |q.ops| && q.ops[j].previous.None? ==> EarlierReleased(q, j))
    && (forall j :: 0 <= j < |q.ops| && q.ops[j].previous.Some? ==>
          var p := q.ops[j].previous.value;
          Before(q, p, j) && forall i :: Before(q, i, j) ==> i <= p)
    // whatever has started found everything before it released
    && (forall j :: 0 <= j < |q.ops| && q.ops[j].phase != Waiting ==> EarlierReleased(q, j))
    // the recorded tail is the latest operation; without one, nothing is outstanding
    && (forall a :: a in q.tails ==> q.tails[a] < |q.ops| && q.ops[q.tails[a]].affair == a)
    && (forall i :: 0 <= i < |q.ops| && q.ops[i].affair in q.tails ==> i <= q.tails[q.ops[i].affair])
    && (forall i :: 0 <= i < |q.ops| && q.ops[i].affair !in q.tails ==> q.ops[i].phase == Released)
  }

  /** If the operation just before `j` has released then so has everything before it. */
  lemma ChainReleased(q: Queue, j: nat)
    requires Inv(q) && j < |q.ops| && Settled(q, q.ops[j].previous)
    ensures EarlierReleased(q, j)
  {
    if q.ops[j].previous.Some? {
      var p := q.ops[j].previous.value;
      forall i | Before(q, i, j) ensures q.ops[i].phase == Released {
        if i < p {
          assert Before(q, i, p) && EarlierReleased(q, p);
        }
      }
    }
  }

  lemma CallKeepsInv(q: Queue, a: string)
    requires Inv(q)
    ensures Inv(Next(q, Call(a)))
  {
    var q' := Next(q, Call(a));
    forall j | 0 <= j < |q'.ops| && (q'.ops[j].previous.None? || q'.ops[j].phase != Waiting) ensures EarlierReleased(q', j) {
      forall i | Before(q', i, j) ensures q'.ops[i].phase == Released {
        if j < |q.ops| { assert Before(q, i, j); }
      }
    }
    forall j | 0 <= j < |q'.ops| && q'.ops[j].previous.Some?
      ensures Before(q', q'.ops[j].previous.value, j) && forall i :: Before(q', i, j) ==> i <= q'.ops[j].previous.value
    {
      if j < |q.ops| {
        assert Before(q, q.ops[j].previous.value, j);
        forall i | Before(q', i, j) ensures i <= q'.ops[j].previous.value { assert Before(q, i, j); }
      }
    }
  }

  lemma PhaseKeepsInv(q: Queue, i: nat, phase: OpPhase)
    requires Inv(q) && i < |q.ops| && q.ops[i].phase != Released
    requires phase != Waiting && EarlierReleased(q, i)
    ensures Inv(WithPhase(q, i, phase))
  {
    var q' := WithPhase(q, i, phase);
    assert forall k, j :: Before(q', k, j) <==> Before(q, k, j);
    forall j | 0 <= j < |q'.ops| && (q'.ops[j].previous.None? || q'.ops[j].phase != Waiting) ensures EarlierReleased(q', j) {
      assert EarlierReleased(q, j);
      forall k | Before(q', k, j) ensures q'.ops[k].phase == Released {
        assert Before(q, k, j);
      }
    }
  }

  lemma NextKeepsInv(q: Queue, m: Move)
    requires Inv(q) && Enabled(q, m)
    ensures Inv(Next(q, m))
  {
    match m {
      case Call(a) => CallKeepsInv(q, a);
      case Start(i) => ChainReleased(q, i); PhaseKeepsInv(q, i, Running);
      case Finish(i, threw) => PhaseKeepsInv(q, i, Finished(threw));
      case Release(i) => PhaseKeepsInv(q, i, Released);
      case Cleanup(i) =>
        var q' := Next(q, m);
        assert forall k, j :: Before(q', k, j) <==> Before(q, k, j);
        assert EarlierReleased(q, i);
        forall k | 0 <= k < |q'.ops| && q'.ops[k].affair !in q'.tails ensures q'.ops[k].phase == Released {
          if q.ops[k].affair in q.tails { assert k == i || Before(q, k, i); }
        }
        forall j | 0 <= j < |q'.ops| && EarlierReleased(q, j) ensures EarlierReleased(q', j) {
        }
    }
  }

  ghost predicate IsRun(qs: seq<Queue>, moves: seq<Move>) {
    && |qs| == |moves| + 1 && qs[0] == EMPTY_QUEUE
    && forall i :: 0 <= i < |moves| ==> Enabled(qs[i], moves[i]) && qs[i + 1] == Next(qs[i], moves[i])
  }

  lemma {:induction false} RunKeepsInv(qs: seq<Queue>, moves: seq<Move>, n: nat)
    requires IsRun(qs, moves) && n < |qs|
    ensures Inv(qs[n])
  {
    if n > 0 {
      RunKeepsInv(qs, moves, n - 1);
      NextKeepsInv(qs[n - 1], moves[n - 1]);
    }
  }

  // ----- the FIFO lock -----

  /** The lock of one affair: the operations that were called and have not released, in call order. */
  function Line(ops: seq<Operation>, affair: string): seq<nat> {
    if ops == [] then []
    else
      var n := |ops| - 1;
      Line(ops[..n], affair) + (if ops[n].affair == affair && ops[n].phase != Released then [n] else [])
  }

  function Head(ops: seq<Operation>, affair: string): Option<nat> {
    if Line(ops, affair) == [] then None else Some(Line(ops, affair)[0])
  }

  lemma {:induction false} LineSorted(ops: seq<Operation>, affair: string)
    ensures forall k :: 0 <= k < |Line(ops, affair)| ==> Line(ops, affair)[k] < |ops|
    ensures forall k, l :: 0 <= k < l < |Line(ops, affair)| ==> Line(ops, affair)[k] < Line(ops, affair)[l]
  {
    if ops != [] {
      LineSorted(ops[..|ops| - 1], affair);
    }
  }

  lemma {:induction false} InLine(ops: seq<Operation>, affair: string, i: nat)
    ensures i in Line(ops, affair) <==> i < |ops| && ops[i].affair == affair && ops[i].phase != Released
  {
    if ops != [] {
      InLine(ops[..|ops| - 1], affair, i);
    }
  }

  lemma LineMembers(ops: seq<Operation>, affair: string)
    ensures forall i: nat :: i in Line(ops, affair) <==> i < |ops| && ops[i].affair == affair && ops[i].phase != Released
    ensures forall k :: 0 <= k < |Line(ops, affair)| ==> Line(ops, affair)[k] < |ops|
    ensures Head(ops, affair).Some? ==> Head(ops, affair).value in Line(ops, affair)
    ensures forall k, l :: 0 <= k < l < |Line(ops, affair)| ==> Line(ops, affair)[k] < Line(ops, affair)[l]
  {
    LineSorted(ops, affair);
    forall i: nat ensures i in Line(ops, affair) <==> i < |ops| && ops[i].affair == affair && ops[i].phase != Released {
      InLine(ops, affair, i);
    }
  }

  lemma {:induction false} LineUpdate(ops: seq<Operation>, affair: string, i: nat, op: Operation)
    requires i < |ops| && op.affair == ops[i].affair
    requires ops[i].affair != affair || (ops[i].phase == Released <==> op.phase == Released)
    ensures Line(ops[i := op], affair) == Line(ops, affair)
  {
    var n := |ops| - 1;
    if i == n {
      assert ops[i := op][..n] == ops[..n];
    } else {
      assert ops[i := op][..n] == ops[..n][i := op];
      LineUpdate(ops[..n], affair, i, op);
    }
  }

  lemma {:induction false} LineEmpty(ops: seq<Operation>, affair: string)
    requires forall k :: 0 <= k < |ops| && ops[k].affair == affair ==> ops[k].phase == Released
    ensures Line(ops, affair) == []
  {
    if ops != [] {
      LineEmpty(ops[..|ops| - 1], affair);
    }
  }

  lemma {:induction false} LineRemove(ops: seq<Operation>, affair: string, i: nat, op: Operation)
    requires i < |ops| && op.affair == ops[i].affair == affair && ops[i].phase != Released && op.phase == Released
    requires forall k :: 0 <= k < i && ops[k].affair == affair ==> ops[k].phase == Released
    ensures Line(ops, affair) == [i] + Line(ops[i := op], affair)
  {
    var n := |ops| - 1;
    if i == n {
      assert ops[i := op][..n] == ops[..n];
      LineEmpty(ops[..n], affair);
    } else {
      assert ops[i := op][..n] == ops[..n][i := op];
      LineRemove(ops[..n], affair, i, op);
    }
  }

  /** The operation in the line that may act is its head. */
  lemma HeadOfLine(q: Queue, i: nat)
    requires Inv(q) && i < |q.ops| && q.ops[i].phase != Released
    ensures EarlierReleased(q, i) <==> Head(q.ops, q.ops[i].affair) == Some(i)
  {
    var line := Line(q.ops, q.ops[i].affair);
    LineMembers(q.ops, q.ops[i].affair);
    assert i in line;
    var k :| 0 <= k < |line| && line[k] == i;
    assert line[0] in line;
    if k > 0 {
      assert Before(q, line[0], i);
    } else {
      forall h | Before(q, h, i) ensures q.ops[h].phase == Released {
        assert q.ops[h].phase != Released ==> h in line;
      }
    }
  }

  /** Refinement, move by move. A call joins the end of its affair's line. An operation starts exactly
      when it is the head and has not started, whether or not the one before it threw; only a head
      releases, and it leaves the line. Everything else, and every other affair's line, stays. */
  lemma RefinesFifoLock(q: Queue, m: Move, a: string)
    requires Inv(q) && Enabled(q, m)
    ensures var line, line' := Line(q.ops, a), Line(Next(q, m).ops, a);
      match m
      case Call(b) => line' == if a == b then line + [|q.ops|] else line
      case Start(i) => line' == line && (q.ops[i].affair == a ==> Head(q.ops, a) == Some(i))
      case Release(i) => if q.ops[i].affair == a then Head(q.ops, a) == Some(i) && line' == line[1..] else line' == line
      case _ => line' == line
  {
    match m {
      case Call(b) =>
        assert Next(q, m).ops[..|q.ops|] == q.ops;
      case Start(i) =>
        LineUpdate(q.ops, a, i, q.ops[i].(phase := Running));
        ChainReleased(q, i);
        HeadOfLine(q, i);
      case Finish(i, threw) =>
        LineUpdate(q.ops, a, i, q.ops[i].(phase := Finished(threw)));
      case Release(i) =>
        HeadOfLine(q, i);
        assert EarlierReleased(q, i);
        if q.ops[i].affair == a {
          assert forall k :: 0 <= k < i && q.ops[k].affair == a ==> Before(q, k, i);
          LineRemove(q.ops, a, i, q.ops[i].(phase := Released));
        } else {
          LineUpdate(q.ops, a, i, q.ops[i].(phase := Released));
        }
      case Cleanup(_) =>
    }
  }

  /** In any run, two operations of one affair are never both started and unreleased, and the later
      one has not started before the earlier one released. */
  lemma StartInOrderAndNeverOverlap(qs: seq<Queue>, moves: seq<Move>, n: nat, i: nat, j: nat)
    requires IsRun(qs, moves) && n < |qs| && Before(qs[n], i, j)
    ensures qs[n].ops[j].phase != Waiting ==> qs[n].ops[i].phase == Released
  {
    RunKeepsInv(qs, moves, n);
    if qs[n].ops[j].phase != Waiting {
      assert EarlierReleased(qs[n], j);
    }
  }

  lemma HeadCanStartNow(q: Queue, i: nat)
    requires Inv(q) && i < |q.ops| && q.ops[i].phase == Waiting
    ensures Enabled(q, Start(i)) <==> Head(q.ops, q.ops[i].affair) == Some(i)
  {
    HeadOfLine(q, i);
    if Enabled(q, Start(i)) {
      ChainReleased(q, i);
    } else {
      assert Before(q, q.ops[i].previous.value, i);
    }
  }

  /** A waiting operation can start exactly when it heads its affair's line: nothing another affair
      does is waited for, and an operation that threw has released like any other. */
  lemma HeadCanStart(qs: seq<Queue>, moves: seq<Move>, n: nat, i: nat)
    requires IsRun(qs, moves) && n < |qs| && i < |qs[n].ops| && qs[n].ops[i].phase == Waiting
    ensures Enabled(qs[n], Start(i)) <==> Head(qs[n].ops, qs[n].ops[i].affair) == Some(i)
  {
    RunKeepsInv(qs, moves, n);
    HeadCanStartNow(qs[n], i);
  }

  /** A missing map entry means that every operation ever called for the affair has settled. */
  lemma MissingTailMeansIdle(qs: seq<Queue>, moves: seq<Move>, n: nat, a: string)
    requires IsRun(qs, moves) && n < |qs| && a !in qs[n].tails
    ensures Head(qs[n].ops, a) == None
  {
    RunKeepsInv(qs, moves, n);
    LineMembers(qs[n].ops, a);
  }

  /** The move that the head of a line waits for. */
  function OwnMove(q: Queue, h: nat, threw: bool): Move
    requires h < |q.ops| && q.ops[h].phase != Released
  {
    match q.ops[h].phase
    case Waiting => Start(h)
    case Running => Finish(h, threw)
    case Finished(_) => Release(h)
  }

  /** No line is ever stuck: its head can always make its own next move, whether operations throw or not, and after at most three of
      them it has started, settled as it did, and left the line to the next. */
  lemma HeadAlwaysAdvances(qs: seq<Queue>, moves: seq<Move>, n: nat, a: string, threw: bool)
    requires IsRun(qs, moves) && n < |qs| && Head(qs[n].ops, a).Some?
    ensures var q, h := qs[n], Head(qs[n].ops, a).value;
      && h < |q.ops| && q.ops[h].phase != Released && Enabled(q, OwnMove(q, h, threw))
      && var q' := Next(q, OwnMove(q, h, threw));
         && |q'.ops| == |q.ops| && q'.tails == q.tails && (forall i :: 0 <= i < |q.ops| && i != h ==> q'.ops[i] == q.ops[i])
         && q'.ops[h].affair == a && q'.ops[h].previous == q.ops[h].previous
         && q'.ops[h].phase == (match q.ops[h].phase case Waiting => Running case Running => Finished(threw) case Finished(_) => Released)
         && Line(q'.ops, a) == (if q.ops[h].phase.Finished? then Line(q.ops, a)[1..] else Line(q.ops, a))
  {
    var q, h := qs[n], Head(qs[n].ops, a).value;
    RunKeepsInv(qs, moves, n);
    LineMembers(q.ops, a);
    if q.ops[h].phase == Waiting {
      HeadCanStartNow(q, h);
    }
    RefinesFifoLock(q, OwnMove(q, h, threw), a);
    hide Inv, Line;
  }

  /** The map forgets an affair exactly when its latest operation cleans up: an earlier one leaves the entry of a later one alone. */
  lemma CleanupForgetsExactly(qs: seq<Queue>, moves: seq<Move>, n: nat, i: nat)
    requires IsRun(qs, moves) && n < |qs| && Enabled(qs[n], Cleanup(i))
    ensures var q, q' := qs[n], Next(qs[n], Cleanup(i));
      && q'.ops == q.ops && (forall a :: a != q.ops[i].affair ==> Tail(q', a) == Tail(q, a))
      && (q.ops[i].affair in q'.tails <==> q.ops[i].affair in q.tails && exists j :: Before(q, i, j))
  {
    RunKeepsInv(qs, moves, n);
    var q := qs[n];
    var a := q.ops[i].affair;
    if a in q.tails && q.tails[a] != i {
      assert Before(q, i, q.tails[a]);
    }
    if j :| Before(q, i, j) {
      assert a in q.tails ==> q.tails[a] >= j;
    }
  }
}

/**
 * When the test transport tells its protocol that the connection is lost.
 * Two fields decide it: `closed`, set by `loseConnection`, and `producer`,
 * set by `registerProducer` and cleared by `unregisterProducer`. The
 * callback fires once the connection is closed and no producer is left;
 * `close` fires it as well, whatever `closed` is, after stopping the
 * producer; with no producer it fails first.
 */
module Teardown {
  import opened Results

  /** An opaque handle for a registered producer object. */
  type ProducerId = nat

  /** The transport's `closed` and `producer` fields. */
  datatype Link = Link(closed: bool, producer: Option<ProducerId>)

  /** A fresh transport: open, with no producer (the class default `None`). */
  const Fresh: Link := Link(false, None)

  /** Closed with no producer left: the state `connectionLost` announces. */
  predicate Quiescent(s: Link)
  {
    s.closed && s.producer.None?
  }

  datatype Op = LoseConnection | RegisterProducer(p: ProducerId) | UnregisterProducer | Close

  /**
   * The state after an operation, whether it called `connectionLost`, and
   * whether it raised (`close` without a producer dereferences `None`).
   */
  datatype Outcome = Outcome(next: Link, fired: bool, failed: bool)

  function Step(s: Link, op: Op): (r: Outcome)
    ensures r.next.closed == (s.closed || op.LoseConnection?)
    ensures op.LoseConnection? ==> r.next.producer == s.producer
    ensures op.RegisterProducer? ==> r.next.producer == Some(op.p)
    ensures op.UnregisterProducer? ==> r.next.producer.None?
    ensures op.UnregisterProducer? && s.producer.None? ==> r.next == s
    ensures !op.Close? ==>
              !r.failed && (r.fired <==> Quiescent(r.next) && (!Quiescent(s) || op.LoseConnection?))
    ensures op.Close? ==>
              r.next == s && (r.fired <==> s.producer.Some?) && (r.failed <==> s.producer.None?)
  {
    match op
    case LoseConnection => Outcome(Link(true, s.producer), s.producer.None?, false)
    case RegisterProducer(p) => Outcome(Link(s.closed, Some(p)), false, false)
    case UnregisterProducer =>
      if s.producer.Some? then Outcome(Link(s.closed, None), s.closed, false)
      else Outcome(s, false, false)
    case Close => Outcome(s, s.producer.Some?, s.producer.None?)
  }

  /** The state after a sequence of operations and how often the callback fired. */
  datatype Trace = Trace(last: Link, fires: nat)

  function Run(s: Link, ops: seq<Op>): Trace
  {
    if ops == [] then Trace(s, 0)
    else
      var t := Run(s, ops[..|ops| - 1]);
      var o := Step(t.last, ops[|ops| - 1]);
      Trace(o.next, t.fires + if o.fired then 1 else 0)
  }

  /** Only `loseConnection` closes, and nothing reopens. */
  lemma {:induction false} ClosedOnlyByLose(s: Link, ops: seq<Op>)
    ensures Run(s, ops).last.closed <==> s.closed || LoseConnection in ops
  {
    if ops != [] {
      var init := ops[..|ops| - 1];
      ClosedOnlyByLose(s, init);
      assert ops == init + [ops[|ops| - 1]];
      assert LoseConnection in ops <==> LoseConnection in init || ops[|ops| - 1] == LoseConnection;
    }
  }

  /**
   * Whatever the interleaving, a connection that started out not closed-and-
   * idle and ends closed with no producer has had `connectionLost` called.
   */
  lemma {:induction false} QuiescenceIsAnnounced(s: Link, ops: seq<Op>)
    requires !Quiescent(s) && Quiescent(Run(s, ops).last)
    ensures Run(s, ops).fires >= 1
  {
    var init := ops[..|ops| - 1];
    if Quiescent(Run(s, init).last) {
      QuiescenceIsAnnounced(s, init);
    }
  }

  /**
   * A connection on which neither `loseConnection` nor `close` is called
   * never hears `connectionLost`.
   */
  lemma {:induction false} OpenIsSilent(s: Link, ops: seq<Op>)
    requires !s.closed && LoseConnection !in ops && Close !in ops
    ensures Run(s, ops).fires == 0
  {
    if ops != [] {
      var init := ops[..|ops| - 1];
      assert LoseConnection !in init && Close !in init by {
        assert forall i :: 0 <= i < |init| ==> init[i] == ops[i];
      }
      OpenIsSilent(s, init);
      ClosedOnlyByLose(s, init);
    }
  }
}

/**
 * The status poller of EscPosPrinter::getStatus as a function on values.
 * One call is one tick: it looks at the stage counter, possibly sends one
 * real-time status query, possibly consumes one reply byte, and returns a
 * progress code.  Run strings ticks together with the device's replies
 * arriving in between, which is how a session is stated and proved.
 */
module Poller {
  import opened Commands

  /** uint32_t, the type of statusTs and of millis(). */
  newtype uint32 = x: int | 0 <= x < 0x1_0000_0000

  const Wrap: int := 0x1_0000_0000

  /** The code getStatus returns when a reply does not come in time. */
  const NoAnswer: int := -99

  /** The online-status reply that means "all is well". */
  const OkStatus: bv8 := 0x16

  /** Longest wait, in milliseconds, for a reply byte. */
  const ReplyTimeout: uint32 := 200

  /** millis() - statusTs in uint32_t arithmetic: the difference modulo 2^32. */
  function Elapsed(ts: uint32, now: uint32): (d: uint32)
    ensures ts <= now ==> d as int == now as int - ts as int
    ensures now < ts ==> d as int == Wrap + now as int - ts as int
  {
    ((now as int - ts as int) % Wrap) as uint32
  }

  /** The timeout test of the three wait stages. */
  predicate TimedOut(ts: uint32, now: uint32)
  {
    Elapsed(ts, now) > ReplyTimeout
  }

  /** The values statusState can take. */
  predicate ValidStage(stage: int)
  {
    stage in {0, 1, 2, 3, 4, 10, 11, 12}
  }

  /**
   * waitCase(statusTs, 10, stage) of tools.h, which is not part of this
   * model: `graceOver` is its verdict at this call, and the stage either
   * stays or moves on by one.
   */
  function WaitCase(stage: int, graceOver: bool): (r: int)
    ensures r == stage || r == stage + 1
  {
    if graceOver then stage + 1 else stage
  }

  /**
   * Everything one getStatus call reads or changes: the stage counter, the
   * send timestamp, the caller's status array, and the port's receive queue
   * and transmit log.
   */
  datatype Snapshot = Snapshot(stage: int, ts: uint32, status: seq<bv8>, rx: seq<bv8>, tx: seq<bv8>)

  /** The state after a call and the code it returned. */
  datatype Outcome = Outcome(next: Snapshot, code: int)

  /**
   * What the stage says about the three result bytes within one pass:
   * after the start all are zero; on the fault path (stages 3, 4) the
   * online byte is not OK and nothing else is set; on the chute path
   * (stages 10-12) the online byte is OK and the error byte is still zero.
   */
  predicate SessionInv(s: Snapshot)
    requires |s.status| >= 3
  {
    var st := s.stage;
    (st == 1 || st == 2 ==> s.status[0] == 0 && s.status[1] == 0 && s.status[2] == 0) &&
    (st == 3 || st == 4 ==> s.status[0] != OkStatus && s.status[1] == 0 && s.status[2] == 0) &&
    (10 <= st <= 12 ==> s.status[0] == OkStatus && s.status[1] == 0 && s.status[2] == 0)
  }

  /** One invocation of getStatus(stateIn, statusArray) at time `now`. */
  function Poll(s: Snapshot, stateIn: int, now: uint32, graceOver: bool): (o: Outcome)
    requires |s.status| >= 3
    ensures |o.next.status| == |s.status| && o.next.status[3..] == s.status[3..]
    ensures o.code == stateIn || o.code == stateIn + 1 || o.code == NoAnswer
    ensures o.code != stateIn ==> o.next.stage == 0
    ensures ValidStage(s.stage) ==> ValidStage(o.next.stage)
    ensures SessionInv(s) ==> SessionInv(o.next)
    // only the start flushes; every other stage consumes at most one byte
    ensures s.stage == 0 ==> o.next.rx == []
    ensures s.stage != 0 ==> o.next.rx == s.rx || (s.rx != [] && o.next.rx == s.rx[1..])
    // results change only at the start or by a consumed reply byte
    ensures s.stage != 0 && o.next.rx == s.rx ==> o.next.status == s.status
    // at most one query goes out, and only together with a new timestamp
    ensures o.next.tx in {s.tx, s.tx + OnlineQuery, s.tx + ErrorQuery, s.tx + ChuteQuery}
    ensures o.next.tx != s.tx ==> o.next.ts == now
    ensures o.next.tx == s.tx ==> o.next.ts == s.ts
    // a timeout reports the failure and touches nothing but the stage, and
    // the failure code comes from a timeout only
    ensures (s.stage == 2 || s.stage == 4 || s.stage == 12) && s.rx == [] && TimedOut(s.ts, now) ==>
              o == Outcome(s.(stage := 0), NoAnswer)
    ensures o.code == NoAnswer && NoAnswer != stateIn && NoAnswer != stateIn + 1 ==>
              o.next == s.(stage := 0) && s.rx == [] && TimedOut(s.ts, now)
  {
    match s.stage
    case 0 =>
      var zeroed := s.status[0 := 0][1 := 0][2 := 0];
      Outcome(Snapshot(1, now, zeroed, [], s.tx + OnlineQuery), stateIn)
    case 1 =>
      Outcome(s.(stage := WaitCase(1, graceOver)), stateIn)
    case 2 =>
      if s.rx != [] then
        var b := s.rx[0];
        var got := s.(status := s.status[0 := b], rx := s.rx[1..]);
        if b == OkStatus then Outcome(got.(stage := 10), stateIn)
        else Outcome(got.(stage := 3, ts := now, tx := s.tx + ErrorQuery), stateIn)
      else if TimedOut(s.ts, now) then Outcome(s.(stage := 0), NoAnswer)
      else Outcome(s, stateIn)
    case 3 =>
      Outcome(s.(stage := WaitCase(3, graceOver)), stateIn)
    case 4 =>
      if s.rx != [] then
        Outcome(s.(stage := 0, status := s.status[1 := s.rx[0]], rx := s.rx[1..]), stateIn + 1)
      else if TimedOut(s.ts, now) then Outcome(s.(stage := 0), NoAnswer)
      else Outcome(s, stateIn)
    case 10 =>
      Outcome(s.(stage := 11, ts := now, tx := s.tx + ChuteQuery), stateIn)
    case 11 =>
      Outcome(s.(stage := WaitCase(11, graceOver)), stateIn)
    case 12 =>
      if s.rx != [] then
        Outcome(s.(stage := 0, status := s.status[2 := s.rx[0]], rx := s.rx[1..]), stateIn + 1)
      else if TimedOut(s.ts, now) then Outcome(s.(stage := 0), NoAnswer)
      else Outcome(s, stateIn)
    case _ =>
      Outcome(s, stateIn)
  }

  /** A tick of the caller's loop: replies that arrived since the last call, the clock, and waitCase's verdict. */
  datatype Tick = Tick(arrivals: seq<bv8>, now: uint32, graceOver: bool)

  /**
   * The caller's loop: before each call the tick's bytes join the receive
   * queue, and each call gets the code the previous one returned.
   */
  function Run(s: Snapshot, code: int, ticks: seq<Tick>): (o: Outcome)
    requires |s.status| >= 3
    ensures |o.next.status| == |s.status| && o.next.status[3..] == s.status[3..]
    ensures ValidStage(s.stage) ==> ValidStage(o.next.stage)
    ensures SessionInv(s) ==> SessionInv(o.next)
    decreases |ticks|
  {
    if ticks == [] then Outcome(s, code)
    else
      var t := ticks[0];
      var o1 := Poll(s.(rx := s.rx + t.arrivals), code, t.now, t.graceOver);
      Run(o1.next, o1.code, ticks[1..])
  }

  /**
   * The start of a pass: the receive queue is emptied, the three result
   * bytes are zeroed, DLE EOT 1 goes out, the clock is noted, and the call
   * reports no progress.
   */
  lemma StartBeginsPass(s: Snapshot, stateIn: int, now: uint32, graceOver: bool)
    requires s.stage == 0 && |s.status| >= 3
    ensures var o := Poll(s, stateIn, now, graceOver);
      o.code == stateIn && o.next.stage == 1 && o.next.ts == now &&
      o.next.status[..3] == [0, 0, 0] && o.next.rx == [] &&
      o.next.tx == s.tx + [0x10, 0x04, 0x01]
  {
  }

  /** An OK online reply skips the error query and heads for the chute query. */
  lemma OkReplyGoesToChute(s: Snapshot, stateIn: int, now: uint32, graceOver: bool)
    requires s.stage == 2 && |s.status| >= 3 && s.rx != [] && s.rx[0] == OkStatus
    ensures var o := Poll(s, stateIn, now, graceOver);
      o.code == stateIn && o.next.stage == 10 && o.next.ts == s.ts &&
      o.next.status == s.status[0 := OkStatus] && o.next.rx == s.rx[1..] && o.next.tx == s.tx
  {
  }

  /** Any other online reply is kept and DLE EOT 2 asks for the cause. */
  lemma FaultReplyQueriesError(s: Snapshot, stateIn: int, now: uint32, graceOver: bool)
    requires s.stage == 2 && |s.status| >= 3 && s.rx != [] && s.rx[0] != OkStatus
    ensures var o := Poll(s, stateIn, now, graceOver);
      o.code == stateIn && o.next.stage == 3 && o.next.ts == now &&
      o.next.status == s.status[0 := s.rx[0]] && o.next.rx == s.rx[1..] &&
      o.next.tx == s.tx + [0x10, 0x04, 0x02]
  {
  }

  /** The chute query DLE EOT 5 goes out at stage 10. */
  lemma ChuteQuerySent(s: Snapshot, stateIn: int, now: uint32, graceOver: bool)
    requires s.stage == 10 && |s.status| >= 3
    ensures var o := Poll(s, stateIn, now, graceOver);
      o.code == stateIn && o.next.stage == 11 && o.next.ts == now &&
      o.next.status == s.status && o.next.rx == s.rx && o.next.tx == s.tx + [0x10, 0x04, 0x05]
  {
  }

  /**
   * A call that reports progress ends a pass with one freshly read byte:
   * either the fault cause after a non-OK online byte (the chute byte stays
   * zero), or the chute byte after an OK online byte (the error byte stays
   * zero).
   */
  lemma CompletedPassResults(s: Snapshot, stateIn: int, now: uint32, graceOver: bool)
    requires |s.status| >= 3 && SessionInv(s)
    requires Poll(s, stateIn, now, graceOver).code == stateIn + 1 && stateIn + 1 != NoAnswer
    ensures var o := Poll(s, stateIn, now, graceOver);
      o.next.stage == 0 && s.rx != [] && o.next.rx == s.rx[1..] && o.next.tx == s.tx &&
      ((s.stage == 4 && s.status[0] != OkStatus && o.next.status[..3] == [s.status[0], s.rx[0], 0]) ||
       (s.stage == 12 && o.next.status[..3] == [OkStatus, 0, s.rx[0]]))
  {
  }

  /**
   * A reply byte waiting at stage 4 or 12 ends the pass: it is consumed into
   * the error byte (stage 4) or the chute byte (stage 12), nothing is sent,
   * the call reports progress and the poller goes back to stage 0.
   */
  lemma ReplyEndsPass(s: Snapshot, stateIn: int, now: uint32, graceOver: bool)
    requires |s.status| >= 3 && (s.stage == 4 || s.stage == 12) && s.rx != []
    ensures var o := Poll(s, stateIn, now, graceOver);
      o.code == stateIn + 1 && o.next.stage == 0 && o.next.rx == s.rx[1..] &&
      o.next.tx == s.tx && o.next.ts == s.ts &&
      o.next.status == (if s.stage == 4 then s.status[1 := s.rx[0]] else s.status[2 := s.rx[0]])
  {
  }

  /**
   * With no byte waiting, no timeout due and the grace period not over, a
   * call changes nothing and returns its input code.
   */
  lemma QuietTickIsNoOp(s: Snapshot, stateIn: int, now: uint32, graceOver: bool)
    requires |s.status| >= 3 && s.stage != 0 && s.stage != 10
    requires s.rx == [] && !TimedOut(s.ts, now) && !graceOver
    ensures Poll(s, stateIn, now, graceOver) == Outcome(s, stateIn)
  {
  }

  /** A tick that brings no byte, no timeout and no end of grace. */
  predicate Quiet(ts: uint32, t: Tick)
  {
    t.arrivals == [] && !TimedOut(ts, t.now) && !t.graceOver
  }

  /** Polling again and again while nothing happens is harmless. */
  lemma {:induction false} QuietTicksAreNoOps(s: Snapshot, code: int, ticks: seq<Tick>)
    requires |s.status| >= 3 && s.stage != 0 && s.stage != 10 && s.rx == []
    requires forall i :: 0 <= i < |ticks| ==> Quiet(s.ts, ticks[i])
    ensures Run(s, code, ticks) == Outcome(s, code)
    decreases |ticks|
  {
    if ticks != [] {
      var t := ticks[0];
      assert Quiet(s.ts, t);
      assert s.(rx := s.rx + t.arrivals) == s;
      QuietTickIsNoOp(s, code, t.now, t.graceOver);
      QuietTicksAreNoOps(s, code, ticks[1..]);
    }
  }

  /**
   * A wait stage with nothing to read past the timeout reports NoAnswer and
   * goes idle; the next call is a fresh start.
   */
  lemma TimeoutThenFreshStart(s: Snapshot, stateIn: int, now: uint32, graceOver: bool,
                              later: uint32, graceLater: bool)
    requires |s.status| >= 3 && (s.stage == 2 || s.stage == 4 || s.stage == 12)
    requires s.rx == [] && TimedOut(s.ts, now)
    ensures var o := Poll(s, stateIn, now, graceOver);
      o.code == NoAnswer && o.next.status == s.status &&
      Poll(o.next, o.code, later, graceLater) == Poll(s.(stage := 0), NoAnswer, later, graceLater)
  {
  }

  /** The six ticks of a healthy pass: OK online reply, then the chute byte. */
  function OkPassTicks(n0: uint32, n1: uint32, n2: uint32, n3: uint32, n4: uint32, n5: uint32, chute: bv8): seq<Tick>
  {
    [Tick([], n0, false), Tick([], n1, true), Tick([OkStatus], n2, false),
     Tick([], n3, false), Tick([], n4, true), Tick([chute], n5, false)]
  }

  /**
   * A healthy pass: whatever stale bytes were waiting, the results are the
   * OK byte, a zero error byte and the chute byte, and only the online and
   * chute queries were sent.
   */
  lemma {:induction false} OkPass(s: Snapshot, code: int, n0: uint32, n1: uint32, n2: uint32,
                                  n3: uint32, n4: uint32, n5: uint32, chute: bv8)
    requires s.stage == 0 && |s.status| == 3
    ensures Run(s, code, OkPassTicks(n0, n1, n2, n3, n4, n5, chute)) ==
            Outcome(Snapshot(0, n3, [OkStatus, 0, chute], [], s.tx + OnlineQuery + ChuteQuery), code + 1)
  {
    var ticks := OkPassTicks(n0, n1, n2, n3, n4, n5, chute);
    var s1 := Snapshot(1, n0, [0, 0, 0], [], s.tx + OnlineQuery);
    var s2 := s1.(stage := 2);
    var s3 := Snapshot(10, n0, [OkStatus, 0, 0], [], s.tx + OnlineQuery);
    var s4 := s3.(stage := 11, ts := n3, tx := s.tx + OnlineQuery + ChuteQuery);
    var s5 := s4.(stage := 12);
    var s6 := Snapshot(0, n3, [OkStatus, 0, chute], [], s.tx + OnlineQuery + ChuteQuery);
    assert s.status[0 := 0][1 := 0][2 := 0] == [0, 0, 0];
    assert Run(s, code, ticks) == Run(s1, code, ticks[1..]);
    assert Run(s1, code, ticks[1..]) == Run(s2, code, ticks[2..]);
    assert s2.status[0 := OkStatus] == [OkStatus, 0, 0];
    assert Run(s2, code, ticks[2..]) == Run(s3, code, ticks[3..]);
    assert Run(s3, code, ticks[3..]) == Run(s4, code, ticks[4..]);
    assert Run(s4, code, ticks[4..]) == Run(s5, code, ticks[5..]);
    assert Run(s5, code, ticks[5..]) == Run(s6, code + 1, []);
  }

  /**
   * A pass with a fault: a non-OK online byte, then the fault cause.  The
   * pass ends there; the chute is not asked and its byte stays zero.
   */
  lemma {:induction false} FaultPass(s: Snapshot, code: int, n0: uint32, n1: uint32, n2: uint32,
                                     n3: uint32, n4: uint32, online: bv8, cause: bv8)
    requires s.stage == 0 && |s.status| == 3 && online != OkStatus
    ensures Run(s, code, [Tick([], n0, false), Tick([], n1, true), Tick([online], n2, false),
                          Tick([], n3, true), Tick([cause], n4, false)]) ==
            Outcome(Snapshot(0, n2, [online, cause, 0], [], s.tx + OnlineQuery + ErrorQuery), code + 1)
  {
    var ticks := [Tick([], n0, false), Tick([], n1, true), Tick([online], n2, false),
                  Tick([], n3, true), Tick([cause], n4, false)];
    var s1 := Snapshot(1, n0, [0, 0, 0], [], s.tx + OnlineQuery);
    var s2 := s1.(stage := 2);
    var s3 := Snapshot(3, n2, [online, 0, 0], [], s.tx + OnlineQuery + ErrorQuery);
    var s4 := s3.(stage := 4);
    var s5 := Snapshot(0, n2, [online, cause, 0], [], s.tx + OnlineQuery + ErrorQuery);
    assert s.status[0 := 0][1 := 0][2 := 0] == [0, 0, 0];
    assert Run(s, code, ticks) == Run(s1, code, ticks[1..]);
    assert Run(s1, code, ticks[1..]) == Run(s2, code, ticks[2..]);
    assert s2.status[0 := online] == [online, 0, 0];
    assert Run(s2, code, ticks[2..]) == Run(s3, code, ticks[3..]);
    assert Run(s3, code, ticks[3..]) == Run(s4, code, ticks[4..]);
    assert Run(s4, code, ticks[4..]) == Run(s5, code + 1, []);
  }

  /**
   * A printer that never answers: after the grace period and 200 ms of
   * silence the call reports NoAnswer, the results stay zeroed and only the
   * online query was sent.
   */
  lemma {:induction false} SilentPass(s: Snapshot, code: int, n0: uint32, n1: uint32, n2: uint32)
    requires s.stage == 0 && |s.status| == 3 && TimedOut(n0, n2)
    ensures Run(s, code, [Tick([], n0, false), Tick([], n1, true), Tick([], n2, false)]) ==
            Outcome(Snapshot(0, n0, [0, 0, 0], [], s.tx + OnlineQuery), NoAnswer)
  {
    var ticks := [Tick([], n0, false), Tick([], n1, true), Tick([], n2, false)];
    var s1 := Snapshot(1, n0, [0, 0, 0], [], s.tx + OnlineQuery);
    var s2 := s1.(stage := 2);
    assert s.status[0 := 0][1 := 0][2 := 0] == [0, 0, 0];
    assert Run(s, code, ticks) == Run(s1, code, ticks[1..]);
    assert Run(s1, code, ticks[1..]) == Run(s2, code, ticks[2..]);
    assert Run(s2, code, ticks[2..]) == Run(s2.(stage := 0), NoAnswer, []);
  }
}

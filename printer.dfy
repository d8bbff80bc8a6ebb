/**
 * The EscPosPrinter object: the serial port it drives and the two fields of
 * the status poller, statusState and statusTs, which getStatus updates in
 * place between calls.  Each method is proved against the value-level
 * description in Poller and Commands.
 */
module Printer {
  import opened Commands
  import opened Poller
  import opened Serial

  class EscPosPrinter {
    var port: Port
    var statusState: int
    var statusTs: uint32

    /** statusState starts at 0; statusTs has no meaningful value before the first start stage. */
    constructor (port: Port)
      ensures this.port == port && statusState == 0
    {
      this.port := port;
      statusState := 0;
    }

    /** The view of getStatus's state as one value, for the caller's status array `a`. */
    function Snap(a: array<bv8>): Snapshot
      reads this, port, a
    {
      Snapshot(statusState, statusTs, a[..], port.rx, port.tx)
    }

    /** clearRxBuffer: read and drop exactly the bytes waiting when it starts. */
    method ClearRxBuffer()
      modifies port
      ensures port.rx == [] && port.tx == old(port.tx)
    {
      var bytesAtPort := port.Available();
      var i := 0;
      while i < bytesAtPort
        invariant 0 <= i <= bytesAtPort == |old(port.rx)|
        invariant port.rx == old(port.rx)[i..] && port.tx == old(port.tx)
      {
        var _ := port.Read();
        i := i + 1;
      }
    }

    /**
     * hasPaper: send GS r 1, poll the port up to ten times for one reply byte,
     * and report paper unless a paper-end bit is set; no reply counts as paper.
     */
    method HasPaper() returns (present: bool, ghost polls: nat)
      modifies port
      ensures port.tx == old(port.tx) + PaperQuery
      ensures polls <= 10
      ensures old(port.rx) == [] ==> present && port.rx == [] && polls == 10
      ensures old(port.rx) != [] ==>
                present == PaperPresent(old(port.rx)[0]) && port.rx == old(port.rx)[1..] && polls == 1
    {
      port.Write(PaperQuery);
      var status: bv8 := 0;
      polls := 0;
      var i := 0;
      while i < 10
        invariant 0 <= i <= 10 && polls == i
        invariant port.rx == old(port.rx) && port.tx == old(port.tx) + PaperQuery
        invariant status == 0
        invariant i > 0 ==> old(port.rx) == []
      {
        var available := port.Available();
        polls := polls + 1;
        if available > 0 {
          status := port.Read();
          break;
        }
        i := i + 1;
      }
      present := status & 0x0C == 0;
    }

    /**
     * getStatus(stateIn, statusArray) at time `now`, with `graceOver` the
     * verdict of waitCase at this call: one step of the poller, exactly as
     * Poll describes it.
     */
    method GetStatus(stateIn: int, statusArray: array<bv8>, now: uint32, graceOver: bool)
      returns (stateOut: int)
      requires statusArray.Length >= 3
      modifies this, port, statusArray
      ensures port == old(port)
      ensures Outcome(Snap(statusArray), stateOut) == Poll(old(Snap(statusArray)), stateIn, now, graceOver)
    {
      stateOut := stateIn;
      match statusState
      case 0 =>
        ClearRxBuffer();
        statusArray[0] := 0;
        statusArray[1] := 0;
        statusArray[2] := 0;
        port.Write(OnlineQuery);
        statusTs := now;
        statusState := statusState + 1;
      case 1 =>
        statusState := WaitCase(statusState, graceOver);
      case 2 =>
        var available := port.Available();
        if available > 0 {
          var statusByte := port.Read();
          statusArray[0] := statusByte;
          if statusByte == OkStatus {
            statusState := 10;
          } else {
            port.Write(ErrorQuery);
            statusTs := now;
            statusState := statusState + 1;
          }
        } else if TimedOut(statusTs, now) {
          stateOut := NoAnswer;
          statusState := 0;
        }
      case 3 =>
        statusState := WaitCase(statusState, graceOver);
      case 4 =>
        var available := port.Available();
        if available > 0 {
          var statusByte := port.Read();
          statusArray[1] := statusByte;
          stateOut := stateIn + 1;
          statusState := 0;
        } else if TimedOut(statusTs, now) {
          stateOut := NoAnswer;
          statusState := 0;
        }
      case 10 =>
        port.Write(ChuteQuery);
        statusTs := now;
        statusState := statusState + 1;
      case 11 =>
        statusState := WaitCase(statusState, graceOver);
      case 12 =>
        var available := port.Available();
        if available > 0 {
          var statusByte := port.Read();
          statusArray[2] := statusByte;
          statusState := 0;
          stateOut := stateIn + 1;
        } else if TimedOut(statusTs, now) {
          stateOut := NoAnswer;
          statusState := 0;
        }
      case _ =>
    }
  }
}

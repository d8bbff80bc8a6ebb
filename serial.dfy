/**
 * The serial transport the printer talks through (Arduino's HardwareSerial,
 * not part of this model).  Received bytes wait in `rx` until read; every
 * byte written is appended to the log `tx`.  Bytes arrive only between
 * calls of the driver, through Deliver, which stands for the environment.
 */
module Serial {

  class Port {
    var rx: seq<bv8>
    var tx: seq<bv8>

    constructor ()
      ensures rx == [] && tx == []
    {
      rx, tx := [], [];
    }

    /** available(): the number of received bytes not yet read. */
    method Available() returns (n: nat)
      ensures n == |rx|
    {
      n := |rx|;
    }

    /** read(): the oldest received byte; the driver only reads after available() > 0. */
    method Read() returns (b: bv8)
      requires rx != []
      modifies this
      ensures b == old(rx)[0] && rx == old(rx)[1..] && tx == old(tx)
    {
      b := rx[0];
      rx := rx[1..];
    }

    /** write(buffer, size): the bytes go out in order. */
    method Write(bytes: seq<bv8>)
      modifies this
      ensures tx == old(tx) + bytes && rx == old(rx)
    {
      tx := tx + bytes;
    }

    /** The device's replies reaching the receive buffer between two driver calls. */
    method Deliver(bytes: seq<bv8>)
      modifies this
      ensures rx == old(rx) + bytes && tx == old(tx)
    {
      rx := rx + bytes;
    }
  }
}

/**
 * The EC port handshake (ec_io_wait, ec_io_read, ec_io_do) as a trace of
 * port operations.  The hardware is two streams of answers: what the
 * status port 0x66 returns on its n-th read and what the data port 0x62
 * returns on its n-th read.  Every `inb` and `outb` is recorded, in order.
 */
module EcPort {
  import opened EcRegisters

  /** Status/command port and data port. */
  const EC_SC: Byte := 0x66
  const EC_DATA: Byte := 0x62

  /** Status bits: input buffer full and output buffer full. */
  const IBF: nat := 1
  const OBF: nat := 0

  /** The command byte that starts a register read. */
  const EC_SC_READ_CMD: Byte := 0x80

  /** How many re-reads a wait allows before it reports a timeout. */
  const WAIT_LIMIT: nat := 100

  /** One port access: `In` is an `inb` and the byte it returned, `Out` an `outb`. */
  datatype PortOp = In(port: Byte, value: Byte) | Out(port: Byte, value: Byte)

  /** A stretch of port traffic and the status-stream position after it. */
  datatype Exchange = Exchange(trace: seq<PortOp>, next: nat)

  function Pow2(n: nat): (p: nat)
    ensures p >= 1
  {
    if n == 0 then 1 else 2 * Pow2(n - 1)
  }

  /** `(data >> flag) & 0x1` */
  function Bit(data: Byte, flag: nat): (b: int)
    ensures b == 0 || b == 1
  {
    data / Pow2(flag) % 2
  }

  /** The index of the first read whose bit `flag` equals `value`; |polled| when there is none. */
  function FirstMatch(polled: seq<Byte>, flag: nat, value: int): (k: nat)
    ensures k <= |polled|
    ensures forall j :: 0 <= j < k ==> Bit(polled[j], flag) != value
    ensures k < |polled| ==> Bit(polled[k], flag) == value
  {
    if |polled| == 0 then 0
    else if Bit(polled[0], flag) == value then 0
    else 1 + FirstMatch(polled[1..], flag, value)
  }

  /** The status bytes a wait starting at stream position `pos` can see: at most 101 reads. */
  function Window(status: nat -> Byte, pos: nat): (w: seq<Byte>)
    ensures |w| == WAIT_LIMIT + 1
    ensures forall k :: 0 <= k < |w| ==> w[k] == status(pos + k)
  {
    seq(WAIT_LIMIT + 1, k requires 0 <= k => status(pos + k))
  }

  /** `n` consecutive status-port reads starting at stream position `pos`. */
  function StatusReads(status: nat -> Byte, pos: nat, n: nat): (t: seq<PortOp>)
    ensures |t| == n
    ensures forall k :: 0 <= k < n ==> t[k] == In(EC_SC, status(pos + k))
  {
    seq(n, k requires 0 <= k => In(EC_SC, status(pos + k)))
  }

  /**
   * ec_io_wait's verdict: success when the first matching status read is
   * among the first 100 (the first read and up to 99 re-reads).
   */
  function WaitOk(status: nat -> Byte, pos: nat, flag: nat, value: int): (ok: bool)
    ensures ok ==> Bit(status(pos + WaitReads(status, pos, flag, value) - 1), flag) == value
    ensures !ok ==> WaitReads(status, pos, flag, value) == WAIT_LIMIT + 1
  {
    var w := Window(status, pos);
    var k := FirstMatch(w, flag, value);
    if k < WAIT_LIMIT then assert w[k] == status(pos + k); true else false
  }

  /** How many status reads ec_io_wait performs: up to the first match, never more than 101. */
  function WaitReads(status: nat -> Byte, pos: nat, flag: nat, value: int): (n: nat)
    ensures 1 <= n <= WAIT_LIMIT + 1
  {
    var k := FirstMatch(Window(status, pos), flag, value);
    if k < WAIT_LIMIT then k + 1 else WAIT_LIMIT + 1
  }

  /** The port traffic of ec_io_wait: its status reads, in order. */
  function WaitExchange(status: nat -> Byte, pos: nat, flag: nat, value: int): (e: Exchange)
    ensures pos + 1 <= e.next <= pos + WAIT_LIMIT + 1
    ensures |e.trace| == e.next - pos
  {
    var n := WaitReads(status, pos, flag, value);
    Exchange(StatusReads(status, pos, n), pos + n)
  }

  /**
   * ec_io_wait succeeds exactly when one of the first 100 status reads has
   * bit `flag` equal to `value`; a match on the 101st read is still a timeout.
   */
  lemma WaitOkIff(status: nat -> Byte, pos: nat, flag: nat, value: int)
    ensures WaitOk(status, pos, flag, value) <==>
            exists k :: pos <= k < pos + WAIT_LIMIT && Bit(status(k), flag) == value
  {
    var w := Window(status, pos);
    var k := FirstMatch(w, flag, value);
    if k < WAIT_LIMIT {
      assert w[k] == status(pos + k);
    }
    forall j | pos <= j < pos + WAIT_LIMIT && Bit(status(j), flag) == value
      ensures k <= j - pos
    {
      assert w[j - pos] == status(j);
    }
  }

  /**
   * ec_io_wait stops polling at the first match: every read before the
   * last one missed, the last one matched when the wait succeeded, and a
   * failed wait has made all 101 reads.
   */
  lemma WaitStopsAtFirstMatch(status: nat -> Byte, pos: nat, flag: nat, value: int)
    ensures var e := WaitExchange(status, pos, flag, value);
      (forall k :: pos <= k < e.next - 1 ==> Bit(status(k), flag) != value) &&
      (WaitOk(status, pos, flag, value) ==> Bit(status(e.next - 1), flag) == value) &&
      (!WaitOk(status, pos, flag, value) ==> e.next == pos + WAIT_LIMIT + 1) &&
      (forall k :: 0 <= k < |e.trace| ==> e.trace[k] == In(EC_SC, status(pos + k)))
  {
    var w := Window(status, pos);
    var e := WaitExchange(status, pos, flag, value);
    forall j | pos <= j < e.next - 1
      ensures Bit(status(j), flag) != value
    {
      assert w[j - pos] == status(j);
    }
    assert w[e.next - 1 - pos] == status(e.next - 1);
  }

  /**
   * A poll that missed on its first `n - 1` reads and then either matched
   * or ran out of re-reads made exactly the reads the wait is defined to make.
   */
  lemma WaitEndsAt(status: nat -> Byte, pos: nat, flag: nat, value: int, n: nat)
    requires 1 <= n <= WAIT_LIMIT + 1
    requires forall j :: pos <= j < pos + n - 1 ==> Bit(status(j), flag) != value
    requires Bit(status(pos + n - 1), flag) == value || n == WAIT_LIMIT + 1
    ensures WaitReads(status, pos, flag, value) == n
    ensures WaitOk(status, pos, flag, value) <==> n <= WAIT_LIMIT && Bit(status(pos + n - 1), flag) == value
  {
    var w := Window(status, pos);
    assert forall j :: 0 <= j < n - 1 ==> Bit(w[j], flag) != value by {
      forall j | 0 <= j < n - 1
        ensures Bit(w[j], flag) != value
      {
        assert w[j] == status(pos + j);
      }
    }
    assert w[n - 1] == status(pos + n - 1);
  }

  /** `ec_io_wait(EC_SC, IBF, 0)` followed by one `outb` whose wait result is ignored. */
  function WaitWrite(status: nat -> Byte, pos: nat, port: Byte, value: Byte): (e: Exchange)
    ensures pos + 1 <= e.next <= pos + WAIT_LIMIT + 1
  {
    var w := WaitExchange(status, pos, IBF, 0);
    Exchange(w.trace + [Out(port, value)], w.next)
  }

  /** ec_io_read: wait, 0x80 to 0x66, wait, register to 0x62, wait for data, read 0x62. */
  function ReadExchange(status: nat -> Byte, pos: nat, reg: Byte, got: Byte): (e: Exchange)
    ensures pos + 3 <= e.next <= pos + 3 * (WAIT_LIMIT + 1)
    ensures |e.trace| >= 1 && e.trace[|e.trace| - 1] == In(EC_DATA, got)
  {
    var a := WaitWrite(status, pos, EC_SC, EC_SC_READ_CMD);
    var b := WaitWrite(status, a.next, EC_DATA, reg);
    var c := WaitExchange(status, b.next, OBF, 1);
    Exchange(a.trace + b.trace + c.trace + [In(EC_DATA, got)], c.next)
  }

  /** ec_io_do: three wait-then-write pairs (command, port selector, value) and a final wait. */
  function DoExchange(status: nat -> Byte, pos: nat, cmd: Byte, port: Byte, value: Byte): (e: Exchange)
    ensures pos + 4 <= e.next <= pos + 4 * (WAIT_LIMIT + 1)
  {
    var a := WaitWrite(status, pos, EC_SC, cmd);
    var b := WaitWrite(status, a.next, EC_DATA, port);
    var c := WaitWrite(status, b.next, EC_DATA, value);
    var d := WaitExchange(status, c.next, IBF, 0);
    Exchange(a.trace + b.trace + c.trace + d.trace, d.next)
  }

  /** ec_io_do's verdict: only the final wait's result; the first three are ignored. */
  function DoOk(status: nat -> Byte, pos: nat): (ok: bool)
    ensures var c := WaitExchange(status, WaitExchange(status, WaitExchange(status, pos, IBF, 0).next, IBF, 0).next, IBF, 0).next;
      ok <==> exists k :: c <= k < c + WAIT_LIMIT && Bit(status(k), IBF) == 0
  {
    var a := WaitExchange(status, pos, IBF, 0).next;
    var b := WaitExchange(status, a, IBF, 0).next;
    var c := WaitExchange(status, b, IBF, 0).next;
    WaitOkIff(status, c, IBF, 0);
    WaitOk(status, c, IBF, 0)
  }

  /** The three `outb` operations with which ec_io_do sends one command. */
  function CommandWrites(c: FanCommand): seq<PortOp>
  {
    [Out(EC_SC, c.cmd), Out(EC_DATA, c.port), Out(EC_DATA, c.value)]
  }

  /** The `outb` operations of a series of commands sent one after another. */
  function CommandsWrites(cs: seq<FanCommand>): (ws: seq<PortOp>)
    ensures |ws| == 3 * |cs|
  {
    if |cs| == 0 then [] else CommandWrites(cs[0]) + CommandsWrites(cs[1..])
  }

  lemma {:induction false} CommandsWritesAppend(a: seq<FanCommand>, b: seq<FanCommand>)
    ensures CommandsWrites(a + b) == CommandsWrites(a) + CommandsWrites(b)
  {
    if |a| == 0 {
      assert a + b == b;
    } else {
      assert (a + b)[1..] == a[1..] + b;
      CommandsWritesAppend(a[1..], b);
    }
  }

  /** Sending one more command extends a log of writes by that command's three writes. */
  lemma CommandsWritesSnoc(w: seq<PortOp>, sent: seq<FanCommand>, c: FanCommand)
    ensures w + CommandsWrites(sent) + CommandWrites(c) == w + CommandsWrites(sent + [c])
  {
    CommandsWritesAppend(sent, [c]);
    assert CommandsWrites([c]) == CommandWrites(c) + CommandsWrites([]);
  }

  /** The `outb` operations of a trace, in order. */
  function Writes(trace: seq<PortOp>): (ws: seq<PortOp>)
    ensures |ws| <= |trace|
    ensures forall k :: 0 <= k < |ws| ==> ws[k].Out?
  {
    if |trace| == 0 then []
    else (if trace[0].Out? then [trace[0]] else []) + Writes(trace[1..])
  }

  lemma {:induction false} WritesAppend(a: seq<PortOp>, b: seq<PortOp>)
    ensures Writes(a + b) == Writes(a) + Writes(b)
  {
    if |a| == 0 {
      assert a + b == b;
    } else {
      assert (a + b)[1..] == a[1..] + b;
      WritesAppend(a[1..], b);
    }
  }

  /** A wait only reads: it writes nothing to either port. */
  lemma {:induction false} StatusReadsWriteNothing(status: nat -> Byte, pos: nat, n: nat)
    ensures Writes(StatusReads(status, pos, n)) == []
    decreases n
  {
    if n > 0 {
      assert StatusReads(status, pos, n)[1..] == StatusReads(status, pos + 1, n - 1);
      StatusReadsWriteNothing(status, pos + 1, n - 1);
    }
  }

  /** A wait-then-write pair writes exactly its one byte. */
  lemma WaitWriteWritesOne(status: nat -> Byte, pos: nat, port: Byte, value: Byte)
    ensures var e := WaitWrite(status, pos, port, value);
      Writes(e.trace) == [Out(port, value)] && |e.trace| == e.next - pos + 1
  {
    var w := WaitExchange(status, pos, IBF, 0);
    StatusReadsWriteNothing(status, pos, w.next - pos);
    WritesAppend(w.trace, [Out(port, value)]);
  }

  /**
   * ec_io_read writes exactly the read command to the status port and then
   * the register offset to the data port, ends with the data-port read, and
   * its waits are bounded: at most 3 * 101 status reads.
   */
  lemma ReadProtocol(status: nat -> Byte, pos: nat, reg: Byte, got: Byte)
    ensures var e := ReadExchange(status, pos, reg, got);
      Writes(e.trace) == [Out(EC_SC, EC_SC_READ_CMD), Out(EC_DATA, reg)] &&
      e.trace[|e.trace| - 1] == In(EC_DATA, got) &&
      pos + 3 <= e.next <= pos + 3 * (WAIT_LIMIT + 1) &&
      |e.trace| == e.next - pos + 3
  {
    var a := WaitWrite(status, pos, EC_SC, EC_SC_READ_CMD);
    var b := WaitWrite(status, a.next, EC_DATA, reg);
    var c := WaitExchange(status, b.next, OBF, 1);
    assert Writes(a.trace) == [Out(EC_SC, EC_SC_READ_CMD)] && |a.trace| == a.next - pos + 1 by {
      WaitWriteWritesOne(status, pos, EC_SC, EC_SC_READ_CMD);
    }
    assert Writes(b.trace) == [Out(EC_DATA, reg)] && |b.trace| == b.next - a.next + 1 by {
      WaitWriteWritesOne(status, a.next, EC_DATA, reg);
    }
    assert Writes(c.trace) == [] by { StatusReadsWriteNothing(status, b.next, c.next - b.next); }
    WritesOfTwo(a.trace, b.trace, c.trace, [In(EC_DATA, got)], Out(EC_SC, EC_SC_READ_CMD), Out(EC_DATA, reg));
  }

  /** Two stretches writing one byte each, then two writing nothing, write those two bytes. */
  lemma WritesOfTwo(a: seq<PortOp>, b: seq<PortOp>, c: seq<PortOp>, d: seq<PortOp>, x: PortOp, y: PortOp)
    requires Writes(a) == [x] && Writes(b) == [y] && Writes(c) == [] && Writes(d) == []
    ensures Writes(a + b + c + d) == [x, y]
  {
    WritesAppend(a, b);
    WritesAppend(a + b, c);
    WritesAppend(a + b + c, d);
    assert [x] + [y] + [] + [] == [x, y];
  }

  /**
   * ec_io_do writes exactly the command to the status port, then the port
   * selector and the value to the data port, finishes with at least one
   * status read, and performs at most 4 * 101 status reads.
   */
  lemma DoProtocol(status: nat -> Byte, pos: nat, cmd: Byte, port: Byte, value: Byte)
    ensures var e := DoExchange(status, pos, cmd, port, value);
      Writes(e.trace) == CommandWrites(FanCommand(cmd, port, value)) &&
      e.trace[|e.trace| - 1].In? &&
      pos + 4 <= e.next <= pos + 4 * (WAIT_LIMIT + 1) &&
      |e.trace| == e.next - pos + 3
  {
    DoWrites(status, pos, cmd, port, value);
    var a := WaitWrite(status, pos, EC_SC, cmd);
    var b := WaitWrite(status, a.next, EC_DATA, port);
    var c := WaitWrite(status, b.next, EC_DATA, value);
    var d := WaitExchange(status, c.next, IBF, 0);
    WaitWriteWritesOne(status, pos, EC_SC, cmd);
    WaitWriteWritesOne(status, a.next, EC_DATA, port);
    WaitWriteWritesOne(status, b.next, EC_DATA, value);
    assert d.trace[|d.trace| - 1].In?;
  }

  lemma DoWrites(status: nat -> Byte, pos: nat, cmd: Byte, port: Byte, value: Byte)
    ensures Writes(DoExchange(status, pos, cmd, port, value).trace) == CommandWrites(FanCommand(cmd, port, value))
  {
    var a := WaitWrite(status, pos, EC_SC, cmd);
    var b := WaitWrite(status, a.next, EC_DATA, port);
    var c := WaitWrite(status, b.next, EC_DATA, value);
    var d := WaitExchange(status, c.next, IBF, 0);
    assert Writes(a.trace) == [Out(EC_SC, cmd)] by { WaitWriteWritesOne(status, pos, EC_SC, cmd); }
    assert Writes(b.trace) == [Out(EC_DATA, port)] by { WaitWriteWritesOne(status, a.next, EC_DATA, port); }
    assert Writes(c.trace) == [Out(EC_DATA, value)] by { WaitWriteWritesOne(status, b.next, EC_DATA, value); }
    assert Writes(d.trace) == [] by { StatusReadsWriteNothing(status, c.next, d.next - c.next); }
    WritesOfThree(a.trace, b.trace, c.trace, d.trace, Out(EC_SC, cmd), Out(EC_DATA, port), Out(EC_DATA, value));
  }

  /** Three stretches writing one byte each, then one writing nothing, write those three bytes. */
  lemma WritesOfThree(a: seq<PortOp>, b: seq<PortOp>, c: seq<PortOp>, d: seq<PortOp>, x: PortOp, y: PortOp, z: PortOp)
    requires Writes(a) == [x] && Writes(b) == [y] && Writes(c) == [z] && Writes(d) == []
    ensures Writes(a + b + c + d) == [x, y, z]
  {
    WritesAppend(a, b);
    WritesAppend(a + b, c);
    WritesAppend(a + b + c, d);
    assert [x] + [y] + [z] + [] == [x, y, z];
  }

  /** Regrouping a trace extended twice. */
  lemma ConcatAssoc3<T>(t: seq<T>, a: seq<T>, b: seq<T>)
    ensures t + a + b == t + (a + b)
  {
  }

  /** Regrouping a trace extended four times. */
  lemma ConcatAssoc(t: seq<PortOp>, a: seq<PortOp>, b: seq<PortOp>, c: seq<PortOp>, d: seq<PortOp>)
    ensures t + a + b + c + d == t + (a + b + c + d)
  {
  }

  /** The hardware as seen through the two ports, and the log of every access. */
  class EcPorts {
    /** What the status port returns on its n-th read. */
    const status: nat -> Byte
    /** What the data port returns on its n-th read. */
    const data: nat -> Byte
    /** Reads performed so far on each port. */
    var statusPos: nat
    var dataPos: nat
    /** Every port access so far, in order. */
    var trace: seq<PortOp>

    constructor (status: nat -> Byte, data: nat -> Byte)
      ensures this.status == status && this.data == data
      ensures statusPos == 0 && dataPos == 0 && trace == []
    {
      this.status := status;
      this.data := data;
      statusPos := 0;
      dataPos := 0;
      trace := [];
    }

    /** `inb(EC_SC)` */
    method ReadStatus() returns (b: Byte)
      modifies this`statusPos, this`trace
      ensures b == status(old(statusPos)) && statusPos == old(statusPos) + 1
      ensures trace == old(trace) + [In(EC_SC, b)]
    {
      b := status(statusPos);
      statusPos := statusPos + 1;
      trace := trace + [In(EC_SC, b)];
    }

    /** `inb(EC_DATA)` */
    method ReadData() returns (b: Byte)
      modifies this`dataPos, this`trace
      ensures b == data(old(dataPos)) && dataPos == old(dataPos) + 1
      ensures trace == old(trace) + [In(EC_DATA, b)]
    {
      b := data(dataPos);
      dataPos := dataPos + 1;
      trace := trace + [In(EC_DATA, b)];
    }

    /** `outb(value, port)` */
    method Write(value: Byte, port: Byte)
      modifies this`trace
      ensures trace == old(trace) + [Out(port, value)]
    {
      trace := trace + [Out(port, value)];
    }

    /**
     * ec_io_wait on the status port: poll until bit `flag` equals `value`,
     * re-reading at most 100 times (the 1 ms sleeps are not modelled).
     */
    method IoWait(flag: nat, value: int) returns (ok: bool)
      modifies this`statusPos, this`trace
      ensures ok == WaitOk(status, old(statusPos), flag, value)
      ensures var e := WaitExchange(status, old(statusPos), flag, value);
        statusPos == e.next && trace == old(trace) + e.trace
    {
      ghost var p0 := statusPos;
      var data := ReadStatus();
      var i := 0;
      // the guard `bit != value && (i++ < 100)`, with its post-increment
      var polling := Bit(data, flag) != value;
      if polling {
        polling := i < WAIT_LIMIT;
        i := i + 1;
      }
      while polling
        invariant p0 + 1 <= statusPos <= p0 + WAIT_LIMIT + 1
        invariant trace == old(trace) + StatusReads(status, p0, statusPos - p0)
        invariant data == status(statusPos - 1)
        invariant forall j :: p0 <= j < statusPos - 1 ==> Bit(status(j), flag) != value
        invariant polling ==> Bit(data, flag) != value && i == statusPos - p0 <= WAIT_LIMIT
        invariant !polling ==> (Bit(data, flag) == value && i == statusPos - p0 - 1) ||
                               (Bit(data, flag) != value && i == statusPos - p0 == WAIT_LIMIT + 1)
        decreases WAIT_LIMIT + 1 - (statusPos - p0)
      {
        data := ReadStatus();
        polling := Bit(data, flag) != value;
        if polling {
          polling := i < WAIT_LIMIT;
          i := i + 1;
        }
      }
      ok := !(i >= WAIT_LIMIT);
      WaitEndsAt(status, p0, flag, value, statusPos - p0);
    }

    /** `ec_io_wait(EC_SC, IBF, 0)` then `outb(value, port)`; the wait's verdict is dropped. */
    method WaitThenWrite(value: Byte, port: Byte)
      modifies this`statusPos, this`trace
      ensures var e := WaitWrite(status, old(statusPos), port, value);
        statusPos == e.next && trace == old(trace) + e.trace
    {
      var _ := IoWait(IBF, 0);
      Write(value, port);
    }

    /** ec_io_read: read one EC register through the handshake; wait failures are ignored. */
    method IoRead(reg: Byte) returns (v: Byte)
      modifies this`statusPos, this`dataPos, this`trace
      ensures v == data(old(dataPos)) && dataPos == old(dataPos) + 1
      ensures var e := ReadExchange(status, old(statusPos), reg, v);
        statusPos == e.next && trace == old(trace) + e.trace
    {
      ghost var p0, t0 := statusPos, trace;
      WaitThenWrite(EC_SC_READ_CMD, EC_SC);
      WaitThenWrite(reg, EC_DATA);
      var _ := IoWait(OBF, 1);
      v := ReadData();
      ghost var a := WaitWrite(status, p0, EC_SC, EC_SC_READ_CMD);
      ghost var b := WaitWrite(status, a.next, EC_DATA, reg);
      ghost var c := WaitExchange(status, b.next, OBF, 1);
      ConcatAssoc(t0, a.trace, b.trace, c.trace, [In(EC_DATA, v)]);
    }

    /** ec_io_do: send command, port selector and value; report only the final wait. */
    method IoDo(cmd: Byte, port: Byte, value: Byte) returns (ok: bool)
      modifies this`statusPos, this`trace
      ensures ok == DoOk(status, old(statusPos))
      ensures var e := DoExchange(status, old(statusPos), cmd, port, value);
        statusPos == e.next && trace == old(trace) + e.trace
    {
      ghost var p0, t0 := statusPos, trace;
      WaitThenWrite(cmd, EC_SC);
      WaitThenWrite(port, EC_DATA);
      WaitThenWrite(value, EC_DATA);
      ok := IoWait(IBF, 0);
      ghost var a := WaitWrite(status, p0, EC_SC, cmd);
      ghost var b := WaitWrite(status, a.next, EC_DATA, port);
      ghost var c := WaitWrite(status, b.next, EC_DATA, value);
      ghost var d := WaitExchange(status, c.next, IBF, 0);
      ConcatAssoc(t0, a.trace, b.trace, c.trace, d.trace);
    }

    /**
     * ec_write_cpu_fan_duty / ec_write_gpu_fan_duty: clamp the duty into
     * [10, 100], scale it to a byte and send it with command 0x99 to the
     * zone's port selector.
     */
    method WriteFanDuty(zone: Zone, dutyPercentage: int) returns (ok: bool)
      modifies this`statusPos, this`trace
      ensures var c := FanDutyCommand(zone, dutyPercentage);
        var e := DoExchange(status, old(statusPos), c.cmd, c.port, c.value);
        ok == DoOk(status, old(statusPos)) && statusPos == e.next && trace == old(trace) + e.trace
      ensures Writes(trace) == Writes(old(trace)) + CommandWrites(FanDutyCommand(zone, dutyPercentage))
    {
      ghost var p0, t0 := statusPos, trace;
      var duty := dutyPercentage;
      if duty < MIN_WRITE_DUTY {
        duty := MIN_WRITE_DUTY;
      } else if duty > MAX_WRITE_DUTY {
        duty := MAX_WRITE_DUTY;
      }
      var v := duty * 255 / 100;
      ok := IoDo(CMD_SET_FAN_DUTY, if zone.Cpu? then CPU_PORT else GPU_PORT, v);
      ghost var c := FanDutyCommand(zone, dutyPercentage);
      DoProtocol(status, p0, c.cmd, c.port, c.value);
      WritesAppend(t0, DoExchange(status, p0, c.cmd, c.port, c.value).trace);
    }
  }
}

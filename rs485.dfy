/** RS485 media: one `SerialPort` object per port name, shared by every
    `RS485(port)` call through a process-wide table (`medias`) that pairs the
    shared object with a count of logical opens. */
module Rs485 {
  import opened Bytes
  import opened SerialLine

  /** A row of `medias`: the shared object and its open count. */
  datatype Entry = Entry(inst: RS485, count: int)

  /** The `medias` table, passed explicitly instead of living at module level. */
  class Registry {
    var medias: map<string, Entry>

    /** Counts are never negative, and each row's object is bound to the port
        it is filed under. */
    ghost predicate Valid()
      reads this
    {
      forall p :: p in medias ==> medias[p].count >= 0 && medias[p].inst.line.port == p
    }

    constructor ()
      ensures Valid() && medias == map[]
    {
      medias := map[];
    }

    /** `RS485(port, baudrate)`: `__new__` files a new object with count 0
        the first time a port is named and otherwise returns the filed one;
        Python then runs `__init__` on whichever object `__new__` returned,
        which gives it a fresh, closed client. */
    method Construct(port: string, baudrate: int) returns (h: RS485)
      requires Valid()
      modifies this`medias, (if port in medias then {medias[port].inst.line} else {})`isOpen,
        (if port in medias then {medias[port].inst.line} else {})`baudrate
      ensures Valid()
      ensures h.line.port == port && h.line.baudrate == baudrate && !h.line.isOpen
      ensures old(port in medias) ==> h == old(medias[port].inst) && medias == old(medias)
      ensures old(port !in medias) ==>
        && fresh(h) && fresh(h.line)
        && medias == old(medias)[port := Entry(h, 0)]
        && h.alienFrames == []
      ensures View(this, h) == ConstructStep(
        if old(port in medias) then old(View(this, medias[port].inst)) else Unregistered)
    {
      if port !in medias {
        var line := new SerialPort(port, baudrate);
        h := new RS485(line);
        medias := medias[port := Entry(h, 0)];
      } else {
        h := medias[port].inst;
        h.line.Reinit(baudrate);
      }
    }
  }

  /** An `RS485` object. `line` is the `SerialPort` part it inherits in the
      source (its client and the port name). */
  class RS485 {
    const line: SerialPort
    var alienFrames: seq<seq<byte>>

    constructor (line: SerialPort)
      ensures this.line == line && alienFrames == []
    {
      this.line := line;
      alienFrames := [];
    }

    /** `RS485.open`: on a filed port, count one more open and open the
        client only when the count has just become 1; on a port that is not
        filed, open the client. */
    method Open(reg: Registry)
      requires reg.Valid()
      modifies reg`medias, line`isOpen, line`openCalls
      ensures reg.Valid()
      ensures View(reg, this) == OpenStep(old(View(reg, this)))
      ensures reg.medias - {line.port} == old(reg.medias) - {line.port}
      ensures line.port in old(reg.medias) ==>
        line.port in reg.medias && reg.medias[line.port].inst == old(reg.medias[line.port].inst)
    {
      var p := line.port;
      if p in reg.medias {
        var e := reg.medias[p];
        reg.medias := reg.medias[p := e.(count := e.count + 1)];
        if e.count + 1 != 1 {
          return;
        }
      }
      line.Open();
    }

    /** `RS485.close`: on a filed port whose client is open, either drop
        the row and close the client (count at most 1) or count one open
        less and leave the client open; in every other case close the
        client. */
    method Close(reg: Registry)
      requires reg.Valid()
      modifies reg`medias, line`isOpen, line`closeCalls
      ensures reg.Valid()
      ensures View(reg, this) == CloseStep(old(View(reg, this)))
      ensures reg.medias - {line.port} == old(reg.medias) - {line.port}
      ensures line.port in reg.medias ==>
        line.port in old(reg.medias) && reg.medias[line.port].inst == old(reg.medias[line.port].inst)
    {
      var p := line.port;
      if p in reg.medias && line.isOpen {
        var e := reg.medias[p];
        if e.count <= 1 {
          reg.medias := reg.medias - {p};
        } else {
          reg.medias := reg.medias[p := e.(count := e.count - 1)];
          return;
        }
      }
      line.Close();
    }
  }

  /** What one handle sees of its port: whether the port is filed and with
      what count, whether the handle's client is open, and how often the
      handle has called its client's open and close. */
  datatype LineView = LineView(registered: bool, count: int, isOpen: bool, openCalls: nat, closeCalls: nat)

  const Unregistered := LineView(false, 0, false, 0, 0)

  ghost function View(reg: Registry, h: RS485): LineView
    reads reg, h.line
  {
    var p := h.line.port;
    LineView(p in reg.medias, if p in reg.medias then reg.medias[p].count else 0,
             h.line.isOpen, h.line.openCalls, h.line.closeCalls)
  }

  /** The effect of `RS485(port)` on the view of the handle it returns; `v`
      is the view of the filed object, if the port is filed. */
  function ConstructStep(v: LineView): LineView
  {
    if v.registered then v.(isOpen := false) else LineView(true, 0, false, 0, 0)
  }

  /** The effect of `open` on the view of the handle it is called on. */
  function OpenStep(v: LineView): LineView
  {
    if !v.registered then v.(isOpen := true, openCalls := v.openCalls + 1)
    else if v.count + 1 == 1 then v.(count := 1, isOpen := true, openCalls := v.openCalls + 1)
    else v.(count := v.count + 1)
  }

  /** The effect of `close` on the view of the handle it is called on. */
  function CloseStep(v: LineView): LineView
  {
    if v.registered && v.isOpen then
      if v.count <= 1 then LineView(false, 0, false, v.openCalls, v.closeCalls + 1)
      else v.(count := v.count - 1)
    else v.(isOpen := false, closeCalls := v.closeCalls + 1)
  }

  /** A call a program makes on a port: `RS485(port)`, `open` or `close`,
      each on the handle the latest `RS485(port)` returned. */
  datatype Op = NewHandle | OpenCall | CloseCall

  function Step(v: LineView, op: Op): LineView
  {
    match op
    case NewHandle => ConstructStep(v)
    case OpenCall => OpenStep(v)
    case CloseCall => CloseStep(v)
  }

  /** The view after the calls `ops`, in order. */
  function Run(v: LineView, ops: seq<Op>): LineView
    decreases |ops|
  {
    if ops == [] then v else Run(Step(v, ops[0]), ops[1..])
  }

  /** The view after `n` calls of `op`. */
  function Repeat(op: Op, v: LineView, n: nat): LineView
  {
    if n == 0 then v else Step(Repeat(op, v, n - 1), op)
  }

  /** N opens of a filed port add N to its count and open the client once
      at most: exactly when the count started at 0. */
  lemma {:induction false} OpensCountUp(v: LineView, n: nat)
    requires v.registered && v.count >= 0
    ensures var w := Repeat(OpenCall, v, n);
      && w.registered
      && w.count == v.count + n
      && w.openCalls == v.openCalls + (if v.count == 0 && n > 0 then 1 else 0)
      && w.closeCalls == v.closeCalls
      && w.isOpen == (v.isOpen || (v.count == 0 && n > 0))
  {
    if n > 0 {
      OpensCountUp(v, n - 1);
    }
  }

  /** While more than one open is outstanding, close only counts down: the
      port stays filed and its client open. */
  lemma {:induction false} ClosesCountDown(w: LineView, k: nat)
    requires w.registered && w.isOpen && k < w.count
    ensures Repeat(CloseCall, w, k) == w.(count := w.count - k)
  {
    if k > 0 {
      ClosesCountDown(w, k - 1);
    }
  }

  /** A line opened N times is closed by exactly the N-th close: the client
      is closed once and the row is dropped. */
  lemma OpensThenClosesBalance(v: LineView, n: nat)
    requires v.registered && v.count == 0 && n > 0
    ensures forall k :: 0 <= k < n ==>
      Repeat(CloseCall, Repeat(OpenCall, v, n), k) == v.(count := n - k, isOpen := true, openCalls := v.openCalls + 1)
    ensures Repeat(CloseCall, Repeat(OpenCall, v, n), n) == LineView(false, 0, false, v.openCalls + 1, v.closeCalls + 1)
  {
    OpensCountUp(v, n);
    var w := Repeat(OpenCall, v, n);
    forall k | 0 <= k < n
      ensures Repeat(CloseCall, w, k) == v.(count := n - k, isOpen := true, openCalls := v.openCalls + 1)
    {
      ClosesCountDown(w, k);
    }
    ClosesCountDown(w, n - 1);
  }

  /** Whatever calls a program makes, in whatever order and however many
      closes go unmatched, a count never becomes negative, and a port that is
      not filed has count 0. */
  lemma {:induction false} CountNeverNegative(v: LineView, ops: seq<Op>)
    requires v.count >= 0 && (!v.registered ==> v.count == 0)
    ensures Run(v, ops).count >= 0
    ensures !Run(v, ops).registered ==> Run(v, ops).count == 0
    decreases |ops|
  {
    if ops != [] {
      CountNeverNegative(Step(v, ops[0]), ops[1..]);
    }
  }

  /** `RS485(port)` on a port whose line is open gives the shared object a
      closed client; after that, an `open` counts up without opening, and no
      number of closes brings the count down, because `close` touches the
      table only while the client reports open. */
  lemma {:induction false} ReconstructStrandsCount(v: LineView, k: nat)
    requires v.registered && v.isOpen && v.count >= 1
    ensures var w := Repeat(CloseCall, OpenStep(ConstructStep(v)), k);
      && w.registered
      && w.count == v.count + 1
      && !w.isOpen
      && w.openCalls == v.openCalls
      && w.closeCalls == v.closeCalls + k
  {
    if k > 0 {
      ReconstructStrandsCount(v, k - 1);
    }
  }

  /** Two handles on one port, both created before either opens: closing
      the first leaves the line open with count 1; closing the second closes
      it. */
  lemma TwoHandlesShareOneLine()
    ensures var a := ConstructStep(Unregistered);
      var b := ConstructStep(a);
      var both := OpenStep(OpenStep(b));
      && CloseStep(both) == LineView(true, 1, true, 1, 0)
      && CloseStep(CloseStep(both)) == LineView(false, 0, false, 1, 1)
  {
  }
}

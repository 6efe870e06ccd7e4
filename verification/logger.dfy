/** The dispatch engine `QLoger` (qlog.go lines 61-163) as an immutable state
    and pure transitions. The background goroutine and its channels become
    explicit steps: a leveled call enqueues, `Dispatch` is one turn of the
    consumer loop, and `Close` is the loop taking the stop signal. */
module Logger {
  import opened Wrappers
  import opened Levels
  import opened Text
  import opened Registry
  import opened Envelopes

  /** A call the engine makes on a writer. */
  datatype Event = Init | Write(env: Envelope) | Flush | Destroy

  /** An active writer: the factory that built it and every call it has received. */
  datatype Writer = Writer(kind: Factory, trace: seq<Event>)

  /** The engine's state. `queue` is the content of the buffered channel,
      `capacity` its buffer length, `mask` the level mask, `annotate` the
      `enableFuncCall` flag and `closed` whether the loop has taken the stop
      signal. */
  datatype Logger = Logger(
    writers: map<string, Writer>,
    queue: seq<Envelope>,
    capacity: nat,
    mask: Mask,
    annotate: bool,
    closed: bool)

  /** The `[QLoger]` settings as read from the configuration file. `level` is
      the configured integer's 64-bit pattern. */
  datatype Config = Config(
    enableFuncCall: bool,
    funcCallDepth: int,
    level: Mask,
    bufferLen: int,
    factories: string)

  /** The defaults used for every key the configuration file does not set. */
  const DefaultConfig: Config := Config(true, 2, DefaultLevel, 16, "console")

  /** `make(chan, n)` panics for a negative buffer length. */
  datatype ConstructError = NegativeBufferLen(len: int)

  // ---------------------------------------------------------------------------
  // Writer traces
  // ---------------------------------------------------------------------------

  /** The envelopes a writer received, in the order it received them. */
  function Writes(t: seq<Event>): seq<Envelope>
    decreases |t|
  {
    if |t| == 0 then []
    else Writes(t[..|t| - 1]) + (if t[|t| - 1].Write? then [t[|t| - 1].env] else [])
  }

  /** One write call per envelope, in queue order. */
  function WriteEvents(q: seq<Envelope>): (t: seq<Event>)
    ensures |t| == |q|
  {
    seq(|q|, i requires 0 <= i < |q| => Write(q[i]))
  }

  lemma {:induction false} WritesAppend(t: seq<Event>, u: seq<Event>)
    ensures Writes(t + u) == Writes(t) + Writes(u)
    decreases |u|
  {
    if |u| > 0 {
      var u' := u[..|u| - 1];
      assert (t + u)[..|t + u| - 1] == t + u';
      WritesAppend(t, u');
    } else {
      assert t + u == t;
    }
  }

  /** The write calls made for a run of envelopes deliver exactly those envelopes. */
  lemma {:induction false} WritesOfWriteEvents(q: seq<Envelope>)
    ensures Writes(WriteEvents(q)) == q
    decreases |q|
  {
    if |q| > 0 {
      var q' := q[..|q| - 1];
      assert WriteEvents(q)[..|q| - 1] == WriteEvents(q');
      WritesOfWriteEvents(q');
    }
  }

  /** The lifecycle a writer's trace follows: `Init` first and never again,
      then writes and flushes, and once the logger is closed exactly one
      `Destroy` after every write, followed by nothing but flushes. */
  predicate Lifecycle(t: seq<Event>, closed: bool)
  {
    if !closed then Running(t)
    else exists d :: 0 < d < |t| && Running(t[..d]) && t[d] == Destroy && OnlyFlushes(t[d + 1..])
  }

  /** `Init` followed by writes and flushes only. */
  predicate Running(t: seq<Event>)
  {
    |t| >= 1 && t[0] == Init && forall i :: 1 <= i < |t| ==> t[i].Write? || t[i].Flush?
  }

  predicate OnlyFlushes(t: seq<Event>)
  {
    forall i :: 0 <= i < |t| ==> t[i].Flush?
  }

  /** The lifecycle spelled out: `Init` is the first call and is never repeated,
      a closed logger's writer has exactly one `Destroy` and an open one none,
      and no write comes after `Destroy`. */
  lemma LifecycleOrder(t: seq<Event>, closed: bool)
    requires Lifecycle(t, closed)
    ensures |t| >= 1 && t[0] == Init
    ensures forall i :: 0 < i < |t| ==> t[i] != Init
    ensures closed <==> Destroy in t
    ensures forall i, j :: 0 <= i < |t| && 0 <= j < |t| && t[i] == Destroy && t[j] == Destroy ==> i == j
    ensures forall i, j :: 0 <= i < |t| && 0 <= j < |t| && t[i] == Destroy && t[j].Write? ==> j < i
  {
    if closed {
      var d :| 0 < d < |t| && Running(t[..d]) && t[d] == Destroy && OnlyFlushes(t[d + 1..]);
      assert forall i :: 0 <= i < d ==> t[i] == t[..d][i];
      assert forall i :: d < i < |t| ==> t[i] == t[d + 1..][i - d - 1];
    }
  }

  /** What holds in every reachable state: the channel never holds more than its
      buffer length, and every writer's trace follows the lifecycle. */
  predicate Valid(s: Logger)
  {
    && |s.queue| <= s.capacity
    && forall n :: n in s.writers ==> Lifecycle(s.writers[n].trace, s.closed)
  }

  /** Nothing a transition may change: the writer set, each writer's kind, the
      buffer length, the level mask and the annotation flag. */
  predicate SameSetup(s: Logger, r: Logger)
  {
    && r.writers.Keys == s.writers.Keys
    && (forall n :: n in s.writers ==> r.writers[n].kind == s.writers[n].kind)
    && r.capacity == s.capacity
    && r.mask == s.mask
    && r.annotate == s.annotate
  }

  // ---------------------------------------------------------------------------
  // Construction
  // ---------------------------------------------------------------------------

  /** The writers `NewQLoger` builds, and the ones it builds and then loses. */
  datatype Activation = Activation(writers: map<string, Writer>, orphans: seq<Writer>)

  /** How many entries of the activation list name a registered writer. */
  function CountRegistered(reg: Registry, names: seq<string>): nat
    decreases |names|
  {
    if |names| == 0 then 0
    else CountRegistered(reg, names[..|names| - 1]) + (if names[|names| - 1] in reg then 1 else 0)
  }

  /** The activation loop of `NewQLoger`: for each listed name, in order, a
      registered name gets a fresh writer that is `Init`ed and stored under
      that name; an unknown name is skipped. A name listed twice builds and
      `Init`s a second writer that replaces the first; the first one, never to
      be destroyed, goes to `orphans`. */
  function Activate(reg: Registry, names: seq<string>): (a: Activation)
    ensures a.writers.Keys == set n | n in names && n in reg
    ensures forall n :: n in a.writers ==> a.writers[n] == Writer(reg[n], [Init])
    ensures forall i :: 0 <= i < |a.orphans| ==> a.orphans[i].trace == [Init]
    ensures |a.orphans| + |a.writers| == CountRegistered(reg, names)
    decreases |names|
  {
    if |names| == 0 then Activation(map[], [])
    else
      var init := names[..|names| - 1];
      var n := names[|names| - 1];
      var prev := Activate(reg, init);
      assert names == init + [n];
      if n !in reg then prev
      else
        var w := Writer(reg[n], [Init]);
        if n in prev.writers then Activation(prev.writers[n := w], prev.orphans + [prev.writers[n]])
        else Activation(prev.writers[n := w], prev.orphans)
  }

  predicate Distinct(names: seq<string>)
  {
    forall i, j :: 0 <= i < j < |names| ==> names[i] != names[j]
  }

  /** With no name listed twice, no writer is lost. */
  lemma {:induction false} ActivateDistinct(reg: Registry, names: seq<string>)
    requires Distinct(names)
    ensures Activate(reg, names).orphans == []
    ensures |Activate(reg, names).writers| == CountRegistered(reg, names)
    decreases |names|
  {
    if |names| > 0 {
      var init := names[..|names| - 1];
      var n := names[|names| - 1];
      ActivateDistinct(reg, init);
      assert forall i :: 0 <= i < |init| ==> init[i] == names[i];
    }
  }

  /** `NewQLoger`: build the writers listed in `factories`, start with an
      empty channel and a running loop. */
  function NewLogger(cfg: Config, reg: Registry): (r: Result<Logger, ConstructError>)
    ensures r.Failure? <==> cfg.bufferLen < 0
    ensures r.Success? ==>
      && r.value.writers.Keys == (set n | n in Split(cfg.factories) && n in reg)
      && (forall n :: n in r.value.writers ==> r.value.writers[n] == Writer(reg[n], [Init]))
      && r.value.queue == []
      && !r.value.closed
      && r.value.capacity == cfg.bufferLen
      && r.value.mask == cfg.level
      && r.value.annotate == cfg.enableFuncCall
      && Valid(r.value)
  {
    if cfg.bufferLen < 0 then Failure(NegativeBufferLen(cfg.bufferLen))
    else
      var a := Activate(reg, Split(cfg.factories));
      Success(Logger(a.writers, [], cfg.bufferLen, cfg.level, cfg.enableFuncCall, false))
  }

  // ---------------------------------------------------------------------------
  // Transitions
  // ---------------------------------------------------------------------------

  /** The same calls made on every writer, each writer's trace extended by them. */
  function AppendAll(ws: map<string, Writer>, events: seq<Event>): (r: map<string, Writer>)
    ensures r.Keys == ws.Keys
    ensures forall n :: n in r ==> r[n].kind == ws[n].kind && r[n].trace == ws[n].trace + events
  {
    map n | n in ws :: Writer(ws[n].kind, ws[n].trace + events)
  }

  /** Whether a send on the channel completes now. A buffered channel accepts
      exactly while it has a free slot, whether or not the loop still runs; an
      unbuffered one holds nothing and hands the envelope to the loop, so it
      needs the loop to be running. A send that cannot complete now is not a
      step: while the loop runs it completes after a later `Dispatch` frees a
      slot (`BufferedSendWaits`); after `Close` it never completes. */
  predicate SendCompletes(s: Logger)
    ensures SendCompletes(s) <==> |s.queue| < s.capacity || (!s.closed && s.queue == [])
  {
    if s.capacity == 0 then !s.closed && |s.queue| == 0 else |s.queue| < s.capacity
  }

  /** A producer that finds the buffer full while the loop runs is not stuck:
      one turn of the loop frees a slot and its send then completes. */
  lemma BufferedSendWaits(s: Logger)
    requires s.capacity > 0 && !s.closed && |s.queue| == s.capacity
    ensures !SendCompletes(s)
    ensures SendCompletes(Dispatch(s))
  {
  }

  /** One turn of the consumer loop: take the oldest envelope and write it to
      every writer once. */
  function Dispatch(s: Logger): (r: Logger)
    requires !s.closed && |s.queue| > 0
    ensures SameSetup(s, r) && !r.closed
    ensures r.queue == s.queue[1..]
    ensures forall n :: n in r.writers ==> r.writers[n].trace == s.writers[n].trace + [Write(s.queue[0])]
  {
    s.(writers := AppendAll(s.writers, [Write(s.queue[0])]), queue := s.queue[1..])
  }

  /** A leveled call (`Trace`, `Debug`, `Info`, `Error`, `Warn`, `Critical`)
      with its formatted text and the caller frame resolved at the configured
      depth. A disabled level does nothing. An enabled one sends one envelope:
      into the buffer, or, on an unbuffered channel, straight to the loop.
      The model takes that hand-over and the loop's writes to every writer as
      one step; in the source the writes may still be running when the call
      returns. */
  function Emit(s: Logger, l: Level, text: string, frame: Option<Frame>): (r: Logger)
    requires Enabled(s.mask, l) ==> SendCompletes(s)
    ensures SameSetup(s, r) && r.closed == s.closed
    ensures !Enabled(s.mask, l) ==> r == s
    ensures Enabled(s.mask, l) && s.capacity > 0 ==>
      r.queue == s.queue + [Compose(l, text, s.annotate, frame)] && r.writers == s.writers
    ensures Enabled(s.mask, l) && s.capacity == 0 ==>
      r.queue == s.queue
      && forall n :: n in r.writers ==>
           r.writers[n].trace == s.writers[n].trace + [Write(Compose(l, text, s.annotate, frame))]
  {
    if !Enabled(s.mask, l) then s
    else
      var sent := s.(queue := s.queue + [Compose(l, text, s.annotate, frame)]);
      if s.capacity == 0 then Dispatch(sent) else sent
  }

  /** `Flush`: one flush call on every writer; the channel is left alone. */
  function FlushAll(s: Logger): (r: Logger)
    ensures SameSetup(s, r) && r.closed == s.closed && r.queue == s.queue
    ensures forall n :: n in r.writers ==> r.writers[n].trace == s.writers[n].trace + [Flush]
  {
    s.(writers := AppendAll(s.writers, [Flush]))
  }

  /** `k` turns of the consumer loop. */
  function DeliverPending(s: Logger, k: nat): (r: Logger)
    requires !s.closed && k <= |s.queue|
    ensures SameSetup(s, r) && !r.closed
    ensures r.queue == s.queue[k..]
    ensures forall n :: n in r.writers ==> r.writers[n].trace == s.writers[n].trace + WriteEvents(s.queue[..k])
    decreases k
  {
    if k == 0 then s
    else
      var d := Dispatch(s);
      var r := DeliverPending(d, k - 1);
      assert d.queue[k - 1..] == s.queue[k..];
      assert [Write(s.queue[0])] + WriteEvents(d.queue[..k - 1]) == WriteEvents(s.queue[..k]);
      r
  }

  /** `Close`. The loop's `select` picks at random among ready cases, so it may
      deliver any number `delivered` of the pending envelopes before it takes
      the stop signal; the rest stay in the channel, never to be read. Then
      every writer is destroyed once. */
  function Close(s: Logger, delivered: nat): (r: Logger)
    requires !s.closed && delivered <= |s.queue|
    ensures SameSetup(s, r) && r.closed
    ensures r.queue == s.queue[delivered..]
    ensures forall n :: n in r.writers ==>
      r.writers[n].trace == s.writers[n].trace + WriteEvents(s.queue[..delivered]) + [Destroy]
  {
    var d := DeliverPending(s, delivered);
    d.(writers := AppendAll(d.writers, [Destroy]), closed := true)
  }
}

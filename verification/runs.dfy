/** Sequences of engine steps: what holds of every run that starts from a
    freshly built logger. */
module Runs {
  import opened Wrappers
  import opened Levels
  import opened Registry
  import opened Envelopes
  import opened Logger

  /** One observable step: a leveled call, a turn of the consumer loop, a
      `Flush`, or a `Close` whose loop delivered `delivered` pending envelopes
      before stopping. */
  datatype Step =
    | Log(level: Level, text: string, frame: Option<Frame>)
    | Deliver
    | FlushStep
    | CloseStep(delivered: nat)

  /** Whether a step can happen without hanging: the send completes, the loop
      has something to take, the loop is still there to be stopped. */
  predicate Allowed(s: Logger, st: Step)
  {
    match st
    case Log(l, _, _) => Enabled(s.mask, l) ==> SendCompletes(s)
    case Deliver => !s.closed && |s.queue| > 0
    case FlushStep => true
    case CloseStep(k) => !s.closed && k <= |s.queue|
  }

  function Apply(s: Logger, st: Step): Logger
    requires Allowed(s, st)
  {
    match st
    case Log(l, text, frame) => Emit(s, l, text, frame)
    case Deliver => Dispatch(s)
    case FlushStep => FlushAll(s)
    case CloseStep(k) => Close(s, k)
  }

  /** The envelope a step hands to the channel, if any. */
  function Enqueued(s: Logger, st: Step): seq<Envelope>
  {
    if st.Log? && Enabled(s.mask, st.level) then [Compose(st.level, st.text, s.annotate, st.frame)] else []
  }

  predicate ValidRun(s: Logger, steps: seq<Step>)
    decreases |steps|
  {
    |steps| == 0 || (Allowed(s, steps[0]) && ValidRun(Apply(s, steps[0]), steps[1..]))
  }

  function Run(s: Logger, steps: seq<Step>): Logger
    requires ValidRun(s, steps)
    decreases |steps|
  {
    if |steps| == 0 then s else Run(Apply(s, steps[0]), steps[1..])
  }

  /** Every envelope sent during a run, in the order the sends completed. */
  function Accepted(s: Logger, steps: seq<Step>): seq<Envelope>
    requires ValidRun(s, steps)
    decreases |steps|
  {
    if |steps| == 0 then [] else Enqueued(s, steps[0]) + Accepted(Apply(s, steps[0]), steps[1..])
  }

  // ---------------------------------------------------------------------------
  // Lifecycle and capacity
  // ---------------------------------------------------------------------------

  lemma RunningExtend(t: seq<Event>, e: Event)
    requires Running(t) && (e.Write? || e.Flush?)
    ensures Running(t + [e])
  {
  }

  lemma RunningExtendWrites(t: seq<Event>, q: seq<Envelope>)
    requires Running(t)
    ensures Running(t + WriteEvents(q))
  {
    var u := t + WriteEvents(q);
    assert forall i :: |t| <= i < |u| ==> u[i] == Write(q[i - |t|]);
  }

  /** A flush after the loop has stopped keeps the closed lifecycle. */
  lemma ClosedFlush(t: seq<Event>)
    requires Lifecycle(t, true)
    ensures Lifecycle(t + [Flush], true)
  {
    var d :| 0 < d < |t| && Running(t[..d]) && t[d] == Destroy && OnlyFlushes(t[d + 1..]);
    var u := t + [Flush];
    assert u[..d] == t[..d];
    assert u[d + 1..] == t[d + 1..] + [Flush];
  }

  /** Closing ends a running trace with exactly one `Destroy`. */
  lemma CloseTrace(t: seq<Event>, q: seq<Envelope>)
    requires Running(t)
    ensures Lifecycle(t + WriteEvents(q) + [Destroy], true)
  {
    var w := t + WriteEvents(q);
    RunningExtendWrites(t, q);
    var u := w + [Destroy];
    var d := |w|;
    assert u[..d] == w;
    assert u[d + 1..] == [];
  }

  /** Every allowed step keeps the channel within its buffer and every writer
      within its lifecycle. */
  lemma StepKeepsValid(s: Logger, st: Step)
    requires Valid(s) && Allowed(s, st)
    ensures Valid(Apply(s, st))
  {
    var r := Apply(s, st);
    match st {
      case Log(l, text, frame) =>
        if Enabled(s.mask, l) && s.capacity == 0 {
          forall n | n in r.writers
            ensures Lifecycle(r.writers[n].trace, r.closed)
          {
            RunningExtend(s.writers[n].trace, Write(Compose(l, text, s.annotate, frame)));
          }
        }
      case Deliver =>
        forall n | n in r.writers
          ensures Lifecycle(r.writers[n].trace, r.closed)
        {
          RunningExtend(s.writers[n].trace, Write(s.queue[0]));
        }
      case FlushStep =>
        forall n | n in r.writers
          ensures Lifecycle(r.writers[n].trace, r.closed)
        {
          if s.closed {
            ClosedFlush(s.writers[n].trace);
          } else {
            RunningExtend(s.writers[n].trace, Flush);
          }
        }
      case CloseStep(k) =>
        forall n | n in r.writers
          ensures Lifecycle(r.writers[n].trace, r.closed)
        {
          CloseTrace(s.writers[n].trace, s.queue[..k]);
        }
    }
  }

  lemma {:induction false} RunKeepsValid(s: Logger, steps: seq<Step>)
    requires Valid(s) && ValidRun(s, steps)
    ensures Valid(Run(s, steps))
    decreases |steps|
  {
    if |steps| > 0 {
      StepKeepsValid(s, steps[0]);
      RunKeepsValid(Apply(s, steps[0]), steps[1..]);
    }
  }

  /** No step changes the writer set, a writer's kind, the buffer length, the
      level mask or the annotation flag. */
  lemma {:induction false} RunKeepsSetup(s: Logger, steps: seq<Step>)
    requires ValidRun(s, steps)
    ensures SameSetup(s, Run(s, steps))
    decreases |steps|
  {
    if |steps| > 0 {
      RunKeepsSetup(Apply(s, steps[0]), steps[1..]);
    }
  }

  // ---------------------------------------------------------------------------
  // Delivery: FIFO, no loss, no duplication
  // ---------------------------------------------------------------------------

  lemma WriteOne(t: seq<Event>, e: Envelope)
    ensures Writes(t + [Write(e)]) == Writes(t) + [e]
  {
    WritesAppend(t, [Write(e)]);
    assert Writes([Write(e)]) == [e];
  }

  lemma FlushWritesNothing(t: seq<Event>)
    ensures Writes(t + [Flush]) == Writes(t)
  {
    WritesAppend(t, [Flush]);
    assert Writes([Flush]) == [];
  }

  lemma DeliverHead(t: seq<Event>, q: seq<Envelope>)
    requires |q| > 0
    ensures Writes(t + [Write(q[0])]) + q[1..] == Writes(t) + q
  {
    WriteOne(t, q[0]);
    assert q == [q[0]] + q[1..];
  }

  lemma DeliverPrefixThenDestroy(t: seq<Event>, q: seq<Envelope>, k: nat)
    requires k <= |q|
    ensures Writes(t + WriteEvents(q[..k]) + [Destroy]) + q[k..] == Writes(t) + q
  {
    var w := t + WriteEvents(q[..k]);
    WritesAppend(w, [Destroy]);
    assert Writes([Destroy]) == [];
    WritesAppend(t, WriteEvents(q[..k]));
    WritesOfWriteEvents(q[..k]);
    assert q == q[..k] + q[k..];
  }

  lemma EmitDelivery(s: Logger, l: Level, text: string, frame: Option<Frame>, n: string)
    requires Enabled(s.mask, l) ==> SendCompletes(s)
    requires n in s.writers
    ensures n in Emit(s, l, text, frame).writers
    ensures Writes(Emit(s, l, text, frame).writers[n].trace) + Emit(s, l, text, frame).queue
         == Writes(s.writers[n].trace) + s.queue + Enqueued(s, Log(l, text, frame))
  {
    var r := Emit(s, l, text, frame);
    var t := s.writers[n].trace;
    if !Enabled(s.mask, l) {
      assert Enqueued(s, Log(l, text, frame)) == [];
    } else {
      var e := Compose(l, text, s.annotate, frame);
      assert Enqueued(s, Log(l, text, frame)) == [e];
      if s.capacity == 0 {
        WriteOne(t, e);
        assert r.writers[n].trace == t + [Write(e)];
        assert r.queue == s.queue == [];
      } else {
        assert r.writers[n].trace == t;
        assert r.queue == s.queue + [e];
      }
    }
  }

  lemma DispatchDelivery(s: Logger, n: string)
    requires !s.closed && |s.queue| > 0 && n in s.writers
    ensures n in Dispatch(s).writers
    ensures Writes(Dispatch(s).writers[n].trace) + Dispatch(s).queue == Writes(s.writers[n].trace) + s.queue
  {
    DeliverHead(s.writers[n].trace, s.queue);
  }

  lemma FlushDelivery(s: Logger, n: string)
    requires n in s.writers
    ensures n in FlushAll(s).writers
    ensures Writes(FlushAll(s).writers[n].trace) + FlushAll(s).queue == Writes(s.writers[n].trace) + s.queue
  {
    FlushWritesNothing(s.writers[n].trace);
  }

  lemma CloseDelivery(s: Logger, k: nat, n: string)
    requires !s.closed && k <= |s.queue| && n in s.writers
    ensures n in Close(s, k).writers
    ensures Writes(Close(s, k).writers[n].trace) + Close(s, k).queue == Writes(s.writers[n].trace) + s.queue
  {
    DeliverPrefixThenDestroy(s.writers[n].trace, s.queue, k);
  }

  /** For each writer, what it has received followed by what is still in the
      channel grows by exactly the envelope the step sent. */
  lemma StepDelivery(s: Logger, st: Step, n: string)
    requires Allowed(s, st) && n in s.writers
    ensures n in Apply(s, st).writers
    ensures Writes(Apply(s, st).writers[n].trace) + Apply(s, st).queue
         == Writes(s.writers[n].trace) + s.queue + Enqueued(s, st)
  {
    match st {
      case Log(l, text, frame) => EmitDelivery(s, l, text, frame, n);
      case Deliver => DispatchDelivery(s, n);
      case FlushStep => FlushDelivery(s, n);
      case CloseStep(k) => CloseDelivery(s, k, n);
    }
  }

  lemma Concat<T>(a: seq<T>, b: seq<T>, c: seq<T>, e: seq<T>, rest: seq<T>)
    requires a == b + rest && b == c + e
    ensures a == c + (e + rest)
  {
  }

  /** Over a whole run: what each writer received followed by what is still
      pending is what it had before, the pending envelopes, and every envelope
      sent during the run, in send order. */
  lemma {:induction false} RunDelivery(s: Logger, steps: seq<Step>, n: string)
    requires ValidRun(s, steps) && n in s.writers
    ensures n in Run(s, steps).writers
    ensures Writes(Run(s, steps).writers[n].trace) + Run(s, steps).queue
         == Writes(s.writers[n].trace) + s.queue + Accepted(s, steps)
    decreases |steps|
  {
    if |steps| > 0 {
      var r := Apply(s, steps[0]);
      var last := Run(r, steps[1..]);
      assert Run(s, steps) == last;
      StepDelivery(s, steps[0], n);
      RunDelivery(r, steps[1..], n);
      var e, rest := Enqueued(s, steps[0]), Accepted(r, steps[1..]);
      assert Accepted(s, steps) == e + rest;
      Concat(Writes(last.writers[n].trace) + last.queue, Writes(r.writers[n].trace) + r.queue,
             Writes(s.writers[n].trace) + s.queue, e, rest);
    }
  }

  /** From a freshly built logger, every writer's received envelopes are a
      prefix of the sent envelopes in send order, and the channel holds exactly
      the rest: nothing lost, nothing duplicated, nothing reordered. */
  lemma FreshDelivery(cfg: Config, reg: Registry, steps: seq<Step>, n: string)
    requires NewLogger(cfg, reg).Success?
    requires ValidRun(NewLogger(cfg, reg).value, steps)
    requires n in NewLogger(cfg, reg).value.writers
    ensures n in Run(NewLogger(cfg, reg).value, steps).writers
    ensures Writes(Run(NewLogger(cfg, reg).value, steps).writers[n].trace) + Run(NewLogger(cfg, reg).value, steps).queue
         == Accepted(NewLogger(cfg, reg).value, steps)
  {
    var s := NewLogger(cfg, reg).value;
    assert Writes([Init]) == [];
    RunDelivery(s, steps, n);
  }

  /** All writers of one logger have received the same envelopes in the same
      order; only the order of writers for one envelope is left open. */
  lemma SameDeliveryEverywhere(cfg: Config, reg: Registry, steps: seq<Step>, n: string, m: string)
    requires NewLogger(cfg, reg).Success?
    requires ValidRun(NewLogger(cfg, reg).value, steps)
    requires n in NewLogger(cfg, reg).value.writers && m in NewLogger(cfg, reg).value.writers
    ensures n in Run(NewLogger(cfg, reg).value, steps).writers && m in Run(NewLogger(cfg, reg).value, steps).writers
    ensures Writes(Run(NewLogger(cfg, reg).value, steps).writers[n].trace)
         == Writes(Run(NewLogger(cfg, reg).value, steps).writers[m].trace)
  {
    var r := Run(NewLogger(cfg, reg).value, steps);
    FreshDelivery(cfg, reg, steps, n);
    FreshDelivery(cfg, reg, steps, m);
    var wn := Writes(r.writers[n].trace);
    var wm := Writes(r.writers[m].trace);
    assert wn + r.queue == wm + r.queue;
    assert |wn| == |wm|;
    assert wn == (wn + r.queue)[..|wn|];
  }

  /** After `Close` nothing ever frees a slot, so a send that cannot complete
      then never completes: the producer blocks forever. */
  lemma {:induction false} ClosedSendNeverCompletes(s: Logger, steps: seq<Step>)
    requires s.closed && !SendCompletes(s) && ValidRun(s, steps)
    ensures Run(s, steps).closed && !SendCompletes(Run(s, steps))
    ensures Run(s, steps).queue == s.queue
    decreases |steps|
  {
    if |steps| > 0 {
      var r := Apply(s, steps[0]);
      assert r.closed && r.queue == s.queue && r.capacity == s.capacity;
      ClosedSendNeverCompletes(r, steps[1..]);
    }
  }

  /** Once the loop has stopped, no writer receives another envelope, whatever
      is logged, flushed or enqueued afterwards. */
  lemma {:induction false} ClosedRunWritesNothing(s: Logger, steps: seq<Step>, n: string)
    requires s.closed && ValidRun(s, steps) && n in s.writers
    ensures n in Run(s, steps).writers && Run(s, steps).closed
    ensures Writes(Run(s, steps).writers[n].trace) == Writes(s.writers[n].trace)
    decreases |steps|
  {
    if |steps| > 0 {
      var r := Apply(s, steps[0]);
      assert steps[0].Log? || steps[0].FlushStep?;
      if steps[0].FlushStep? {
        FlushWritesNothing(s.writers[n].trace);
      }
      ClosedRunWritesNothing(r, steps[1..], n);
    }
  }

  // ---------------------------------------------------------------------------
  // Whole runs from construction
  // ---------------------------------------------------------------------------

  /** From a freshly built logger, every writer in every reachable state has
      seen `Init` first and once, is destroyed exactly when the logger is
      closed, and receives no write after `Destroy`; the channel never holds
      more than its buffer length. */
  lemma FreshLifecycle(cfg: Config, reg: Registry, steps: seq<Step>, n: string)
    requires NewLogger(cfg, reg).Success?
    requires ValidRun(NewLogger(cfg, reg).value, steps)
    requires n in NewLogger(cfg, reg).value.writers
    ensures |Run(NewLogger(cfg, reg).value, steps).queue| <= cfg.bufferLen
    ensures n in Run(NewLogger(cfg, reg).value, steps).writers
    ensures var r := Run(NewLogger(cfg, reg).value, steps); var t := r.writers[n].trace;
      && |t| >= 1 && t[0] == Init
      && (forall i :: 0 < i < |t| ==> t[i] != Init)
      && (r.closed <==> Destroy in t)
      && (forall i, j :: 0 <= i < |t| && 0 <= j < |t| && t[i] == Destroy && t[j] == Destroy ==> i == j)
      && (forall i, j :: 0 <= i < |t| && 0 <= j < |t| && t[i] == Destroy && t[j].Write? ==> j < i)
  {
    var s := NewLogger(cfg, reg).value;
    RunKeepsValid(s, steps);
    RunKeepsSetup(s, steps);
    var r := Run(s, steps);
    LifecycleOrder(r.writers[n].trace, r.closed);
  }

  /** With every key left at its default and a "console" writer registered,
      the logger has exactly the console writer, buffers 16 envelopes,
      annotates callers and enables every level. */
  lemma DefaultLogger(reg: Registry, l: Level)
    requires "console" in reg
    ensures NewLogger(DefaultConfig, reg).Success?
    ensures NewLogger(DefaultConfig, reg).value.writers.Keys == {"console"}
    ensures NewLogger(DefaultConfig, reg).value.capacity == 16
    ensures NewLogger(DefaultConfig, reg).value.annotate
    ensures Enabled(NewLogger(DefaultConfig, reg).value.mask, l)
  {
    Text.SplitNoComma("console");
    DefaultEnablesAll(l);
  }

  /** Running one step and then the rest is running both. */
  lemma RunCons(s: Logger, st: Step, rest: seq<Step>)
    requires Allowed(s, st) && ValidRun(Apply(s, st), rest)
    ensures ValidRun(s, [st] + rest)
    ensures Run(s, [st] + rest) == Run(Apply(s, st), rest)
  {
    assert ([st] + rest)[1..] == rest;
  }

  /** A leveled call without caller annotation sends the tag followed by the text. */
  lemma PlainEnvelope(l: Level, text: string)
    ensures Compose(l, text, false, None) == Envelope(Tag(l) + text, l)
  {
  }

  /** A freshly built logger with only a "capture" writer, registered under
      factory 0, and no caller annotation. */
  function CaptureLogger(mask: Mask): Logger
  {
    Logger(map["capture" := Writer(Factory(0), [Init])], [], 4, mask, false, false)
  }

  lemma BuildCaptureLogger(mask: Mask)
    ensures NewLogger(Config(false, 2, mask, 4, "capture"), map["capture" := Factory(0)])
         == Success(CaptureLogger(mask))
  {
    Text.SplitNoComma("capture");
    var w := NewLogger(Config(false, 2, mask, 4, "capture"), map["capture" := Factory(0)]).value.writers;
    assert w.Keys == {"capture"};
  }

  /** A logger with a four-slot buffer, no caller annotation and a "capture"
      writer: after `Info("x=%d", 1)`, `Info("x=%d", 2)`, two turns of the loop
      and `Flush`, the writer has received exactly "[I] x=1" then "[I] x=2". */
  lemma CaptureScenario()
    ensures var s0 := NewLogger(Config(false, 2, DefaultLevel, 4, "capture"), map["capture" := Factory(0)]);
      var steps := [Log(Info, "x=1", None), Log(Info, "x=2", None), Deliver, Deliver, FlushStep];
      && s0.Success?
      && ValidRun(s0.value, steps)
      && "capture" in Run(s0.value, steps).writers
      && Run(s0.value, steps).writers["capture"].trace
         == [Init, Write(Envelope("[I] x=1", Info)), Write(Envelope("[I] x=2", Info)), Flush]
  {
    BuildCaptureLogger(DefaultLevel);
    CaptureRun();
  }

  lemma CaptureRun()
    ensures var steps := [Log(Info, "x=1", None), Log(Info, "x=2", None), Deliver, Deliver, FlushStep];
      && ValidRun(CaptureLogger(DefaultLevel), steps)
      && "capture" in Run(CaptureLogger(DefaultLevel), steps).writers
      && Run(CaptureLogger(DefaultLevel), steps).writers["capture"].trace
         == [Init, Write(Envelope("[I] x=1", Info)), Write(Envelope("[I] x=2", Info)), Flush]
  {
    var s0 := CaptureLogger(DefaultLevel);
    var e1 := Envelope("[I] x=1", Info);
    var e2 := Envelope("[I] x=2", Info);
    var s1 := Apply(s0, Log(Info, "x=1", None));
    CaptureSends(e1, e2);
    CaptureDrain(e1, e2);
    RunCons(s1, Log(Info, "x=2", None), [Deliver, Deliver, FlushStep]);
    RunCons(s0, Log(Info, "x=1", None), [Log(Info, "x=2", None), Deliver, Deliver, FlushStep]);
  }

  /** Two loop turns and a flush on the capture logger holding two envelopes. */
  lemma CaptureDrain(e1: Envelope, e2: Envelope)
    ensures var s2 := CaptureLogger(DefaultLevel).(queue := [e1, e2]);
      && ValidRun(s2, [Deliver, Deliver, FlushStep])
      && "capture" in Run(s2, [Deliver, Deliver, FlushStep]).writers
      && Run(s2, [Deliver, Deliver, FlushStep]).writers["capture"].trace == [Init, Write(e1), Write(e2), Flush]
  {
    var s2 := CaptureLogger(DefaultLevel).(queue := [e1, e2]);
    var s3 := Apply(s2, Deliver);
    assert s3.writers["capture"].trace == [Init, Write(e1)];
    var s4 := Apply(s3, Deliver);
    assert s4.writers["capture"].trace == [Init, Write(e1), Write(e2)];
    RunCons(s4, FlushStep, []);
    RunCons(s3, Deliver, [FlushStep]);
    RunCons(s2, Deliver, [Deliver, FlushStep]);
  }

  lemma CaptureSends(e1: Envelope, e2: Envelope)
    requires e1 == Envelope("[I] x=1", Info) && e2 == Envelope("[I] x=2", Info)
    ensures Allowed(CaptureLogger(DefaultLevel), Log(Info, "x=1", None))
    ensures Apply(CaptureLogger(DefaultLevel), Log(Info, "x=1", None)) == CaptureLogger(DefaultLevel).(queue := [e1])
    ensures Allowed(CaptureLogger(DefaultLevel).(queue := [e1]), Log(Info, "x=2", None))
    ensures Apply(CaptureLogger(DefaultLevel).(queue := [e1]), Log(Info, "x=2", None))
         == CaptureLogger(DefaultLevel).(queue := [e1, e2])
  {
    DefaultEnablesAll(Info);
    PlainEnvelope(Info, "x=1");
    PlainEnvelope(Info, "x=2");
    assert Tag(Info) + "x=1" == "[I] x=1";
    assert Tag(Info) + "x=2" == "[I] x=2";
  }

  /** With the mask set to ERROR|CRITICAL, `Debug("ignored")` reaches nobody and
      `Error("seen")` reaches the writer as "[E] seen". */
  lemma MaskScenario()
    ensures var s0 := NewLogger(Config(false, 2, Bit(Error) | Bit(Critical), 4, "capture"), map["capture" := Factory(0)]);
      var steps := [Log(Debug, "ignored", None), Log(Error, "seen", None), Deliver];
      && s0.Success?
      && ValidRun(s0.value, steps)
      && "capture" in Run(s0.value, steps).writers
      && Run(s0.value, steps).writers["capture"].trace == [Init, Write(Envelope("[E] seen", Error))]
  {
    BuildCaptureLogger(Bit(Error) | Bit(Critical));
    MaskRun();
  }

  lemma MaskRun()
    ensures var steps := [Log(Debug, "ignored", None), Log(Error, "seen", None), Deliver];
      && ValidRun(CaptureLogger(Bit(Error) | Bit(Critical)), steps)
      && "capture" in Run(CaptureLogger(Bit(Error) | Bit(Critical)), steps).writers
      && Run(CaptureLogger(Bit(Error) | Bit(Critical)), steps).writers["capture"].trace
         == [Init, Write(Envelope("[E] seen", Error))]
  {
    var s0 := CaptureLogger(Bit(Error) | Bit(Critical));
    var e := Envelope("[E] seen", Error);
    PlainEnvelope(Error, "seen");
    assert Tag(Error) + "seen" == "[E] seen";
    assert Enabled(s0.mask, Error) && !Enabled(s0.mask, Debug);
    var s1 := Apply(s0, Log(Debug, "ignored", None));
    assert s1 == s0;
    var s2 := Apply(s1, Log(Error, "seen", None));
    assert s2.queue == [e];
    var s3 := Apply(s2, Deliver);
    assert s3.writers["capture"].trace == [Init, Write(e)];
    RunCons(s2, Deliver, []);
    RunCons(s1, Log(Error, "seen", None), [Deliver]);
    RunCons(s0, Log(Debug, "ignored", None), [Log(Error, "seen", None), Deliver]);
  }
}

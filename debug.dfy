/**
 * The debug port of src/debug.js: a logging gateway that accepts log calls
 * before its output channel exists, defers them behind a 'ready' signal,
 * and prints received envelopes through a lazily acquired logging provider,
 * deferring prints behind a 'logger' signal until that provider is ready.
 *
 * What the port does to the outside world is kept in append-only logs, one
 * per kind of effect: envelopes emitted on the bus, requests for the
 * provider, provider invocations and direct `console.error` calls.
 */
module DebugPort {
  import opened Wrappers
  import opened Json
  import opened Messages

  /** `this.logger`: null, the pending acquisition promise, or the provider. */
  datatype LoggerState = NotRequested | Pending | Ready

  /** `message.config.global` of a control message; None where it is absent. */
  datatype GlobalConfig = GlobalConfig(console: Option<Console>)

  datatype ControlMessage = ControlMessage(channel: Option<string>, config: Option<GlobalConfig>)

  /** `this.emit(channel, envelope)` onto the bus. */
  datatype Emission = Emission(channel: string, envelope: Envelope)

  /** `logger[severity](source, arr, cb)` on the provider. */
  datatype Invocation = Invocation(severity: Severity, source: Option<string>, args: seq<JsonValue>)

  /** `console.error(...args)` on a console target. */
  datatype DirectCall = DirectCall(target: Console, args: seq<JsonValue>)

  /** The envelopes that the given format calls produce on channel `ch`, in order. */
  function EmitAll(ch: string, c: Codec, calls: seq<FormatCall>): seq<Emission>
  {
    if calls == [] then []
    else EmitAll(ch, c, calls[..|calls| - 1]) + [Emission(ch, EnvelopeOf(c, calls[|calls| - 1]))]
  }

  lemma EmitAllSnoc(ch: string, c: Codec, calls: seq<FormatCall>, call: FormatCall)
    ensures EmitAll(ch, c, calls + [call]) == EmitAll(ch, c, calls) + [Emission(ch, EnvelopeOf(c, call))]
  {
    assert (calls + [call])[..|calls|] == calls;
  }

  /** Every emission of EmitAll is on channel `ch`, well-formed, and carries
      the matching call's severity, source and encoded list. */
  lemma {:induction false} EmitAllAt(ch: string, c: Codec, calls: seq<FormatCall>, k: nat)
    requires k < |calls|
    ensures |EmitAll(ch, c, calls)| == |calls|
    ensures EmitAll(ch, c, calls)[k].channel == ch
    ensures EmitAll(ch, c, calls)[k].envelope.quiet && EmitAll(ch, c, calls)[k].envelope.request == "debug"
    ensures EmitAll(ch, c, calls)[k].envelope.severity == calls[k].severity
    ensures EmitAll(ch, c, calls)[k].envelope.source == calls[k].source
    ensures EmitAll(ch, c, calls)[k].envelope.msg == c.stringify(Arr(calls[k].alist))
    decreases |calls|
  {
    var front := calls[..|calls| - 1];
    if k < |front| {
      EmitAllAt(ch, c, front, k);
    } else if front != [] {
      EmitAllAt(ch, c, front, 0);
    }
  }

  /** The provider invocation a print outcome stands for, if any. */
  function Delivery(o: PrintOutcome): seq<Invocation>
  {
    if o.Delivered? then [Invocation(o.severity, o.source, o.args)] else []
  }

  /** The provider invocations of a series of print outcomes, in order. */
  function Deliveries(os: seq<PrintOutcome>): seq<Invocation>
  {
    if os == [] then [] else Deliveries(os[..|os| - 1]) + Delivery(os[|os| - 1])
  }

  /** The bind condition of `onMessage`. */
  predicate Binds(source: string, message: ControlMessage, bound: Option<string>)
  {
    source == "control" && Truthy(message.channel) && !Truthy(bound)
  }

  /** Whether `error` also calls the console target directly. */
  predicate DirectError(console: Option<Console>)
  {
    console.Some? && !console.value.freedom
  }

  lemma OutcomesSnoc(c: Codec, console: Option<Console>, ms: seq<Envelope>, os: seq<PrintOutcome>, o: PrintOutcome)
    requires |os| < |ms| && o == PrintStep(c, console, ms[|os|])
    requires forall k :: 0 <= k < |os| ==> os[k] == PrintStep(c, console, ms[k])
    ensures forall k :: 0 <= k < |os| + 1 ==> (os + [o])[k] == PrintStep(c, console, ms[k])
  {
  }

  /** The 'ready' replay: each registered continuation re-runs format on a
      bound channel, in registration order, and emits one envelope. */
  method ReplayReady(ch: string, c: Codec, calls: seq<FormatCall>) returns (emitted: seq<Emission>)
    ensures emitted == EmitAll(ch, c, calls)
  {
    emitted := [];
    var i := 0;
    while i < |calls|
      invariant 0 <= i <= |calls|
      invariant emitted == EmitAll(ch, c, calls[..i])
    {
      var call := calls[i];
      var alist := Normalise(c, call.source, Args(call.alist));
      emitted := emitted + [Emission(ch, EnvelopeOf(c, FormatCall(call.severity, call.source, alist)))];
      EmitAllSnoc(ch, c, calls[..i], call);
      assert calls[..i + 1] == calls[..i] + [call];
      i := i + 1;
    }
    assert calls[..i] == calls;
  }

  /** The part of print past the provider gate: unless the console is the
      port itself, decode the message and invoke the provider. */
  method PrintReady(c: Codec, console: Option<Console>, m: Envelope) returns (outcome: PrintOutcome)
    ensures outcome == PrintStep(c, console, m)
  {
    if IsSelf(console) {
      return Suppressed;
    }
    var parsed := c.parse(m.msg);
    if parsed.None? {
      return Threw;
    }
    var arr := DecodeArgs(parsed.value);
    if arr.None? {
      return Threw;
    }
    return Delivered(m.severity, m.source, arr.value);
  }

  /** The 'logger' replay: each deferred print runs once, in order. */
  method ReplayPrints(c: Codec, console: Option<Console>, ms: seq<Envelope>) returns (outcomes: seq<PrintOutcome>)
    ensures |outcomes| == |ms|
    ensures forall k :: 0 <= k < |ms| ==> outcomes[k] == PrintStep(c, console, ms[k])
  {
    outcomes := [];
    var i := 0;
    while i < |ms|
      invariant 0 <= i <= |ms| && |outcomes| == i
      invariant forall k :: 0 <= k < i ==> outcomes[k] == PrintStep(c, console, ms[k])
    {
      var o := PrintReady(c, console, ms[i]);
      OutcomesSnoc(c, console, ms, outcomes, o);
      outcomes := outcomes + [o];
      i := i + 1;
    }
  }

  class Debug {
    /** The JSON library the port calls. */
    const json: Codec
    var emitChannel: Option<string>
    /** `this.config` holds the whole `message.config`; only its `global` part is modelled. */
    var config: Option<GlobalConfig>
    var console: Option<Console>
    var logger: LoggerState
    /** Continuations registered with on('ready'), in registration order. */
    var onReady: seq<FormatCall>
    /** Continuations registered with once('logger'), in registration order. */
    var onLogger: seq<Envelope>
    /** Envelopes emitted on the bus. */
    var sent: seq<Emission>
    /** Requests made for the logging provider. */
    var requests: nat
    /** Calls made on the provider. */
    var invoked: seq<Invocation>
    /** Direct console.error calls made by error. */
    var direct: seq<DirectCall>
    /** Every format call made so far, normalised, in call order. */
    ghost var calls: seq<FormatCall>

    /**
     * The port's invariant. Before the bind nothing is emitted and every
     * format call waits behind 'ready'; after it, the emitted envelopes are
     * exactly those of all format calls, each once, in call order, on the
     * bound channel. The provider is requested at most once, and never
     * invoked before it is ready.
     */
    ghost predicate Valid()
      reads this
    {
      && (emitChannel.Some? ==> emitChannel.value != "" && config.Some? && console == config.value.console)
      && (emitChannel.None? ==> config.None? && console.None? && onReady == calls)
      && sent == (if emitChannel.Some? then EmitAll(emitChannel.value, json, calls) else [])
      && requests == (if logger.NotRequested? then 0 else 1)
      && (!logger.Pending? ==> onLogger == [])
      && (!logger.Ready? ==> invoked == [])
    }

    constructor (json: Codec)
      ensures Valid() && this.json == json
      ensures emitChannel.None? && config.None? && console.None? && logger.NotRequested?
      ensures onReady == [] && onLogger == [] && calls == []
      ensures sent == [] && requests == 0 && invoked == [] && direct == []
    {
      this.json := json;
      emitChannel, config, console, logger := None, None, None, NotRequested;
      onReady, onLogger, calls := [], [], [];
      sent, requests, invoked, direct := [], 0, [], [];
    }

    /** One format call and nothing else: it waits behind 'ready' while no
        channel is bound, and is emitted on the channel otherwise. */
    twostate predicate Formatted(severity: Severity, source: Option<string>, alist: seq<JsonValue>)
      reads this
    {
      var call := FormatCall(severity, source, alist);
      && emitChannel == old(emitChannel) && config == old(config) && console == old(console)
      && logger == old(logger) && onLogger == old(onLogger)
      && requests == old(requests) && invoked == old(invoked) && direct == old(direct)
      && calls == old(calls) + [call]
      && (if old(emitChannel).None? then onReady == old(onReady) + [call] && sent == old(sent)
          else onReady == old(onReady) && sent == old(sent) + [Emission(old(emitChannel).value, EnvelopeOf(json, call))])
    }

    /** onMessage: the one-time bind, then the 'ready' signal. */
    method OnMessage(source: string, message: ControlMessage)
      requires Valid()
      requires Binds(source, message, emitChannel) ==> message.config.Some?
      modifies this
      ensures Valid()
      ensures logger == old(logger) && onLogger == old(onLogger) && onReady == old(onReady) && calls == old(calls)
      ensures requests == old(requests) && invoked == old(invoked) && direct == old(direct)
      ensures Binds(source, message, old(emitChannel)) ==>
                && old(emitChannel).None?
                && emitChannel == message.channel && config == message.config
                && console == message.config.value.console
                && sent == old(sent) + EmitAll(message.channel.value, json, old(onReady))
      ensures !Binds(source, message, old(emitChannel)) ==>
                emitChannel == old(emitChannel) && config == old(config) && console == old(console) && sent == old(sent)
    {
      if source == "control" && Truthy(message.channel) && !Truthy(emitChannel) {
        emitChannel := message.channel;
        config := message.config;
        console := message.config.value.console;
        // emit('ready'): every continuation re-runs format with the bound channel
        var emitted := ReplayReady(message.channel.value, json, onReady);
        sent := sent + emitted;
      }
    }

    /** format: normalise the payload; defer behind 'ready' while no channel
        is bound, emit the envelope on the channel otherwise. */
    method Format(severity: Severity, source: Option<string>, args: Payload)
      requires Valid()
      modifies this
      ensures Valid()
      ensures Formatted(severity, source, Canonical(json, source, args))
    {
      var alist := Normalise(json, source, args);
      var call := FormatCall(severity, source, alist);
      if !Truthy(emitChannel) {
        onReady := onReady + [call];
        calls := calls + [call];
        return;
      }
      EmitAllSnoc(emitChannel.value, json, calls, call);
      calls := calls + [call];
      sent := sent + [Emission(emitChannel.value, EnvelopeOf(json, call))];
    }

    /** print: acquire the provider at most once and defer behind 'logger'
        until it is ready; once ready, decode the message and invoke the
        provider method of its severity, unless the console is the port. */
    method Print(message: Envelope) returns (outcome: PrintOutcome)
      requires Valid()
      modifies this
      ensures Valid()
      ensures emitChannel == old(emitChannel) && config == old(config) && console == old(console)
      ensures onReady == old(onReady) && calls == old(calls) && sent == old(sent) && direct == old(direct)
      ensures old(logger).NotRequested? ==>
                && logger.Pending? && onLogger == [message] && outcome == Queued
                && requests == old(requests) + 1 && invoked == old(invoked)
      ensures old(logger).Pending? ==>
                && logger.Pending? && onLogger == old(onLogger) + [message] && outcome == Queued
                && requests == old(requests) && invoked == old(invoked)
      ensures old(logger).Ready? ==>
                && logger.Ready? && onLogger == [] && outcome == PrintStep(json, console, message)
                && requests == old(requests) && invoked == old(invoked) + Delivery(outcome)
    {
      if !logger.Ready? {
        if logger.NotRequested? {
          // fdom.apis.getCore('core.logger', this)
          requests := requests + 1;
          logger := Pending;
        }
        onLogger := onLogger + [message];
        return Queued;
      }
      outcome := PrintReady(json, console, message);
      invoked := invoked + Delivery(outcome);
    }

    /** The provider acquisition resolves: the provider is stored and
        'logger' fires, re-running each deferred print once, in order. */
    method ResolveLogger() returns (outcomes: seq<PrintOutcome>)
      requires Valid() && logger.Pending?
      modifies this
      ensures Valid() && logger.Ready? && onLogger == []
      ensures emitChannel == old(emitChannel) && config == old(config) && console == old(console)
      ensures onReady == old(onReady) && calls == old(calls) && sent == old(sent) && direct == old(direct)
      ensures requests == old(requests)
      ensures |outcomes| == |old(onLogger)|
      ensures forall k :: 0 <= k < |outcomes| ==> outcomes[k] == PrintStep(json, console, old(onLogger)[k])
      ensures invoked == old(invoked) + Deliveries(outcomes)
    {
      var waiting := onLogger;
      logger := Ready;
      onLogger := [];
      // emit('logger'): every deferred print runs again, now past the gate
      outcomes := ReplayPrints(json, console, waiting);
      invoked := invoked + Deliveries(outcomes);
    }

    method Log(args: seq<JsonValue>)
      requires Valid()
      modifies this
      ensures Valid() && Formatted(Severity.Log, None, args)
    {
      Format(Severity.Log, None, Args(args));
    }

    method Info(args: seq<JsonValue>)
      requires Valid()
      modifies this
      ensures Valid() && Formatted(Severity.Info, None, args)
    {
      Format(Severity.Info, None, Args(args));
    }

    method Debug(args: seq<JsonValue>)
      requires Valid()
      modifies this
      ensures Valid() && Formatted(Severity.Debug, None, args)
    {
      Format(Severity.Debug, None, Args(args));
    }

    method Warn(args: seq<JsonValue>)
      requires Valid()
      modifies this
      ensures Valid() && Formatted(Severity.Warn, None, args)
    {
      Format(Severity.Warn, None, Args(args));
    }

    /** error: the format call, then the direct call on a console target
        that is not marked `freedom`. */
    method Error(args: seq<JsonValue>)
      requires Valid()
      requires DirectError(console) ==> !console.value.id.ThisPort?
      modifies this
      ensures Valid()
      ensures emitChannel == old(emitChannel) && config == old(config) && console == old(console)
      ensures logger == old(logger) && onLogger == old(onLogger) && requests == old(requests) && invoked == old(invoked)
      ensures calls == old(calls) + [FormatCall(Severity.Error, None, args)]
      ensures old(emitChannel).None? ==>
                onReady == old(onReady) + [FormatCall(Severity.Error, None, args)] && sent == old(sent)
      ensures old(emitChannel).Some? ==>
                && onReady == old(onReady)
                && sent == old(sent) + [Emission(old(emitChannel).value, EnvelopeOf(json, FormatCall(Severity.Error, None, args)))]
      ensures direct == old(direct) + (if DirectError(console) then [DirectCall(console.value, args)] else [])
    {
      Format(Severity.Error, None, Args(args));
      if console.Some? && !console.value.freedom {
        direct := direct + [DirectCall(console.value, args)];
      }
    }
  }

  /** The logger object of Debug.getLogger: five severity methods that call
      the shared port's format with a fixed severity and source. */
  class NamedLogger {
    const port: Debug
    const name: Option<string>

    constructor GetLogger(port: Debug, name: Option<string>)
      ensures this.port == port && this.name == name
    {
      this.port := port;
      this.name := name;
    }

    method Log(args: seq<JsonValue>)
      requires port.Valid()
      modifies port
      ensures port.Valid() && port.Formatted(Severity.Log, name, args)
    {
      port.Format(Severity.Log, name, Args(args));
    }

    method Info(args: seq<JsonValue>)
      requires port.Valid()
      modifies port
      ensures port.Valid() && port.Formatted(Severity.Info, name, args)
    {
      port.Format(Severity.Info, name, Args(args));
    }

    method Debug(args: seq<JsonValue>)
      requires port.Valid()
      modifies port
      ensures port.Valid() && port.Formatted(Severity.Debug, name, args)
    {
      port.Format(Severity.Debug, name, Args(args));
    }

    method Warn(args: seq<JsonValue>)
      requires port.Valid()
      modifies port
      ensures port.Valid() && port.Formatted(Severity.Warn, name, args)
    {
      port.Format(Severity.Warn, name, Args(args));
    }

    method Error(args: seq<JsonValue>)
      requires port.Valid()
      modifies port
      ensures port.Valid() && port.Formatted(Severity.Error, name, args)
    {
      port.Format(Severity.Error, name, Args(args));
    }
  }

  /** No premature emission and no double emission: before the bind nothing
      is on the bus; after it, the k-th envelope on the bus is the k-th
      format call made, on the bound channel, quiet, with request "debug". */
  lemma SentMatchesCalls(d: Debug, k: nat)
    requires d.Valid()
    ensures d.emitChannel.None? ==> d.sent == []
    ensures d.emitChannel.Some? ==> |d.sent| == |d.calls|
    ensures d.emitChannel.Some? && k < |d.calls| ==>
              && d.sent[k].channel == d.emitChannel.value
              && d.sent[k].envelope.quiet && d.sent[k].envelope.request == "debug"
              && d.sent[k].envelope.severity == d.calls[k].severity
              && d.sent[k].envelope.source == d.calls[k].source
              && d.sent[k].envelope.msg == d.json.stringify(Arr(d.calls[k].alist))
  {
    if d.emitChannel.Some? {
      if k < |d.calls| {
        EmitAllAt(d.emitChannel.value, d.json, d.calls, k);
      } else if d.calls != [] {
        EmitAllAt(d.emitChannel.value, d.json, d.calls, 0);
      }
    }
  }

  /** Once a channel is bound no control message binds again. */
  lemma BindOnce(source: string, message: ControlMessage, bound: Option<string>)
    requires bound.Some? && bound.value != ""
    ensures !Binds(source, message, bound)
  {
  }

  /** A call logged before any bind is emitted once the control message
      arrives, with its arguments encoded as one JSON array. */
  method ScenarioLogBeforeBind(json: Codec, x: Console)
  {
    var d := new Debug(json);
    d.Log([Str("hello"), Num(42)]);
    assert d.sent == [];
    d.OnMessage("control", ControlMessage(Some("c1"), Some(GlobalConfig(Some(x)))));
    assert d.sent == [Emission("c1", Envelope(Severity.Log, None, true, "debug", json.stringify(Arr([Str("hello"), Num(42)]))))];
    d.OnMessage("control", ControlMessage(Some("c2"), None));
    assert d.emitChannel == Some("c1") && |d.sent| == 1;
  }

  /** error reaches a console target directly, beside the envelope path. */
  method ScenarioError(json: Codec, n: nat)
  {
    var d := new Debug(json);
    var x := Console(External(n), false);
    d.OnMessage("control", ControlMessage(Some("c1"), Some(GlobalConfig(Some(x)))));
    d.Error([Str("boom")]);
    assert d.direct == [DirectCall(x, [Str("boom")])];
    assert d.sent == [Emission("c1", EnvelopeOf(json, FormatCall(Severity.Error, None, [Str("boom")])))];
  }

  /** Prints wait for the provider, which is requested once, and are
      delivered in order when it resolves. */
  method ScenarioPrintWaits(json: Codec, m1: Envelope, m2: Envelope)
  {
    var d := new Debug(json);
    var o1 := d.Print(m1);
    var o2 := d.Print(m2);
    assert o1 == Queued && o2 == Queued;
    assert d.requests == 1 && d.invoked == [];
    var os := d.ResolveLogger();
    assert os == [PrintStep(json, None, m1), PrintStep(json, None, m2)];
  }
}

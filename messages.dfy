/**
 * The wire-level vocabulary of the debug port in src/debug.js: severities,
 * call payloads, deferred format calls, envelopes and console targets, with
 * the two pure steps of the port: payload normalisation (the first half of
 * `format`) and the print step once the provider is ready (the second half
 * of `print`).
 */
module Messages {
  import opened Wrappers
  import opened Json

  datatype Severity = Log | Info | Debug | Warn | Error

  /** The `args` of `format`: a string, or an array-like argument list. */
  datatype Payload = Text(s: string) | Args(values: seq<JsonValue>)

  /** A `format` call with its normalised argument list, as a 'ready'
      continuation holds it. */
  datatype FormatCall = FormatCall(severity: Severity, source: Option<string>, alist: seq<JsonValue>)

  /** The record `format` emits on the bound channel. */
  datatype Envelope = Envelope(severity: Severity, source: Option<string>, quiet: bool, request: string, msg: string)

  /** A console target: the port itself or some other object, with its
      `freedom` marker. */
  datatype ConsoleId = ThisPort | External(n: nat)
  datatype Console = Console(id: ConsoleId, freedom: bool)

  /** What one `print` call did. */
  datatype PrintOutcome =
    | Queued                       // deferred behind 'logger'
    | Suppressed                   // the console is the port itself
    | Delivered(severity: Severity, source: Option<string>, args: seq<JsonValue>)
    | Threw                        // JSON.parse or args[i] threw

  /** JavaScript truthiness of an optional string. */
  predicate Truthy(s: Option<string>)
  {
    s.Some? && s.value != ""
  }

  /** `this.console === this`. */
  predicate IsSelf(console: Option<Console>)
  {
    console.Some? && console.value.id.ThisPort?
  }

  /** The normalised argument list of `format`. */
  function Canonical(c: Codec, source: Option<string>, args: Payload): seq<JsonValue>
  {
    match args
    case Text(s) =>
      if Truthy(source) && c.parse(s).Some? && c.parse(s).value.Arr? then c.parse(s).value.elems
      else [Str(s)]
    case Args(xs) => xs
  }

  /** The envelope `format` emits for a call once a channel is bound. */
  function EnvelopeOf(c: Codec, call: FormatCall): Envelope
  {
    Envelope(call.severity, call.source, true, "debug", c.stringify(Arr(call.alist)))
  }

  /** The print step once the provider is ready. */
  function PrintStep(c: Codec, console: Option<Console>, m: Envelope): PrintOutcome
  {
    if IsSelf(console) then Suppressed
    else match c.parse(m.msg)
      case None => Threw
      case Some(v) =>
        match Decoded(v)
        case None => Threw
        case Some(arr) => Delivered(m.severity, m.source, arr)
  }

  /** Normalisation as `format` does it: a string with a truthy source that
      parses to an array is replaced by that array; a string left over
      becomes a one-element list; an argument list is copied element by
      element. */
  method Normalise(c: Codec, source: Option<string>, args: Payload) returns (alist: seq<JsonValue>)
    ensures alist == Canonical(c, source, args)
    ensures args.Args? ==> alist == args.values
    ensures args.Text? && !(Truthy(source) && c.parse(args.s).Some? && c.parse(args.s).value.Arr?)
            ==> alist == [Str(args.s)]
  {
    var a := args;
    if a.Text? && Truthy(source) {
      var parsed := c.parse(a.s);
      if parsed.Some? && parsed.value.Arr? {
        a := Args(parsed.value.elems);
      }
    }
    alist := [];
    if a.Text? {
      alist := alist + [Str(a.s)];
    } else {
      var i := 0;
      while i < |a.values|
        invariant 0 <= i <= |a.values|
        invariant alist == a.values[..i]
      {
        alist := alist + [a.values[i]];
        i := i + 1;
      }
    }
  }

  /** A normalised list is a fixed point of normalisation: re-running
      `format` on a deferred call, as the 'ready' replay does, changes
      nothing, whatever the source. */
  lemma CanonicalIdempotent(c: Codec, source: Option<string>, args: Payload)
    ensures Canonical(c, source, Args(Canonical(c, source, args))) == Canonical(c, source, args)
  {
  }

  /** A string with a truthy source whose text is a JSON array is logged as
      that array's elements, not as the string. */
  lemma ParsedArrayReplacesText(c: Codec, source: Option<string>, s: string, xs: seq<JsonValue>)
    requires Truthy(source) && c.parse(s) == Some(Arr(xs))
    ensures Canonical(c, source, Text(s)) == xs
  {
  }

  /** End to end through the codec: printing an envelope that `format`
      emitted delivers the call's severity, source and argument list (with
      undefined slots as null), and exactly that list when it is
      representable. */
  lemma PrintOfEmitted(c: Codec, console: Option<Console>, call: FormatCall)
    requires Lossless(c) && !IsSelf(console)
    requires forall i :: 0 <= i < |call.alist| ==> JsShaped(call.alist[i])
    ensures PrintStep(c, console, EnvelopeOf(c, call)) == Delivered(call.severity, call.source, WireList(call.alist))
    ensures (forall i :: 0 <= i < |call.alist| ==> Representable(call.alist[i])) ==>
              PrintStep(c, console, EnvelopeOf(c, call)) == Delivered(call.severity, call.source, call.alist)
  {
    RoundTrip(c, call.alist);
  }

  /** The print step never delivers when the console is the port itself,
      and otherwise delivers under the envelope's own severity and source. */
  lemma PrintStepShape(c: Codec, console: Option<Console>, m: Envelope)
    ensures IsSelf(console) <==> PrintStep(c, console, m).Suppressed?
    ensures PrintStep(c, console, m).Delivered? ==>
              PrintStep(c, console, m).severity == m.severity && PrintStep(c, console, m).source == m.source
    ensures PrintStep(c, console, m).Delivered? <==>
              !IsSelf(console) && c.parse(m.msg).Some? && Decoded(c.parse(m.msg).value).Some?
  {
  }
}

/**
 * The PPS driver object: the serial line it talks over, what identification
 * established about the supply, and one method per operation of the driver,
 * each a sequence of command/reply exchanges.
 */
module Driver {
  import opened Outcomes
  import opened Numeric
  import opened PyText
  import opened Framing
  import opened Identification
  import opened Codec

  /**
   * _query(cmd): write cmd and a carriage return, then read one byte at a
   * time until the last three bytes are "OK\r". Each byte is decoded as it
   * arrives, for the trace, so a byte that is not ASCII raises at once; a
   * read that yields nothing or a NUL byte is a timeout. The reply is what
   * was read, less its last four bytes, decoded as text.
   */
  method Exchange(line: SerialLine, cmd: string) returns (r: Result<string>)
    modifies line
    ensures line.written == old(line.written) + [cmd + "\r"]
    ensures line.incoming == Rest(old(line.incoming))
    ensures line.isOpen == old(line.isOpen)
    ensures r == Reply(old(line.incoming))
  {
    line.Write(cmd + "\r");
    ghost var inp := line.incoming;
    var got: seq<byte> := [];
    while true
      invariant |got| <= |inp| && got == inp[..|got|] && line.incoming == inp[|got|..]
      invariant ReadFrom(inp, |got|) == ReadFrame(inp)
      invariant line.written == old(line.written) + [cmd + "\r"] && line.isOpen == old(line.isOpen)
      decreases |inp| - |got|
    {
      ReadStep(inp, |got|);
      if |got| < |inp| {
        TakeByte(inp, |got|);
      }
      var b := line.Read1();
      if b != [] && b[0] >= 128 {
        r := Err(Undecodable);
        return;
      }
      if b == [] || b[0] == NUL {
        r := Err(Timeout);
        return;
      }
      got := got + b;
      if |got| >= 3 && got[|got| - 3..] == OK_CR {
        assert EndsWithOk(inp, |got|);
        break;
      }
      assert !EndsWithOk(inp, |got|);
    }
    r := Decode(Payload(got));
  }

  /** What an exchange whose reply the driver ignores returns. */
  function Discard(reply: Result<string>): (r: Result<()>)
    ensures r.Ok? <==> reply.Ok?
    ensures r.Err? ==> r.error == reply.error
  {
    match reply
    case Ok(_) => Ok(())
    case Err(e) => Err(e)
  }

  /** The lines written for a list of commands: each command and a carriage return. */
  function Lines(cmds: seq<string>): (lines: seq<string>)
    ensures |lines| == |cmds|
    ensures forall k :: 0 <= k < |cmds| ==> lines[k] == cmds[k] + "\r"
  {
    seq(|cmds|, k requires 0 <= k < |cmds| => cmds[k] + "\r")
  }

  /** What a run of exchanges wrote, what it left of the stream, and whether all of them succeeded. */
  datatype Conversation = Conversation(sent: seq<string>, rest: seq<byte>, outcome: Result<()>)

  /**
   * Exchanging each of cmds in turn with a device that will send inp; the
   * first exchange that fails raises, so nothing after it is sent.
   */
  function Converse(inp: seq<byte>, cmds: seq<string>): (c: Conversation)
    ensures |c.sent| <= |cmds|
    ensures c.outcome.Ok? ==> |c.sent| == |cmds|
    ensures c.outcome.Err? ==> 0 < |c.sent| && (c.outcome.error == Timeout || c.outcome.error == Undecodable)
    decreases |cmds|
  {
    if cmds == [] then Conversation([], inp, Ok(()))
    else
      match Reply(inp)
      case Err(e) => Conversation([cmds[0] + "\r"], Rest(inp), Err(e))
      case Ok(_) =>
        var c := Converse(Rest(inp), cmds[1..]);
        Conversation([cmds[0] + "\r"] + c.sent, c.rest, c.outcome)
  }

  /** Whatever the device sends, the lines written are the first commands of the run, in order. */
  lemma {:induction false} ConverseSent(inp: seq<byte>, cmds: seq<string>)
    ensures var c := Converse(inp, cmds); c.sent == Lines(cmds[..|c.sent|])
    decreases |cmds|
  {
    if cmds != [] && Reply(inp).Ok? {
      var c := Converse(Rest(inp), cmds[1..]);
      ConverseSent(Rest(inp), cmds[1..]);
      var n := |c.sent|;
      assert cmds[..n + 1] == [cmds[0]] + cmds[1..][..n];
      assert Lines(cmds[..n + 1]) == [cmds[0] + "\r"] + Lines(cmds[1..][..n]);
    } else if cmds != [] {
      assert Lines(cmds[..1]) == [cmds[0] + "\r"];
    }
  }

  /**
   * One exchange of a run, seen from a log w that precedes it: a failure
   * ends the run there, a success leaves the rest of the run to the rest of
   * the stream.
   */
  lemma Advance(w: seq<string>, inp: seq<byte>, cmd: string, more: seq<string>)
    ensures Reply(inp).Err? ==>
              Converse(inp, [cmd] + more) == Conversation([cmd + "\r"], Rest(inp), Discard(Reply(inp)))
    ensures Reply(inp).Ok? ==>
              && w + Converse(inp, [cmd] + more).sent == w + [cmd + "\r"] + Converse(Rest(inp), more).sent
              && Converse(inp, [cmd] + more).rest == Converse(Rest(inp), more).rest
              && Converse(inp, [cmd] + more).outcome == Converse(Rest(inp), more).outcome
  {
    var todo := [cmd] + more;
    assert todo[0] == cmd && todo[1..] == more;
    if Reply(inp).Ok? {
      var c := Converse(Rest(inp), more);
      assert w + ([cmd + "\r"] + c.sent) == w + [cmd + "\r"] + c.sent;
    }
  }

  /** A run of one command is that one exchange. */
  lemma Single(inp: seq<byte>, cmd: string)
    ensures Converse(inp, [cmd]) == Conversation([cmd + "\r"], Rest(inp), Discard(Reply(inp)))
  {
    assert [cmd][1..] == [];
  }

  /**
   * Running a + b is running a, then, unless a failed, running b on what a
   * left of the stream.
   */
  lemma {:induction false} ConverseAppend(inp: seq<byte>, a: seq<string>, b: seq<string>)
    ensures var c1 := Converse(inp, a);
            && (c1.outcome.Err? ==> Converse(inp, a + b) == c1)
            && (c1.outcome.Ok? ==>
                  var c2 := Converse(c1.rest, b);
                  Converse(inp, a + b) == Conversation(c1.sent + c2.sent, c2.rest, c2.outcome))
    decreases |a|
  {
    if a == [] {
      assert a + b == b;
    } else {
      assert (a + b)[0] == a[0] && (a + b)[1..] == a[1..] + b;
      if Reply(inp).Ok? {
        ConverseAppend(Rest(inp), a[1..], b);
        var c1 := Converse(Rest(inp), a[1..]);
        if c1.outcome.Ok? {
          Regroup([a[0] + "\r"], c1.sent, Converse(c1.rest, b).sent);
        }
      }
    }
  }

  /** A reply passed to a decoder: a failed exchange raises before the decoder runs. */
  function Decoded<T>(reply: Result<string>, decode: string -> Result<T>): (r: Result<T>)
    ensures reply.Err? ==> r == Err(reply.error)
    ensures reply.Ok? ==> r == decode(reply.value)
  {
    match reply
    case Err(e) => Err(e)
    case Ok(text) => decode(text)
  }

  /** n bare acknowledgements, one per command. */
  function Acks(n: nat): (b: seq<byte>)
    ensures |b| == 3 * n
  {
    if n == 0 then [] else OK_CR + Acks(n - 1)
  }

  /** A device that acknowledges every command lets the whole run through and leaves what follows. */
  lemma {:induction false} ConverseAcks(cmds: seq<string>, rest: seq<byte>)
    ensures Converse(Acks(|cmds|) + rest, cmds) == Conversation(Lines(cmds), rest, Ok(()))
    decreases |cmds|
  {
    if cmds != [] {
      var tail := Acks(|cmds| - 1) + rest;
      assert Acks(|cmds|) + rest == OK_CR + tail;
      AckReply(tail);
      ConverseAcks(cmds[1..], rest);
      assert Lines(cmds) == [cmds[0] + "\r"] + Lines(cmds[1..]);
    }
  }

  /**
   * The commands PPS.__init__ sends once the supply is identified: with
   * reset, output(0), voltage(0) and current(0); then use_preset(prom) when
   * a preset is given.
   */
  function ResetCommands(id: Identity, reset: bool, prom: Option<int>): (c: seq<string>)
    requires Supported(id)
    ensures |c| == (if reset then 3 else 0) + (if prom.Some? then 1 else 0)
    ensures reset ==> c[..3] == ["SOUT1", "VOLT" + Format03(id.vmin), "CURR000"]
    ensures prom.Some? ==> c[|c| - 1] == UsePresetCommand(prom.value)
  {
    (if reset then SwitchOffCommands(id) else []) + PresetCommands(prom)
  }

  /**
   * output(0), voltage(0), current(0): the output is switched off and the
   * current limit set to zero, but the voltage only down to the supply's
   * minimum, because voltage(0) saturates.
   */
  function SwitchOffCommands(id: Identity): (c: seq<string>)
    requires Supported(id)
    ensures c == ["SOUT1", "VOLT" + Format03(id.vmin), "CURR000"]
  {
    assert VoltageSetting(id, 0.0) == id.vmin;
    assert CurrentSetting(id, 0.0) == 0;
    assert Format03(0) == "000";
    assert OutputCommand(0) == "SOUT1";
    assert VoltageCommand(id, 0.0) == "VOLT" + Format03(id.vmin);
    assert CurrentCommand(id, 0.0) == "CURR000";
    [OutputCommand(0)] + ([VoltageCommand(id, 0.0)] + [CurrentCommand(id, 0.0)])
  }

  /** use_preset(prom) when a preset is given, nothing otherwise. */
  function PresetCommands(prom: Option<int>): (c: seq<string>)
    ensures prom.None? ==> c == []
    ensures prom.Some? ==> |c| == 1 && |c[0]| == 5 && c[0][..4] == "RUNM" && IsDigit(c[0][4])
    ensures prom.Some? ==> DigitValue(c[0][4]) == Clamp(0, prom.value, 2)
  {
    if prom.Some? then [UsePresetCommand(prom.value)] else []
  }

  /** What PPS.__init__ wrote, what it left, whether it closed the port, and what it established. */
  datatype Startup = Startup(sent: seq<string>, rest: seq<byte>, closed: bool, outcome: Result<Identity>)

  /**
   * The identification part of PPS.__init__ with a device that will send
   * inp. A failed GMAX exchange closes the port and reports no device; a
   * field int() refuses raises with the port left open; a supply missing
   * from either table closes the port.
   */
  function Handshake(inp: seq<byte>): (s: Startup)
    ensures s.sent == ["GMAX" + "\r"] && s.rest == Rest(inp)
    ensures s.outcome.Ok? ==> Identified(s.outcome.value) && !s.closed
    ensures s.closed <==> s.outcome.Err? && s.outcome.error in {NoDevice, UnknownModel, UnknownMinVoltage}
    ensures Reply(inp).Err? ==> s.outcome == Err(NoDevice)
    ensures Reply(inp).Ok? ==> s.outcome == Identify(Reply(inp).value)
  {
    match Reply(inp)
    case Err(_) => Startup(["GMAX" + "\r"], Rest(inp), true, Err(NoDevice))
    case Ok(gmax) =>
      var found := Identify(gmax);
      Startup(["GMAX" + "\r"], Rest(inp), found.Err? && found.error != BadNumber, found)
  }

  /** A supply that does not answer GMAX, or answers it with a garbled byte, is reported as no device and the port closed. */
  lemma HandshakeNoDevice(inp: seq<byte>)
    requires ReadFrame(inp).TimedOut? || ReadFrame(inp).Garbled?
    ensures Handshake(inp).outcome == Err(NoDevice) && Handshake(inp).closed
  {
  }

  /**
   * A GMAX reply with a field int() refuses raises from the else clause of
   * the try, outside its handler: the port is left open.
   */
  lemma HandshakeBadNumber(inp: seq<byte>)
    requires Reply(inp).Ok?
    requires PyInt(Slice(Reply(inp).value, 0, 3)).None? || PyInt(Slice(Reply(inp).value, 3, 6)).None?
    ensures Handshake(inp).outcome == Err(BadNumber) && !Handshake(inp).closed
  {
  }

  /**
   * A GMAX reply whose two fields read as a pair of limits missing from the
   * model table closes the port and reports an unknown model.
   */
  lemma HandshakeUnknownModel(inp: seq<byte>, vmax: int, raw: int)
    requires Reply(inp).Ok?
    requires PyInt(Slice(Reply(inp).value, 0, 3)) == Some(vmax) && PyInt(Slice(Reply(inp).value, 3, 6)) == Some(raw)
    requires ModelOf(vmax, if Reply(inp).value == WIDE_CURRENT_REPLY then raw else raw * 10).None?
    ensures Handshake(inp).outcome == Err(UnknownModel) && Handshake(inp).closed
  {
    IdentifyOfFields(Reply(inp).value, vmax, raw);
  }

  /**
   * PPS.__init__ with a device that will send inp: the identification,
   * then, once the supply is known, the reset commands; a failing reset
   * command raises with the port left open.
   */
  function Start(inp: seq<byte>, reset: bool, prom: Option<int>): (s: Startup)
    ensures s.outcome.Ok? ==> Identified(s.outcome.value) && !s.closed
    ensures s.closed <==> s.outcome.Err? && s.outcome.error in {NoDevice, UnknownModel, UnknownMinVoltage}
    ensures 0 < |s.sent| && s.sent[0] == "GMAX" + "\r"
  {
    var h := Handshake(inp);
    match h.outcome
    case Err(_) => h
    case Ok(id) =>
      IdentifiedBounds(id);
      var c := Converse(h.rest, ResetCommands(id, reset, prom));
      Startup(h.sent + c.sent, c.rest, false, match c.outcome case Ok(_) => Ok(id) case Err(e) => Err(e))
  }

  /** Start is the handshake, then, once the supply is identified, the run of reset commands. */
  lemma StartSteps(inp: seq<byte>, reset: bool, prom: Option<int>)
    ensures var h := Handshake(inp);
            && (h.outcome.Err? ==> Start(inp, reset, prom) == h)
            && (h.outcome.Ok? ==>
                  && Supported(h.outcome.value)
                  && var c := Converse(h.rest, ResetCommands(h.outcome.value, reset, prom));
                     Start(inp, reset, prom) == Startup(h.sent + c.sent, c.rest, false, if c.outcome.Ok? then h.outcome else Err(c.outcome.error)))
  {
    if Handshake(inp).outcome.Ok? {
      IdentifiedBounds(Handshake(inp).outcome.value);
    }
  }

  /**
   * A supply that answers GMAX with its own limits and acknowledges every
   * later command is identified, sent the reset commands in order, and left
   * open.
   */
  lemma StartRecognises(id: Identity, pad: byte, reset: bool, prom: Option<int>, rest: seq<byte>)
    requires Identified(id) && pad != NUL && pad < 128
    ensures Supported(id)
    ensures var n := |ResetCommands(id, reset, prom)|;
            Start(Encode(GmaxReply(id)) + [pad] + OK_CR + Acks(n) + rest, reset, prom)
            == Startup(["GMAX" + "\r"] + Lines(ResetCommands(id, reset, prom)), rest, false, Ok(id))
  {
    IdentifiedBounds(id);
    var cmds := ResetCommands(id, reset, prom);
    var g := GmaxReply(id);
    GmaxReplyFields(id);
    assert forall i :: 0 <= i < |g| ==> 0 < g[i] as int < 128 by {
      forall i | 0 <= i < |g| ensures 0 < g[i] as int < 128 {
        assert IsDigit(g[i]);
      }
    }
    var q := Encode(g) + [pad];
    forall m | 3 <= m <= |q|
      ensures !EndsWithOk(q, m)
    {
      // the 'O' of a terminator would have to be one of the six digits
      assert q[m - 3..m][0] == q[m - 3] == Encode(g)[m - 3];
      assert IsDigit(g[m - 3]);
    }
    var inp := Encode(g) + [pad] + OK_CR + Acks(|cmds|) + rest;
    ReplyOfText(g, pad, Acks(|cmds|) + rest);
    Regroup(Encode(g) + [pad] + OK_CR, Acks(|cmds|), rest);
    assert Reply(inp) == Ok(g) && Rest(inp) == Acks(|cmds|) + rest;
    IdentifyRecognises(id);
    assert Handshake(inp) == Startup(["GMAX" + "\r"], Acks(|cmds|) + rest, false, Ok(id));
    ConverseAcks(cmds, rest);
    StartSteps(inp, reset, prom);
  }

  /**
   * The driver object: the serial line it owns and what identification
   * established about the supply it talks to. Every operation is one or two
   * exchanges on the line.
   */
  class PPS {
    const line: SerialLine
    const id: Identity

    /** The identity came from identification, with the limits every encoder relies on. */
    predicate Valid()
    {
      Identified(id) && Supported(id)
    }

    constructor (line: SerialLine, id: Identity)
      requires Identified(id)
      ensures this.line == line && this.id == id && Valid()
    {
      this.line := line;
      this.id := id;
      IdentifiedBounds(id);
    }

    /**
     * The identification part of PPS(port, reset, prom): exchange GMAX and
     * look the supply up, closing the line where the source closes the port.
     */
    static method Identification(line: SerialLine) returns (r: Result<Identity>)
      modifies line
      ensures var h := Handshake(old(line.incoming));
              && line.written == old(line.written) + h.sent
              && line.incoming == h.rest
              && line.isOpen == (old(line.isOpen) && !h.closed)
              && r == h.outcome
    {
      var reply := Exchange(line, "GMAX");
      if reply.Err? {
        line.Close();
        r := Err(NoDevice);
        return;
      }
      r := Identify(reply.value);
      if r.Err? && r.error != BadNumber {
        line.Close();
      }
    }

    /**
     * PPS(port, reset, prom) over an already opened line: identify the
     * supply from its GMAX reply, then reset it and select a preset as asked.
     */
    static method Open(line: SerialLine, reset: bool, prom: Option<int>) returns (r: Result<PPS>)
      modifies line
      ensures var s := Start(old(line.incoming), reset, prom);
              && line.written == old(line.written) + s.sent
              && line.incoming == s.rest
              && line.isOpen == (old(line.isOpen) && !s.closed)
              && (r.Ok? <==> s.outcome.Ok?)
              && (r.Ok? ==> fresh(r.value) && r.value.line == line && r.value.id == s.outcome.value && r.value.Valid())
              && (r.Err? ==> r.error == s.outcome.error)
    {
      ghost var inp, w := line.incoming, line.written;
      StartSteps(inp, reset, prom);
      var id :- Identification(line);
      ghost var c := Converse(Rest(inp), ResetCommands(id, reset, prom));
      Regroup(w, ["GMAX" + "\r"], c.sent);
      r := Establish(line, id, reset, prom);
    }

    /**
     * The rest of PPS(port, reset, prom) once the supply is identified: the
     * driver object, reset and set to a preset as asked.
     */
    static method Establish(line: SerialLine, id: Identity, reset: bool, prom: Option<int>) returns (r: Result<PPS>)
      requires Identified(id) && Supported(id)
      modifies line
      ensures var c := Converse(old(line.incoming), ResetCommands(id, reset, prom));
              && line.written == old(line.written) + c.sent
              && line.incoming == c.rest
              && line.isOpen == old(line.isOpen)
              && (r.Ok? <==> c.outcome.Ok?)
              && (r.Ok? ==> fresh(r.value) && r.value.line == line && r.value.id == id && r.value.Valid())
              && (r.Err? ==> r.error == c.outcome.error)
    {
      var pps := new PPS(line, id);
      var done := pps.Reset(reset, prom);
      r := if done.Err? then Err(done.error) else Ok(pps);
    }

    /** The reset part of PPS.__init__: the commands of ResetCommands, stopping at the first that fails. */
    method Reset(reset: bool, prom: Option<int>) returns (r: Result<()>)
      requires Valid()
      modifies line
      ensures var c := Converse(old(line.incoming), ResetCommands(id, reset, prom));
              && line.written == old(line.written) + c.sent
              && line.incoming == c.rest
              && line.isOpen == old(line.isOpen)
              && r == c.outcome
    {
      ghost var w, inp := line.written, line.incoming;
      var off: seq<string> := [];
      if reset {
        off := SwitchOffCommands(id);
        r := SwitchOff();
      } else {
        r := Ok(());
      }
      ConverseAppend(inp, off, PresetCommands(prom));
      if r.Err? {
        return;
      }
      ghost var c1 := Converse(inp, off);
      Regroup(w, c1.sent, Converse(c1.rest, PresetCommands(prom)).sent);
      if prom.Some? {
        Single(line.incoming, UsePresetCommand(prom.value));
        r := UsePreset(prom.value);
      } else {
        r := Ok(());
      }
    }

    /** The reset block of PPS.__init__: output(0), voltage(0), current(0), stopping at the first that fails. */
    method SwitchOff() returns (r: Result<()>)
      requires Valid()
      modifies line
      ensures var c := Converse(old(line.incoming), SwitchOffCommands(id));
              && line.written == old(line.written) + c.sent
              && line.incoming == c.rest
              && line.isOpen == old(line.isOpen)
              && r == c.outcome
    {
      ghost var w, inp := line.written, line.incoming;
      r := Output(0);
      Advance(w, inp, OutputCommand(0), [VoltageCommand(id, 0.0)] + [CurrentCommand(id, 0.0)]);
      if r.Err? { return; }
      w, inp := line.written, line.incoming;
      r := Voltage(0.0);
      Advance(w, inp, VoltageCommand(id, 0.0), [CurrentCommand(id, 0.0)]);
      if r.Err? { return; }
      w, inp := line.written, line.incoming;
      Single(inp, CurrentCommand(id, 0.0));
      r := Current(0.0);
    }

    /** limits(): the maximum voltage and current in volts and amps, the key of the supply's model. */
    function Limits(): (r: (real, real))
      requires Valid()
      ensures ModelOf(Trunc(r.0 * 10.0), Trunc(r.1 * 100.0)) == Some(id.model)
      ensures VoltageSetting(id, r.0) == id.vmax && CurrentSetting(id, r.1) == CurrentLimit(id)
    {
      var v, i := id.vmax as real / 10.0, id.imax as real / 100.0;
      TruncOfInt(id.vmax);
      TruncOfInt(id.imax);
      CurrentLimitScaled(id);
      TruncOfInt(CurrentLimit(id));
      (v, i)
    }

    /** output(state): SOUT with the inverted flag. */
    method Output(state: int) returns (r: Result<()>)
      modifies line
      ensures line.written == old(line.written) + [OutputCommand(state) + "\r"]
      ensures line.incoming == Rest(old(line.incoming)) && line.isOpen == old(line.isOpen)
      ensures r == Discard(Reply(old(line.incoming)))
    {
      var reply := Exchange(line, OutputCommand(state));
      r := Discard(reply);
    }

    /** voltage(v): VOLT with the requested voltage saturated at the supply's limits. */
    method Voltage(v: real) returns (r: Result<()>)
      requires Valid()
      modifies line
      ensures line.written == old(line.written) + [VoltageCommand(id, v) + "\r"]
      ensures line.incoming == Rest(old(line.incoming)) && line.isOpen == old(line.isOpen)
      ensures r == Discard(Reply(old(line.incoming)))
    {
      var reply := Exchange(line, VoltageCommand(id, v));
      r := Discard(reply);
    }

    /** current(i): CURR with the requested current saturated at 0 and the supply's maximum. */
    method Current(i: real) returns (r: Result<()>)
      requires Valid()
      modifies line
      ensures line.written == old(line.written) + [CurrentCommand(id, i) + "\r"]
      ensures line.incoming == Rest(old(line.incoming)) && line.isOpen == old(line.isOpen)
      ensures r == Discard(Reply(old(line.incoming)))
    {
      var reply := Exchange(line, CurrentCommand(id, i));
      r := Discard(reply);
    }

    /** reading(): GETD, decoded. */
    method Reading() returns (r: Result<Reading>)
      modifies line
      ensures line.written == old(line.written) + ["GETD" + "\r"]
      ensures line.incoming == Rest(old(line.incoming)) && line.isOpen == old(line.isOpen)
      ensures r == Decoded(Reply(old(line.incoming)), DecodeReading)
    {
      var getd :- Exchange(line, "GETD");
      r := DecodeReading(getd);
    }

    /**
     * store_presets(VC0, VC1, VC2): build the list of scaled pairs one
     * preset at a time, then send them all in one PROM command.
     */
    method StorePresets(vc0: Setting, vc1: Setting, vc2: Setting) returns (r: Result<()>)
      requires Valid()
      modifies line
      ensures line.written == old(line.written) + [StoreCommand(id, [vc0, vc1, vc2]) + "\r"]
      ensures StoreCommand(id, [vc0, vc1, vc2]) == "PROM" + PresetField(id, vc0) + PresetField(id, vc1) + PresetField(id, vc2)
      ensures line.incoming == Rest(old(line.incoming)) && line.isOpen == old(line.isOpen)
      ensures r == Discard(Reply(old(line.incoming)))
    {
      var presets := [vc0, vc1, vc2];
      var vcs: seq<(real, real)> := [];
      var k := 0;
      while k < |presets|
        invariant 0 <= k <= |presets|
        invariant vcs == ScaledPresets(id, presets[..k])
      {
        assert presets[..k + 1][..k] == presets[..k];
        vcs := vcs + [ScaledPreset(id, presets[k])];
        k := k + 1;
      }
      assert presets[..k] == presets;
      StoreCommandFields(id, vc0, vc1, vc2);
      var reply := Exchange(line, "PROM" + JoinPairs(vcs));
      r := Discard(reply);
    }

    /** load_presets(): GETM, decoded as three presets. */
    method LoadPresets() returns (r: Result<seq<Setting>>)
      requires Valid()
      modifies line
      ensures line.written == old(line.written) + ["GETM" + "\r"]
      ensures line.incoming == Rest(old(line.incoming)) && line.isOpen == old(line.isOpen)
      ensures Reply(old(line.incoming)).Err? ==> r == Err(Reply(old(line.incoming)).error)
      ensures Reply(old(line.incoming)).Ok? ==> r == DecodePresets(id, Reply(old(line.incoming)).value)
    {
      var getm :- Exchange(line, "GETM");
      r := DecodePresets(id, getm);
    }

    /** use_preset(nbr): RUNM with the memory number saturated to 0..2. */
    method UsePreset(nbr: int) returns (r: Result<()>)
      modifies line
      ensures line.written == old(line.written) + [UsePresetCommand(nbr) + "\r"]
      ensures line.incoming == Rest(old(line.incoming)) && line.isOpen == old(line.isOpen)
      ensures r == Discard(Reply(old(line.incoming)))
    {
      var reply := Exchange(line, UsePresetCommand(nbr));
      r := Discard(reply);
    }

    /** The preset getter: GETS, decoded as one preset. */
    method Preset() returns (r: Result<Setting>)
      requires Valid()
      modifies line
      ensures line.written == old(line.written) + ["GETS" + "\r"]
      ensures line.incoming == Rest(old(line.incoming)) && line.isOpen == old(line.isOpen)
      ensures Reply(old(line.incoming)).Err? ==> r == Err(Reply(old(line.incoming)).error)
      ensures Reply(old(line.incoming)).Ok? ==> r == DecodePreset(id, Reply(old(line.incoming)).value)
    {
      var gets :- Exchange(line, "GETS");
      r := DecodePreset(id, gets);
    }

    /**
     * The preset setter: the preset voltage, then the preset current; when
     * the first exchange fails the second is not sent.
     */
    method SetPreset(s: Setting) returns (r: Result<()>)
      requires Valid()
      modifies line
      ensures var c := Converse(old(line.incoming), [PresetVoltageCommand(id, s.voltage), PresetCurrentCommand(id, s.current)]);
              && line.written == old(line.written) + c.sent
              && line.incoming == c.rest
              && line.isOpen == old(line.isOpen)
              && r == c.outcome
    {
      ghost var w, inp := line.written, line.incoming;
      r := SetPresetVoltage(s.voltage);
      Advance(w, inp, PresetVoltageCommand(id, s.voltage), [PresetCurrentCommand(id, s.current)]);
      if r.Ok? {
        w, inp := line.written, line.incoming;
        Single(inp, PresetCurrentCommand(id, s.current));
        r := SetPresetCurrent(s.current);
      }
    }

    /** The preset_voltage getter: GOVP, decoded. */
    method PresetVoltage() returns (r: Result<real>)
      modifies line
      ensures line.written == old(line.written) + ["GOVP" + "\r"]
      ensures line.incoming == Rest(old(line.incoming)) && line.isOpen == old(line.isOpen)
      ensures r == Decoded(Reply(old(line.incoming)), DecodePresetVoltage)
    {
      var govp :- Exchange(line, "GOVP");
      r := DecodePresetVoltage(govp);
    }

    /** The preset_voltage setter: SOVP with the voltage saturated at the supply's limits. */
    method SetPresetVoltage(v: real) returns (r: Result<()>)
      requires Valid()
      modifies line
      ensures line.written == old(line.written) + [PresetVoltageCommand(id, v) + "\r"]
      ensures line.incoming == Rest(old(line.incoming)) && line.isOpen == old(line.isOpen)
      ensures r == Discard(Reply(old(line.incoming)))
    {
      var reply := Exchange(line, PresetVoltageCommand(id, v));
      r := Discard(reply);
    }

    /** The preset_current getter: GOCP, decoded. */
    method PresetCurrent() returns (r: Result<real>)
      requires Valid()
      modifies line
      ensures line.written == old(line.written) + ["GOCP" + "\r"]
      ensures line.incoming == Rest(old(line.incoming)) && line.isOpen == old(line.isOpen)
      ensures Reply(old(line.incoming)).Err? ==> r == Err(Reply(old(line.incoming)).error)
      ensures Reply(old(line.incoming)).Ok? ==> r == DecodePresetCurrent(id, Reply(old(line.incoming)).value)
    {
      var gocp :- Exchange(line, "GOCP");
      r := DecodePresetCurrent(id, gocp);
    }

    /** The preset_current setter: SOCP with the current saturated at 0 and the supply's maximum. */
    method SetPresetCurrent(i: real) returns (r: Result<()>)
      requires Valid()
      modifies line
      ensures line.written == old(line.written) + [PresetCurrentCommand(id, i) + "\r"]
      ensures line.incoming == Rest(old(line.incoming)) && line.isOpen == old(line.isOpen)
      ensures r == Discard(Reply(old(line.incoming)))
    {
      var reply := Exchange(line, PresetCurrentCommand(id, i));
      r := Discard(reply);
    }
  }
}

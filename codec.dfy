/**
 * The text of the commands the driver sends and the reading of the replies
 * it gets back, for a supply whose identity is known.
 *
 * Voltages cross the wire in tenths of a volt, currents in units of
 * 1/imult amp, each as a three-digit field; GETD reports hundredths.
 */
module Codec {
  import opened Outcomes
  import opened Numeric
  import opened PyText
  import opened Identification

  /** Constant-voltage or constant-current regulation, as GETD reports it. */
  datatype Mode = CV | CC

  /** What reading() returns: volts, amps and the regulation mode. */
  datatype Reading = Reading(voltage: real, current: real, mode: Mode)

  /** A (voltage, current) pair in volts and amps, as the preset operations take and return it. */
  datatype Setting = Setting(voltage: real, current: real)

  /** A command made of a four-letter code and three digits that spell n. */
  predicate IsFieldCommand(cmd: string, code: string, n: int)
  {
    |cmd| == 7 && cmd[..4] == code && AllDigits(cmd[4..]) && DigitsValue(cmd[4..]) == n
  }

  /** code + '%03d' % n. */
  function FieldCommand(code: string, n: int): (cmd: string)
    requires |code| == 4 && 0 <= n < 1000
    ensures IsFieldCommand(cmd, code, n)
  {
    var f := Digits3(n);
    assert (code + f)[4..] == f;
    code + f
  }

  /** x * imult; a supply's current multiplier is 10 or 100. */
  function TimesImult(id: Identity, x: real): real
  {
    if id.imult == 100 then x * 100.0 else x * 10.0
  }

  /** n / 100: a GETD field in volts or amps. */
  function Hundredths(n: int): real
  {
    n as real / 100.0
  }

  /** n / 10: a voltage field in volts. */
  function Volts(n: int): real
  {
    n as real / 10.0
  }

  /** n / imult: a current field in amps. */
  function OverImult(id: Identity, n: int): real
  {
    if id.imult == 100 then n as real / 100.0 else n as real / 10.0
  }

  /* ---------------------------------------------------------------- output */

  /** output(state): the supply's SOUT flag is inverted, so SOUT1 switches the output off. */
  function OutputCommand(state: int): (cmd: string)
    ensures cmd == "SOUT1" <==> state == 0
    ensures cmd == "SOUT0" <==> state != 0
  {
    var flag := if state == 0 then 1 else 0;
    var cmd := "SOUT" + FormatD(flag);
    assert FormatD(flag) == [DigitChar(flag)];
    assert cmd[4] == DigitChar(flag) && "SOUT1"[4] == '1' && "SOUT0"[4] == '0';
    assert cmd == "SOUT" + [if state == 0 then '1' else '0'];
    cmd
  }

  /* --------------------------------------------------- voltage and current */

  /**
   * voltage(v): the VOLT field, int(v * 10) saturated at the supply's
   * minimum and maximum voltage.
   */
  function VoltageSetting(id: Identity, v: real): (n: int)
    requires Supported(id)
    ensures id.vmin <= n <= id.vmax
  {
    Clamp(id.vmin, Trunc(v * 10.0), id.vmax)
  }

  /**
   * voltage() honours a request that is within the supply's range, to the
   * tenth of a volt, and silently saturates one outside it.
   */
  lemma VoltageSaturates(id: Identity, v: real)
    requires Supported(id)
    ensures id.vmin <= Trunc(v * 10.0) <= id.vmax ==> VoltageSetting(id, v) == Trunc(v * 10.0)
    ensures Trunc(v * 10.0) <= id.vmin ==> VoltageSetting(id, v) == id.vmin
    ensures id.vmax <= Trunc(v * 10.0) ==> VoltageSetting(id, v) == id.vmax
  {
  }

  /**
   * Every request at or above the maximum sends the command of the maximum
   * itself, and every request at or below the minimum that of the minimum.
   */
  lemma VoltageCommandSaturates(id: Identity, v: real)
    requires Supported(id)
    ensures id.vmax <= Trunc(v * 10.0) ==> VoltageCommand(id, v) == VoltageCommand(id, id.vmax as real / 10.0)
    ensures Trunc(v * 10.0) <= id.vmin ==> VoltageCommand(id, v) == VoltageCommand(id, id.vmin as real / 10.0)
  {
    assert id.vmax as real / 10.0 * 10.0 == id.vmax as real;
    assert id.vmin as real / 10.0 * 10.0 == id.vmin as real;
    TruncOfInt(id.vmax);
    TruncOfInt(id.vmin);
  }

  /** The VOLT command voltage(v) sends. */
  function VoltageCommand(id: Identity, v: real): (cmd: string)
    requires Supported(id)
    ensures IsFieldCommand(cmd, "VOLT", VoltageSetting(id, v))
  {
    FieldCommand("VOLT", VoltageSetting(id, v))
  }

  /**
   * current(i): the CURR field, int(i * imult) saturated at 0 and at the
   * supply's maximum current.
   */
  function CurrentSetting(id: Identity, i: real): (n: int)
    requires Supported(id)
    ensures 0 <= n <= CurrentLimit(id)
  {
    Clamp(0, Trunc(TimesImult(id, i)), CurrentLimit(id))
  }

  /**
   * current() honours a request that is within the supply's range, to the
   * step of its current field, and silently saturates one outside it.
   */
  lemma CurrentSaturates(id: Identity, i: real)
    requires Supported(id)
    ensures 0 <= Trunc(TimesImult(id, i)) <= CurrentLimit(id) ==> CurrentSetting(id, i) == Trunc(TimesImult(id, i))
    ensures Trunc(TimesImult(id, i)) <= 0 ==> CurrentSetting(id, i) == 0
    ensures CurrentLimit(id) <= Trunc(TimesImult(id, i)) ==> CurrentSetting(id, i) == CurrentLimit(id)
  {
  }

  /** The CURR command current(i) sends. */
  function CurrentCommand(id: Identity, i: real): (cmd: string)
    requires Supported(id)
    ensures IsFieldCommand(cmd, "CURR", CurrentSetting(id, i))
  {
    FieldCommand("CURR", CurrentSetting(id, i))
  }

  /* --------------------------------------------------------------- presets */

  /** The maximum current in amps, scaled by imult, is the largest current field. */
  lemma CurrentLimitScaled(id: Identity)
    requires Supported(id)
    ensures TimesImult(id, id.imax as real / 100.0) == CurrentLimit(id) as real
  {
    if id.imult == 10 {
      assert CurrentLimit(id) * 10 == id.imax;
    }
  }

  /** min(max(vmin, v), vmax) * 10: the voltage of a preset, clamped in volts then scaled. */
  function ScaledVoltage(id: Identity, v: real): real
  {
    ClampReal(id.vmin as real / 10.0, v, id.vmax as real / 10.0) * 10.0
  }

  /** min(max(0, i), imax) * imult: the current of a preset, clamped in amps then scaled. */
  function ScaledCurrent(id: Identity, i: real): real
  {
    TimesImult(id, ClampReal(0.0, i, id.imax as real / 100.0))
  }

  /**
   * The SOVP field preset_voltage = v writes. It clamps before truncating,
   * where voltage() truncates first, yet both write the same field.
   */
  function PresetVoltageSetting(id: Identity, v: real): (n: int)
    requires Supported(id)
    ensures n == VoltageSetting(id, v)
  {
    ScaleClamp(id.vmin as real / 10.0, v, id.vmax as real / 10.0, 10.0);
    ClampOrdersAgree(id.vmin, v * 10.0, id.vmax);
    Trunc(ScaledVoltage(id, v))
  }

  /**
   * The SOCP field preset_current = i writes. It clamps in amps before
   * scaling and truncating, where current() scales and truncates first, yet
   * both write the same field.
   */
  function PresetCurrentSetting(id: Identity, i: real): (n: int)
    requires Supported(id)
    ensures n == CurrentSetting(id, i)
  {
    ScaleClamp(0.0, i, id.imax as real / 100.0, if id.imult == 100 then 100.0 else 10.0);
    CurrentLimitScaled(id);
    ClampOrdersAgree(0, TimesImult(id, i), CurrentLimit(id));
    Trunc(ScaledCurrent(id, i))
  }

  /** The SOVP command preset_voltage = v sends. */
  function PresetVoltageCommand(id: Identity, v: real): (cmd: string)
    requires Supported(id)
    ensures IsFieldCommand(cmd, "SOVP", VoltageSetting(id, v))
  {
    FieldCommand("SOVP", PresetVoltageSetting(id, v))
  }

  /** The SOCP command preset_current = i sends. */
  function PresetCurrentCommand(id: Identity, i: real): (cmd: string)
    requires Supported(id)
    ensures IsFieldCommand(cmd, "SOCP", CurrentSetting(id, i))
  {
    FieldCommand("SOCP", PresetCurrentSetting(id, i))
  }

  /** The pair store_presets computes for one preset before formatting it. */
  function ScaledPreset(id: Identity, s: Setting): (real, real)
  {
    (ScaledVoltage(id, s.voltage), ScaledCurrent(id, s.current))
  }

  /** '%03d%03d' % p: each number of the pair truncated and written in three digits. */
  function FormatPair(p: (real, real)): string
  {
    Format03(Trunc(p.0)) + Format03(Trunc(p.1))
  }

  /** "".join of FormatPair over a list of pairs. */
  function JoinPairs(vcs: seq<(real, real)>): (r: string)
    ensures (forall k :: 0 <= k < |vcs| ==> 0 <= Trunc(vcs[k].0) < 1000 && 0 <= Trunc(vcs[k].1) < 1000) ==>
              |r| == 6 * |vcs| && AllDigits(r)
  {
    if vcs == [] then "" else JoinPairs(vcs[..|vcs| - 1]) + FormatPair(vcs[|vcs| - 1])
  }

  /** The first six characters of f are a voltage field and a current field spelling those of s. */
  predicate SpellsSetting(id: Identity, f: string, s: Setting)
    requires Supported(id)
  {
    && 6 <= |f| && AllDigits(f[0..3]) && AllDigits(f[3..6])
    && DigitsValue(f[0..3]) == VoltageSetting(id, s.voltage)
    && DigitsValue(f[3..6]) == CurrentSetting(id, s.current)
  }

  /**
   * The six digits one preset occupies in the PROM command: the fields
   * voltage() and current() would send for it, back to back.
   */
  function PresetField(id: Identity, s: Setting): (f: string)
    requires Supported(id)
    ensures |f| == 6 && SpellsSetting(id, f, s)
  {
    var a, b := Format03(VoltageSetting(id, s.voltage)), Format03(CurrentSetting(id, s.current));
    assert (a + b)[0..3] == a && (a + b)[3..6] == b;
    a + b
  }

  /**
   * store_presets clamps each preset in volts and amps, scales it and lets
   * '%03d' truncate; the digits it writes are the preset's field all the same.
   */
  lemma FormatPairIsPresetField(id: Identity, s: Setting)
    requires Supported(id)
    ensures FormatPair(ScaledPreset(id, s)) == PresetField(id, s)
  {
    assert Trunc(ScaledVoltage(id, s.voltage)) == PresetVoltageSetting(id, s.voltage);
    assert Trunc(ScaledCurrent(id, s.current)) == PresetCurrentSetting(id, s.current);
  }

  /** The list of pairs store_presets builds, one per preset, in order. */
  function ScaledPresets(id: Identity, presets: seq<Setting>): (vcs: seq<(real, real)>)
    ensures |vcs| == |presets|
    ensures forall k :: 0 <= k < |presets| ==> vcs[k] == ScaledPreset(id, presets[k])
  {
    if presets == [] then []
    else ScaledPresets(id, presets[..|presets| - 1]) + [ScaledPreset(id, presets[|presets| - 1])]
  }

  /** The PROM command store_presets(VC0, VC1, VC2) sends. */
  function StoreCommand(id: Identity, presets: seq<Setting>): (cmd: string)
    ensures |cmd| >= 4 && cmd[..4] == "PROM"
    ensures Supported(id) ==> |cmd| == 4 + 6 * |presets| && AllDigits(cmd[4..])
  {
    var vcs := ScaledPresets(id, presets);
    assert Supported(id) ==> forall k :: 0 <= k < |vcs| ==> 0 <= Trunc(vcs[k].0) < 1000 && 0 <= Trunc(vcs[k].1) < 1000 by {
      if Supported(id) {
        forall k | 0 <= k < |vcs|
          ensures 0 <= Trunc(vcs[k].0) < 1000 && 0 <= Trunc(vcs[k].1) < 1000
        {
          assert Trunc(vcs[k].0) == PresetVoltageSetting(id, presets[k].voltage);
          assert Trunc(vcs[k].1) == PresetCurrentSetting(id, presets[k].current);
        }
      }
    }
    assert ("PROM" + JoinPairs(vcs))[4..] == JoinPairs(vcs);
    "PROM" + JoinPairs(vcs)
  }

  /** Joining three pairs is formatting each of them, in order. */
  lemma JoinThree(a: (real, real), b: (real, real), c: (real, real))
    ensures JoinPairs([a, b, c]) == FormatPair(a) + FormatPair(b) + FormatPair(c)
  {
    assert [a][..0] == [] && [a, b][..1] == [a] && [a, b, c][..2] == [a, b];
    assert JoinPairs([a]) == FormatPair(a);
    assert JoinPairs([a, b]) == JoinPairs([a]) + FormatPair(b);
  }

  /** The PROM command is the three presets' fields back to back, with no separator. */
  lemma StoreCommandFields(id: Identity, p0: Setting, p1: Setting, p2: Setting)
    requires Supported(id)
    ensures StoreCommand(id, [p0, p1, p2]) == "PROM" + PresetField(id, p0) + PresetField(id, p1) + PresetField(id, p2)
  {
    var vcs := ScaledPresets(id, [p0, p1, p2]);
    assert vcs == [ScaledPreset(id, p0), ScaledPreset(id, p1), ScaledPreset(id, p2)];
    JoinThree(ScaledPreset(id, p0), ScaledPreset(id, p1), ScaledPreset(id, p2));
    FormatPairIsPresetField(id, p0);
    FormatPairIsPresetField(id, p1);
    FormatPairIsPresetField(id, p2);
    Regroup("PROM", PresetField(id, p0) + PresetField(id, p1), PresetField(id, p2));
    Regroup("PROM", PresetField(id, p0), PresetField(id, p1));
  }

  /** What a preset reads back as once stored: its fields scaled back to volts and amps. */
  function Quantize(id: Identity, s: Setting): (q: Setting)
    requires Supported(id)
    ensures id.vmin as real / 10.0 <= q.voltage <= id.vmax as real / 10.0
    ensures 0.0 <= q.current <= id.imax as real / 100.0
  {
    CurrentLimitScaled(id);
    Setting(Volts(VoltageSetting(id, s.voltage)), OverImult(id, CurrentSetting(id, s.current)))
  }

  /** Storing a preset that was read back stores it unchanged. */
  lemma QuantizeIdempotent(id: Identity, s: Setting)
    requires Supported(id)
    ensures Quantize(id, Quantize(id, s)) == Quantize(id, s)
    ensures PresetField(id, Quantize(id, s)) == PresetField(id, s)
  {
    var q := Quantize(id, s);
    var n, c := VoltageSetting(id, s.voltage), CurrentSetting(id, s.current);
    assert q.voltage * 10.0 == n as real;
    TruncOfInt(n);
    assert TimesImult(id, q.current) == c as real;
    TruncOfInt(c);
  }

  /** use_preset(nbr): the memory number is saturated to 0..2 and sent as one digit. */
  function UsePresetCommand(nbr: int): (cmd: string)
    ensures |cmd| == 5 && cmd[..4] == "RUNM" && IsDigit(cmd[4])
    ensures DigitValue(cmd[4]) == Clamp(0, nbr, 2)
    ensures 0 <= nbr <= 2 ==> DigitValue(cmd[4]) == nbr
  {
    var n := Clamp(0, nbr, 2);
    assert FormatD(n) == [DigitChar(n)];
    "RUNM" + FormatD(n)
  }

  /* -------------------------------------------------------------- decoders */

  /** int(s[i:j]). */
  function Field(s: string, i: nat, j: nat): (r: Option<int>)
    ensures j <= i ==> r == None
  {
    PyInt(Slice(s, i, j))
  }

  /** A run of n digits at offset i is read as the number it spells. */
  lemma FieldAt(s: string, i: nat, n: nat)
    requires 1 <= n && i + n <= |s| && AllDigits(s[i..i + n])
    ensures Field(s, i, i + n) == Some(DigitsValue(s[i..i + n]))
  {
    PyIntOfDigits(s[i..i + n]);
  }

  /**
   * reading(): characters 0-3 of the GETD reply are the voltage and 4-7 the
   * current, both in hundredths; character 8 is the mode, CC when it reads
   * as a non-zero number. A reply too short to have character 8 raises
   * IndexError.
   */
  function DecodeReading(getd: string): (r: Result<Reading>)
    ensures r.Err? ==> r.error == BadNumber || r.error == ShortReply
    ensures r.Ok? ==> 9 <= |getd|
    ensures r.Ok? ==> Field(getd, 0, 4).Some? && Field(getd, 4, 8).Some?
  {
    match Field(getd, 0, 4)
    case None => Err(BadNumber)
    case Some(v) =>
      match Field(getd, 4, 8)
      case None => Err(BadNumber)
      case Some(c) =>
        if |getd| <= 8 then Err(ShortReply)
        else
          match PyInt([getd[8]])
          case None => Err(BadNumber)
          case Some(m) => Ok(Reading(Hundredths(v), Hundredths(c), if m != 0 then CC else CV))
  }

  /** How a GETD reply whose fields all read as numbers is decoded. */
  lemma DecodeReadingOf(getd: string, v: int, c: int, m: int)
    requires Field(getd, 0, 4) == Some(v) && Field(getd, 4, 8) == Some(c)
    requires 8 < |getd| && PyInt([getd[8]]) == Some(m)
    ensures DecodeReading(getd) == Ok(Reading(Hundredths(v), Hundredths(c), if m != 0 then CC else CV))
  {
  }

  /** A GETD reply of two four-digit fields and a mode digit reads back as those numbers. */
  lemma ReadingRoundTrip(v: nat, c: nat, m: nat, tail: string)
    requires v < 10000 && c < 10000 && m < 10
    ensures DecodeReading(Fixed(v, 4) + Fixed(c, 4) + Fixed(m, 1) + tail)
         == Ok(Reading(Hundredths(v), Hundredths(c), if m == 0 then CV else CC))
  {
    var fv, fc, fm := Fixed(v, 4), Fixed(c, 4), Fixed(m, 1);
    var g := fv + fc + fm + tail;
    assert g[0..4] == fv && g[4..8] == fc && [g[8]] == fm;
    FieldAt(g, 0, 4);
    FieldAt(g, 4, 4);
    PyIntOfDigits(fm);
    DecodeReadingOf(g, v, c, m);
  }

  /** A GETD reply that stops after a four-digit voltage and a four-digit current. */
  lemma ShortReadingOfDigits(fv: string, fc: string)
    requires |fv| == 4 && |fc| == 4 && AllDigits(fv) && AllDigits(fc)
    ensures DecodeReading(fv + fc) == Err(ShortReply)
  {
    var g := fv + fc;
    assert g[0..4] == fv && g[4..8] == fc;
    FieldAt(g, 0, 4);
    FieldAt(g, 4, 4);
  }

  /** A GETD reply that stops after the current field raises IndexError. */
  lemma ReadingTooShort(v: nat, c: nat)
    requires v < 10000 && c < 10000
    ensures DecodeReading(Fixed(v, 4) + Fixed(c, 4)) == Err(ShortReply)
  {
    ShortReadingOfDigits(Fixed(v, 4), Fixed(c, 4));
  }

  /** A voltage field and a current field, scaled back to volts and amps. */
  function FieldsSetting(id: Identity, s: string, i: nat): (r: Result<Setting>)
    requires Supported(id)
    ensures r.Ok? <==> Field(s, i, i + 3).Some? && Field(s, i + 3, i + 6).Some?
    ensures r.Err? ==> r.error == BadNumber
  {
    match Field(s, i, i + 3)
    case None => Err(BadNumber)
    case Some(v) =>
      match Field(s, i + 3, i + 6)
      case None => Err(BadNumber)
      case Some(c) => Ok(Setting(Volts(v), OverImult(id, c)))
  }

  /** How a voltage field and a current field that read as numbers are decoded. */
  lemma FieldsSettingIs(id: Identity, s: string, i: nat, v: int, c: int)
    requires Supported(id)
    requires Field(s, i, i + 3) == Some(v) && Field(s, i + 3, i + 6) == Some(c)
    ensures FieldsSetting(id, s, i) == Ok(Setting(Volts(v), OverImult(id, c)))
  {
  }

  /** Text found at offset i that int() reads as n makes that field read as n. */
  lemma FieldIs(g: string, i: nat, f: string, n: int)
    requires i + |f| <= |g| && g[i..i + |f|] == f && PyInt(f) == Some(n)
    ensures Field(g, i, i + |f|) == Some(n)
  {
  }

  /** Two three-digit fields spelling v and c at the start of g read back as a setting. */
  lemma PairReads(id: Identity, g: string, v: int, c: int)
    requires Supported(id)
    requires 6 <= |g| && AllDigits(g[0..3]) && AllDigits(g[3..6])
    requires DigitsValue(g[0..3]) == v && DigitsValue(g[3..6]) == c
    ensures FieldsSetting(id, g, 0) == Ok(Setting(Volts(v), OverImult(id, c)))
  {
    FieldAt(g, 0, 3);
    FieldAt(g, 3, 3);
    FieldsSettingIs(id, g, 0, v, c);
  }

  /** Text that starts with the fields of s reads back as s, quantised. */
  lemma SettingReads(id: Identity, g: string, s: Setting)
    requires Supported(id) && SpellsSetting(id, g, s)
    ensures FieldsSetting(id, g, 0) == Ok(Quantize(id, s))
  {
    PairReads(id, g, VoltageSetting(id, s.voltage), CurrentSetting(id, s.current));
  }

  /** Whatever follows the fields of s does not change them. */
  lemma SpellsSettingPrefix(id: Identity, f: string, tail: string, s: Setting)
    requires Supported(id) && SpellsSetting(id, f, s)
    ensures SpellsSetting(id, f + tail, s)
  {
    assert (f + tail)[0..3] == f[0..3] && (f + tail)[3..6] == f[3..6];
  }

  /** Six characters found at offset i are decoded as they would be on their own. */
  lemma FieldsSettingShift(id: Identity, g: string, i: nat, f: string)
    requires Supported(id)
    requires |f| == 6 && i + 6 <= |g| && g[i..i + 6] == f
    ensures FieldsSetting(id, g, i) == FieldsSetting(id, f, 0)
  {
    assert Slice(g, i, i + 3) == Slice(f, 0, 3);
    assert Slice(g, i + 3, i + 6) == Slice(f, 3, 6);
  }

  /** A preset's six digits read back as the preset, quantised. */
  lemma PresetFieldReads(id: Identity, p: Setting)
    requires Supported(id)
    ensures FieldsSetting(id, PresetField(id, p), 0) == Ok(Quantize(id, p))
  {
    SettingReads(id, PresetField(id, p), p);
  }

  /**
   * load_presets(): the GETM reply holds the three presets at offsets 0, 7
   * and 14, each a voltage field then a current field; the character between
   * two presets is skipped.
   */
  function DecodePresets(id: Identity, getm: string): (r: Result<seq<Setting>>)
    requires Supported(id)
    ensures r.Ok? ==> |r.value| == 3
    ensures r.Err? ==> r.error == BadNumber
  {
    var p0 :- FieldsSetting(id, getm, 0);
    var p1 :- FieldsSetting(id, getm, 7);
    var p2 :- FieldsSetting(id, getm, 14);
    Ok([p0, p1, p2])
  }

  /** Three six-character fields separated by one character each are decoded as they would be on their own. */
  lemma ThreeFieldsAt(id: Identity, getm: string, f0: string, f1: string, f2: string, s1: char, s2: char, tail: string)
    requires Supported(id)
    requires |f0| == 6 && |f1| == 6 && |f2| == 6
    requires getm == f0 + [s1] + f1 + [s2] + f2 + tail
    ensures FieldsSetting(id, getm, 0) == FieldsSetting(id, f0, 0)
    ensures FieldsSetting(id, getm, 7) == FieldsSetting(id, f1, 0)
    ensures FieldsSetting(id, getm, 14) == FieldsSetting(id, f2, 0)
  {
    assert getm[0..6] == f0 && getm[7..13] == f1 && getm[14..20] == f2;
    FieldsSettingShift(id, getm, 0, f0);
    FieldsSettingShift(id, getm, 7, f1);
    FieldsSettingShift(id, getm, 14, f2);
  }

  /**
   * What store_presets writes is what load_presets reads back, quantised to
   * the supply's steps, whatever separates the presets in the GETM reply.
   */
  lemma StoreThenLoad(id: Identity, p0: Setting, p1: Setting, p2: Setting, s1: char, s2: char, tail: string)
    requires Supported(id)
    ensures var getm := PresetField(id, p0) + [s1] + PresetField(id, p1) + [s2] + PresetField(id, p2) + tail;
            DecodePresets(id, getm) == Ok([Quantize(id, p0), Quantize(id, p1), Quantize(id, p2)])
  {
    StoreThenLoadOf(id, p0, p1, p2, PresetField(id, p0), PresetField(id, p1), PresetField(id, p2), s1, s2, tail);
  }

  /** A GETM reply whose three six-character fields spell three presets reads back as those presets, quantised. */
  lemma StoreThenLoadOf(id: Identity, p0: Setting, p1: Setting, p2: Setting, f0: string, f1: string, f2: string, s1: char, s2: char, tail: string)
    requires Supported(id)
    requires |f0| == 6 && |f1| == 6 && |f2| == 6
    requires SpellsSetting(id, f0, p0) && SpellsSetting(id, f1, p1) && SpellsSetting(id, f2, p2)
    ensures DecodePresets(id, f0 + [s1] + f1 + [s2] + f2 + tail) == Ok([Quantize(id, p0), Quantize(id, p1), Quantize(id, p2)])
  {
    SettingReads(id, f0, p0);
    SettingReads(id, f1, p1);
    SettingReads(id, f2, p2);
    ThreeFieldsAt(id, f0 + [s1] + f1 + [s2] + f2 + tail, f0, f1, f2, s1, s2, tail);
  }

  /** The preset getter: GETS holds the active preset's voltage field then its current field. */
  function DecodePreset(id: Identity, gets: string): (r: Result<Setting>)
    requires Supported(id)
    ensures r.Err? ==> r.error == BadNumber
  {
    FieldsSetting(id, gets, 0)
  }

  /** The preset setter writes the preset's field: its voltage half with SOVP, then its current half with SOCP. */
  lemma SetterWritesField(id: Identity, s: Setting)
    requires Supported(id)
    ensures PresetVoltageCommand(id, s.voltage) == "SOVP" + PresetField(id, s)[0..3]
    ensures PresetCurrentCommand(id, s.current) == "SOCP" + PresetField(id, s)[3..6]
  {
    var f := PresetField(id, s);
    FieldCommandIs(PresetVoltageCommand(id, s.voltage), "SOVP", f[0..3]);
    FieldCommandIs(PresetCurrentCommand(id, s.current), "SOCP", f[3..6]);
  }

  /** A field command is its code followed by the one three-digit field that spells its number. */
  lemma FieldCommandIs(cmd: string, code: string, f: string)
    requires |f| == 3 && AllDigits(f) && IsFieldCommand(cmd, code, DigitsValue(f))
    ensures cmd == code + f
  {
    ThreeDigitsUnique(cmd[4..], f);
    assert cmd == cmd[..4] + cmd[4..];
  }

  /** A GETS reply holding a preset's field reads back as the preset, quantised. */
  lemma PresetReadBack(id: Identity, s: Setting, tail: string)
    requires Supported(id)
    ensures DecodePreset(id, PresetField(id, s) + tail) == Ok(Quantize(id, s))
  {
    SpellsSettingPrefix(id, PresetField(id, s), tail, s);
    SettingReads(id, PresetField(id, s) + tail, s);
  }

  /** A three-digit field spelling n, then anything, reads as n. */
  lemma LeadingField(f: string, tail: string, n: int)
    requires |f| == 3 && AllDigits(f) && DigitsValue(f) == n
    ensures Field(f + tail, 0, 3) == Some(n)
  {
    assert (f + tail)[0..3] == f;
    FieldAt(f + tail, 0, 3);
  }

  /** preset_voltage: GOVP holds the preset voltage in tenths of a volt. */
  function DecodePresetVoltage(govp: string): (r: Result<real>)
    ensures r.Err? ==> r.error == BadNumber
  {
    match Field(govp, 0, 3)
    case None => Err(BadNumber)
    case Some(v) => Ok(Volts(v))
  }

  /** The field of a command that writes n, then anything, is read by preset_voltage as n tenths of a volt. */
  lemma VoltageFieldReads(cmd: string, code: string, tail: string, n: int)
    requires IsFieldCommand(cmd, code, n)
    ensures DecodePresetVoltage(cmd[4..] + tail) == Ok(Volts(n))
  {
    LeadingField(cmd[4..], tail, n);
  }

  /** The SOVP field reads back through GOVP as the voltage, truncated to tenths and saturated. */
  lemma PresetVoltageReadBack(id: Identity, v: real, tail: string)
    requires Supported(id)
    ensures DecodePresetVoltage(PresetVoltageCommand(id, v)[4..] + tail) == Ok(Volts(VoltageSetting(id, v)))
  {
    VoltageFieldReads(PresetVoltageCommand(id, v), "SOVP", tail, VoltageSetting(id, v));
  }

  /** preset_current: GOCP holds the preset current in units of 1/imult amp. */
  function DecodePresetCurrent(id: Identity, gocp: string): (r: Result<real>)
    requires Supported(id)
    ensures r.Err? ==> r.error == BadNumber
  {
    match Field(gocp, 0, 3)
    case None => Err(BadNumber)
    case Some(c) => Ok(OverImult(id, c))
  }

  /** The field of a command that writes n, then anything, is read by preset_current as n steps of 1/imult amp. */
  lemma CurrentFieldReads(id: Identity, cmd: string, code: string, tail: string, n: int)
    requires Supported(id) && IsFieldCommand(cmd, code, n)
    ensures DecodePresetCurrent(id, cmd[4..] + tail) == Ok(OverImult(id, n))
  {
    LeadingField(cmd[4..], tail, n);
  }

  /** The SOCP field reads back through GOCP as the current, truncated to steps of 1/imult amp and saturated. */
  lemma PresetCurrentReadBack(id: Identity, i: real, tail: string)
    requires Supported(id)
    ensures DecodePresetCurrent(id, PresetCurrentCommand(id, i)[4..] + tail) == Ok(OverImult(id, CurrentSetting(id, i)))
  {
    CurrentFieldReads(id, PresetCurrentCommand(id, i), "SOCP", tail, CurrentSetting(id, i));
  }
}

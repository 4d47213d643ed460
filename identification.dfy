/**
 * Device identification: the model table keyed on the maximum voltage and
 * current a supply reports, the minimum-voltage table, and how the GMAX
 * reply is read.
 */
module Identification {
  import opened Outcomes
  import opened PyText

  /** The model names the tables use. */
  datatype Model =
    | PPS11810 | PPS11360 | PPS11603 | PPS13610 | PPS16005
    | PPS11815 | DPPS3220 | DPPS3230 | DPPS6010 | DPPS1640
  {
    /** The model number as the driver reports it. */
    function Name(): string
    {
      match this
      case PPS11810 => "PPS11810"
      case PPS11360 => "PPS11360"
      case PPS11603 => "PPS11603"
      case PPS13610 => "PPS13610"
      case PPS16005 => "PPS16005"
      case PPS11815 => "PPS11815"
      case DPPS3220 => "DPPS3220"
      case DPPS3230 => "DPPS3230"
      case DPPS6010 => "DPPS6010"
      case DPPS1640 => "DPPS1640"
    }
  }

  /**
   * PPS_MODELS[(vmax, imax)], with vmax in decivolts and imax in centiamps;
   * None where the dictionary has no entry (a KeyError).
   */
  function ModelOf(vmax: int, imax: int): (m: Option<Model>)
    ensures m.Some? ==> 0 <= vmax <= 999 && 0 <= imax <= 9990 && imax % 10 == 0
  {
    match (vmax, imax)
    case (180, 1000) => Some(PPS11810)
    case (362, 700) => Some(PPS11360)
    case (600, 250) => Some(PPS11603)
    case (182, 2200) => Some(PPS13610)
    case (362, 1200) => Some(PPS16005)
    case (600, 500) => Some(PPS11815)
    case (182, 1200) => Some(PPS11810)
    case (322, 2150) => Some(DPPS3220)
    case (322, 3150) => Some(DPPS3230)
    case (605, 1100) => Some(DPPS6010)
    case (162, 4300) => Some(DPPS1640)
    case _ => None
  }

  /**
   * PPS_MIN_VOLTAGE[model], in decivolts. The dictionary has an entry for
   * every model the model table names, none above 1 V.
   */
  function MinVoltageOf(model: Model): (v: Option<int>)
    ensures v.Some? && 0 <= v.value <= 10
  {
    match model
    case PPS11810 => Some(0)
    case PPS11360 => Some(8)
    case PPS11603 => Some(0)
    case PPS13610 => Some(0)
    case PPS16005 => Some(8)
    case PPS11815 => Some(0)
    case DPPS3220 => Some(8)
    case DPPS3230 => Some(8)
    case DPPS6010 => Some(0)
    case DPPS1640 => Some(10)
  }

  /** The reply of the one supply whose current field counts in hundredths of an amp. */
  const WIDE_CURRENT_REPLY: string := "362700"

  /**
   * What identification establishes: the current multiplier (10 or 100),
   * the maximum voltage (decivolts), the maximum current (centiamps), the
   * model and the minimum voltage (decivolts).
   */
  datatype Identity = Identity(imult: int, vmax: int, imax: int, model: Model, vmin: int)

  /**
   * int(imax * imult): the largest current field the supply accepts. With
   * imax in centiamps and imult 10 or 100 this is imax / 10 or imax.
   */
  function CurrentLimit(id: Identity): int
  {
    if id.imult == 100 then id.imax else id.imax / 10
  }

  /** An identity that the GMAX reply of some supply yields. */
  predicate Identified(id: Identity)
  {
    && ModelOf(id.vmax, id.imax) == Some(id.model)
    && MinVoltageOf(id.model) == Some(id.vmin)
    && (id.imult == 10 || id.imult == 100)
    && (id.imult == 100 ==> (id.vmax, id.imax) == (362, 700))
    && id.imax % 10 == 0
  }

  /**
   * Facts about every entry of the model table: its model has a minimum
   * voltage, the minimum is below the maximum, and no entry has the 70 A
   * limit whose tenths-of-an-amp field would read like the wide reply's.
   */
  lemma TableInvariants(vmax: int, imax: int)
    requires ModelOf(vmax, imax).Some?
    ensures MinVoltageOf(ModelOf(vmax, imax).value).Some?
    ensures 0 <= MinVoltageOf(ModelOf(vmax, imax).value).value <= vmax <= 999
    ensures imax != 7000
  {
  }

  /**
   * The limits the command encoders rely on: the multiplier is 10 or 100,
   * 0 <= vmin <= vmax <= 999, and the maximum current is a whole number of
   * tenths of an amp whose field fits three digits.
   */
  predicate Supported(id: Identity)
  {
    && (id.imult == 10 || id.imult == 100)
    && 0 <= id.vmin <= id.vmax <= 999
    && 0 <= id.imax && id.imax % 10 == 0
    && 0 <= CurrentLimit(id) <= 999
  }

  /**
   * Every identified supply has 0 <= vmin <= vmax <= 999 and a current limit
   * in 0..999, so every voltage or current field it is sent fits three digits.
   */
  lemma IdentifiedBounds(id: Identity)
    requires Identified(id)
    ensures Supported(id)
    ensures 0 <= id.vmin <= id.vmax <= 999
    ensures 0 <= CurrentLimit(id) <= 999 && CurrentLimit(id) * 100 == id.imax * id.imult
    ensures id.imult == 10 ==> CurrentLimit(id) != 700
  {
    TableInvariants(id.vmax, id.imax);
  }

  /** int() of the two three-character fields of a six-digit reply. */
  lemma Reads3(g: string)
    requires |g| == 6 && AllDigits(g)
    ensures PyInt(Slice(g, 0, 3)) == Some(100 * DigitValue(g[0]) + 10 * DigitValue(g[1]) + DigitValue(g[2]))
    ensures PyInt(Slice(g, 3, 6)) == Some(100 * DigitValue(g[3]) + 10 * DigitValue(g[4]) + DigitValue(g[5]))
  {
    Read3(g[0..3]);
    Read3(g[3..6]);
  }

  /** int() of one three-digit field. */
  lemma Read3(a: string)
    requires |a| == 3 && AllDigits(a)
    ensures PyInt(a) == Some(100 * DigitValue(a[0]) + 10 * DigitValue(a[1]) + DigitValue(a[2]))
  {
    PyIntOfDigits(a);
    ThreeDigits(a);
  }

  /** The two fields of the wide-current reply. */
  lemma WideReplyFields()
    ensures PyInt(Slice(WIDE_CURRENT_REPLY, 0, 3)) == Some(362)
    ensures PyInt(Slice(WIDE_CURRENT_REPLY, 3, 6)) == Some(700)
  {
    Reads3(WIDE_CURRENT_REPLY);
  }

  /**
   * The table lookups of PPS.__init__ once the reply has been read as a
   * voltage field and a raw current field in units of 1/imult A.
   */
  function Lookup(imult: int, vmax: int, raw: int): (r: Result<Identity>)
    requires imult == 10 || imult == 100
    ensures r.Ok? ==> r.value.imult == imult && r.value.vmax == vmax && CurrentLimit(r.value) == raw
    ensures r.Ok? ==> r.value.imax == (if imult == 100 then raw else raw * 10) && r.value.imax % 10 == 0
    ensures r.Ok? ==> ModelOf(r.value.vmax, r.value.imax) == Some(r.value.model)
    ensures r.Ok? ==> MinVoltageOf(r.value.model) == Some(r.value.vmin)
    ensures r.Ok? <==> ModelOf(vmax, if imult == 100 then raw else raw * 10).Some?
    ensures r.Err? ==> r.error == UnknownModel
  {
    // raw / imult amps, in centiamps
    var imax := if imult == 100 then raw else raw * 10;
    match ModelOf(vmax, imax)
    case None => Err(UnknownModel)
    case Some(model) =>
      TableInvariants(vmax, imax);
      assert imult == 10 ==> imax / 10 == raw;
      match MinVoltageOf(model)
      case None => Err(UnknownMinVoltage)
      case Some(vmin) => Ok(Identity(imult, vmax, imax, model, vmin))
  }

  /**
   * PPS.__init__ after the GMAX exchange: the multiplier is 100 only for the
   * literal reply "362700"; characters 0-2 give the voltage in decivolts and
   * characters 3-5 the current in units of 1/imult A; the pair must be in
   * the model table, and the model in the minimum-voltage table.
   */
  function Identify(gmax: string): (r: Result<Identity>)
    ensures r.Ok? ==> Identified(r.value)
    ensures r.Ok? ==> (r.value.imult == 100 <==> gmax == WIDE_CURRENT_REPLY)
    ensures r.Ok? ==> PyInt(Slice(gmax, 0, 3)) == Some(r.value.vmax)
    ensures r.Ok? ==> PyInt(Slice(gmax, 3, 6)) == Some(CurrentLimit(r.value))
    ensures r.Err? ==> r.error == BadNumber || r.error == UnknownModel
    ensures r == Err(BadNumber) <==> PyInt(Slice(gmax, 0, 3)).None? || PyInt(Slice(gmax, 3, 6)).None?
  {
    var imult := if gmax == WIDE_CURRENT_REPLY then 100 else 10;
    match PyInt(Slice(gmax, 0, 3))
    case None => Err(BadNumber)
    case Some(vmax) =>
      match PyInt(Slice(gmax, 3, 6))
      case None => Err(BadNumber)
      case Some(raw) =>
        WideReplyFields();
        Lookup(imult, vmax, raw)
  }

  /** How a reply whose two fields read as numbers is identified. */
  lemma IdentifyOfFields(gmax: string, vmax: int, raw: int)
    requires PyInt(Slice(gmax, 0, 3)) == Some(vmax) && PyInt(Slice(gmax, 3, 6)) == Some(raw)
    ensures Identify(gmax) == Lookup(if gmax == WIDE_CURRENT_REPLY then 100 else 10, vmax, raw)
  {
  }

  /** The GMAX reply a supply with this identity sends: '%03d%03d' % (vmax, imax * imult). */
  function GmaxReply(id: Identity): (g: string)
    ensures 0 <= id.vmax < 1000 && 0 <= CurrentLimit(id) < 1000 ==>
              |g| == 6 && AllDigits(g) && DigitsValue(g[..3]) == id.vmax && DigitsValue(g[3..]) == CurrentLimit(id)
  {
    var v, c := Format03(id.vmax), Format03(CurrentLimit(id));
    assert (v + c)[..|v|] == v && (v + c)[|v|..] == c;
    v + c
  }

  /** The wide-current reply, digit by digit. */
  lemma WideReplyDigits()
    ensures |WIDE_CURRENT_REPLY| == 6 && AllDigits(WIDE_CURRENT_REPLY)
    ensures WIDE_CURRENT_REPLY == WIDE_CURRENT_REPLY[0..3] + WIDE_CURRENT_REPLY[3..6]
    ensures DigitsValue(WIDE_CURRENT_REPLY[0..3]) == 362 && DigitsValue(WIDE_CURRENT_REPLY[3..6]) == 700
  {
    ThreeDigits(WIDE_CURRENT_REPLY[0..3]);
    ThreeDigits(WIDE_CURRENT_REPLY[3..6]);
  }

  /** The fields of a supply's own reply read back as its limits. */
  lemma GmaxReplyFields(id: Identity)
    requires Identified(id)
    ensures PyInt(Slice(GmaxReply(id), 0, 3)) == Some(id.vmax)
    ensures PyInt(Slice(GmaxReply(id), 3, 6)) == Some(CurrentLimit(id))
  {
    IdentifiedBounds(id);
    var v, c := Format03(id.vmax), Format03(CurrentLimit(id));
    var g := v + c;
    assert Slice(g, 0, 3) == v && Slice(g, 3, 6) == c;
    Format03RoundTrip(id.vmax);
    Format03RoundTrip(CurrentLimit(id));
  }

  /** Only the supply with the wide current field sends the wide-current reply. */
  lemma GmaxReplyWide(id: Identity)
    requires Identified(id)
    ensures GmaxReply(id) == WIDE_CURRENT_REPLY <==> id.imult == 100
  {
    IdentifiedBounds(id);
    var v, c := Format03(id.vmax), Format03(CurrentLimit(id));
    var w0, w1 := WIDE_CURRENT_REPLY[0..3], WIDE_CURRENT_REPLY[3..6];
    WideReplyDigits();
    if id.imult == 100 {
      ThreeDigitsUnique(v, w0);
      ThreeDigitsUnique(c, w1);
    } else {
      assert (v + c)[3..6] == c;
    }
  }

  /** Identification is onto: every identified supply is recognised from its own reply. */
  lemma IdentifyRecognises(id: Identity)
    requires Identified(id)
    ensures Identify(GmaxReply(id)) == Ok(id)
  {
    GmaxReplyFields(id);
    GmaxReplyWide(id);
    IdentifyOfFields(GmaxReply(id), id.vmax, CurrentLimit(id));
    LookupFinds(id);
  }

  /** The table lookups find every identified supply from its limits. */
  lemma LookupFinds(id: Identity)
    requires Identified(id)
    ensures Lookup(id.imult, id.vmax, CurrentLimit(id)) == Ok(id)
  {
    IdentifiedBounds(id);
    assert (if id.imult == 100 then CurrentLimit(id) else CurrentLimit(id) * 10) == id.imax;
  }

  /** The table lookups behind the examples below. */
  lemma LookupExamples()
    ensures Lookup(100, 362, 700) == Ok(Identity(100, 362, 700, PPS11360, 8))
    ensures Lookup(10, 362, 120) == Ok(Identity(10, 362, 1200, PPS16005, 8))
    ensures Lookup(10, 999, 999) == Err(UnknownModel)
  {
  }

  /** The supply whose reply counts the current in hundredths of an amp. */
  lemma IdentifyWideExample(g: string)
    requires g == "362700"
    ensures Identify(g) == Ok(Identity(100, 362, 700, PPS11360, 8))
  {
    WideReplyFields();
    IdentifyOfFields(g, 362, 700);
    LookupExamples();
  }

  /** A confirmed supply with the usual tenths-of-an-amp current field. */
  lemma IdentifyNarrowExample(g: string)
    requires g == "362120"
    ensures Identify(g) == Ok(Identity(10, 362, 1200, PPS16005, 8))
  {
    Reads3(g);
    assert g[4] != WIDE_CURRENT_REPLY[4];
    IdentifyOfFields(g, 362, 120);
    LookupExamples();
  }

  /** A reply whose pair of limits is not in the model table. */
  lemma IdentifyUnknownExample(g: string)
    requires g == "999999"
    ensures Identify(g) == Err(UnknownModel)
  {
    Reads3(g);
    assert g[0] != WIDE_CURRENT_REPLY[0];
    IdentifyOfFields(g, 999, 999);
    LookupExamples();
  }
}

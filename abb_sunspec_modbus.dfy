/** The ABB three-phase, dual-MPPT hub: its subscription lifecycle and its
    decoder for the register block starting at holding register 72. */
module AbbSunSpecModbus {
  import opened Registers
  import opened Scaling
  import opened Modbus
  import opened Subscriptions

  /** The keys of the hub's data dictionary: exactly the 22 the decoder
      writes, each standing for the string key Name() gives. */
  datatype Key =
    | AcCurrent | AcCurrentA | AcCurrentB | AcCurrentC
    | AcVoltageAB | AcVoltageBC | AcVoltageCA | AcVoltageAN | AcVoltageBN | AcVoltageCN
    | AcPower | AcFreq | AcEnergy | DcPower | Status | StatusVendor
    | Mppt1Curr | Mppt1Volt | Mppt1Power | Mppt2Curr | Mppt2Volt | Mppt2Power
  {
    function Name(): string
    {
      match this
      case AcCurrent => "accurrent"
      case AcCurrentA => "accurrenta"
      case AcCurrentB => "accurrentb"
      case AcCurrentC => "accurrentc"
      case AcVoltageAB => "acvoltageab"
      case AcVoltageBC => "acvoltagebc"
      case AcVoltageCA => "acvoltageca"
      case AcVoltageAN => "acvoltagean"
      case AcVoltageBN => "acvoltagebn"
      case AcVoltageCN => "acvoltagecn"
      case AcPower => "acpower"
      case AcFreq => "acfreq"
      case AcEnergy => "acenergy"
      case DcPower => "dcpower"
      case Status => "status"
      case StatusVendor => "statusvendor"
      case Mppt1Curr => "mppt1curr"
      case Mppt1Volt => "mppt1volt"
      case Mppt1Power => "mppt1power"
      case Mppt2Curr => "mppt2curr"
      case Mppt2Volt => "mppt2volt"
      case Mppt2Power => "mppt2power"
    }
  }

  /** The key a dictionary string names, if it is one of the decoder's. */
  function KeyNamed(name: string): Option<Key>
  {
    if name == "accurrent" then Some(AcCurrent)
    else if name == "accurrenta" then Some(AcCurrentA)
    else if name == "accurrentb" then Some(AcCurrentB)
    else if name == "accurrentc" then Some(AcCurrentC)
    else if name == "acvoltageab" then Some(AcVoltageAB)
    else if name == "acvoltagebc" then Some(AcVoltageBC)
    else if name == "acvoltageca" then Some(AcVoltageCA)
    else if name == "acvoltagean" then Some(AcVoltageAN)
    else if name == "acvoltagebn" then Some(AcVoltageBN)
    else if name == "acvoltagecn" then Some(AcVoltageCN)
    else if name == "acpower" then Some(AcPower)
    else if name == "acfreq" then Some(AcFreq)
    else if name == "acenergy" then Some(AcEnergy)
    else if name == "dcpower" then Some(DcPower)
    else if name == "status" then Some(Status)
    else if name == "statusvendor" then Some(StatusVendor)
    else if name == "mppt1curr" then Some(Mppt1Curr)
    else if name == "mppt1volt" then Some(Mppt1Volt)
    else if name == "mppt1power" then Some(Mppt1Power)
    else if name == "mppt2curr" then Some(Mppt2Curr)
    else if name == "mppt2volt" then Some(Mppt2Volt)
    else if name == "mppt2power" then Some(Mppt2Power)
    else None
  }

  /** Name and KeyNamed are inverse, so the 22 keys have 22 distinct names. */
  lemma NameRoundTrip(k: Key)
    ensures KeyNamed(k.Name()) == Some(k)
  {
  }

  lemma KeyNamedRoundTrip(name: string)
    ensures KeyNamed(name).Some? ==> KeyNamed(name).value.Name() == name
  {
  }

  /** The cabinet temperature is decoded but never stored: it has no key. */
  lemma TempcabHasNoKey()
    ensures KeyNamed("tempcab") == None
  {
  }

  /** The inverter is addressed as Modbus unit 2 and read 184 registers at a time. */
  const InverterUnit := 2
  const InverterCount := 184

  /** The registers the layout decodes or skips: 72 up to and including 163. */
  const InverterSpan := 92

  /** The read request: unit 2, from register 72, a count that covers every
      register the layout decodes or skips. */
  function InverterRequest(): (r: ReadRequest)
    ensures r.unit == Some(2)
    ensures r.address == InverterBase == 72 && r.count == 184
    ensures r.address + r.count >= InverterBase + InverterSpan
  {
    ReadHoldingRegisters(InverterUnit, InverterBase, InverterCount)
  }

  const SnapshotKeys: set<Key> := {
    AcCurrent, AcCurrentA, AcCurrentB, AcCurrentC,
    AcVoltageAB, AcVoltageBC, AcVoltageCA, AcVoltageAN, AcVoltageBN, AcVoltageCN,
    AcPower, AcFreq, AcEnergy, DcPower, Status, StatusVendor,
    Mppt1Curr, Mppt1Volt, Mppt1Power, Mppt2Curr, Mppt2Volt, Mppt2Power
  }

  /** What a successful decode stores, field by field, by SunSpec register
      address: each value group is scaled by the signed scale factor that
      follows it, the energy counter by an unsigned one and then to
      kilowatt-hours, the status registers are stored raw, and both MPPT
      channels share the scale factors at 125 to 127. */
  function InverterSnapshot(regs: seq<Word>): (r: map<Key, Value>)
    requires |regs| >= InverterSpan
  {
    var currentSf := S16(At(regs, 76));
    var voltageSf := S16(At(regs, 83));
    var dcaSf := S16(At(regs, 125));
    var dcvSf := S16(At(regs, 126));
    var dcwSf := S16(At(regs, 127));
    map[
      AcCurrent := Scaled(At(regs, 72), currentSf),
      AcCurrentA := Scaled(At(regs, 73), currentSf),
      AcCurrentB := Scaled(At(regs, 74), currentSf),
      AcCurrentC := Scaled(At(regs, 75), currentSf),
      AcVoltageAB := Scaled(At(regs, 77), voltageSf),
      AcVoltageBC := Scaled(At(regs, 78), voltageSf),
      AcVoltageCA := Scaled(At(regs, 79), voltageSf),
      AcVoltageAN := Scaled(At(regs, 80), voltageSf),
      AcVoltageBN := Scaled(At(regs, 81), voltageSf),
      AcVoltageCN := Scaled(At(regs, 82), voltageSf),
      AcPower := Scaled(S16(At(regs, 84)), S16(At(regs, 85))),
      AcFreq := Scaled(At(regs, 86), S16(At(regs, 87))),
      AcEnergy := Scaled(U32(At(regs, 94), At(regs, 95)), At(regs, 96) as int - 3),
      DcPower := Scaled(S16(At(regs, 101)), S16(At(regs, 102))),
      Status := Code(S16(At(regs, 108))),
      StatusVendor := Code(S16(At(regs, 109))),
      Mppt1Curr := Scaled(At(regs, 141), dcaSf),
      Mppt1Volt := Scaled(At(regs, 142), dcvSf),
      Mppt1Power := Scaled(At(regs, 143), dcwSf),
      Mppt2Curr := Scaled(At(regs, 161), dcaSf),
      Mppt2Volt := Scaled(At(regs, 162), dcvSf),
      Mppt2Power := Scaled(At(regs, 163), dcwSf)
    ]
  }

  /** The keys the decoder writes before it reaches the energy counter, and
      the ones it writes from the energy counter on. */
  const AcMeasurementKeys: set<Key> := {
    AcCurrent, AcCurrentA, AcCurrentB, AcCurrentC,
    AcVoltageAB, AcVoltageBC, AcVoltageCA, AcVoltageAN, AcVoltageBN, AcVoltageCN,
    AcPower, AcFreq
  }
  const LaterKeys: set<Key> := {
    AcEnergy, DcPower, Status, StatusVendor,
    Mppt1Curr, Mppt1Volt, Mppt1Power, Mppt2Curr, Mppt2Volt, Mppt2Power
  }

  /** The twelve values the decoder writes before it reaches the energy
      counter: the AC currents, voltages, power and frequency at 72 to 87, by
      address. */
  function AcMeasurementSnapshot(regs: seq<Word>): (r: map<Key, Value>)
    requires |regs| >= InverterSpan
    ensures r.Keys == AcMeasurementKeys
  {
    var currentSf := S16(At(regs, 76));
    var voltageSf := S16(At(regs, 83));
    map[
      AcCurrent := Scaled(At(regs, 72), currentSf),
      AcCurrentA := Scaled(At(regs, 73), currentSf),
      AcCurrentB := Scaled(At(regs, 74), currentSf),
      AcCurrentC := Scaled(At(regs, 75), currentSf),
      AcVoltageAB := Scaled(At(regs, 77), voltageSf),
      AcVoltageBC := Scaled(At(regs, 78), voltageSf),
      AcVoltageCA := Scaled(At(regs, 79), voltageSf),
      AcVoltageAN := Scaled(At(regs, 80), voltageSf),
      AcVoltageBN := Scaled(At(regs, 81), voltageSf),
      AcVoltageCN := Scaled(At(regs, 82), voltageSf),
      AcPower := Scaled(S16(At(regs, 84)), S16(At(regs, 85))),
      AcFreq := Scaled(At(regs, 86), S16(At(regs, 87)))
    ]
  }

  /** The twelve values written before the energy counter are the ones the
      full snapshot holds for those keys, so the value lemmas also describe
      what a poll whose energy conversion raises leaves in `data`. */
  lemma AcAgrees(regs: seq<Word>)
    requires |regs| >= InverterSpan
    ensures forall k | k in AcMeasurementKeys :: AcMeasurementSnapshot(regs)[k] == InverterSnapshot(regs)[k]
  {
    CurrentsAgree(regs);
    VoltagesAgree(regs);
    PowerAndFrequencyAgree(regs);
    SnapshotKeySet(regs);
    KeysPartition();
    AgreeOnAcKeys(AcMeasurementSnapshot(regs), InverterSnapshot(regs));
  }

  /** Two maps that agree on each of the twelve AC keys agree on the set. */
  lemma AgreeOnAcKeys(p: map<Key, Value>, f: map<Key, Value>)
    requires AcMeasurementKeys <= p.Keys && AcMeasurementKeys <= f.Keys
    requires p[AcCurrent] == f[AcCurrent]
    requires p[AcCurrentA] == f[AcCurrentA]
    requires p[AcCurrentB] == f[AcCurrentB]
    requires p[AcCurrentC] == f[AcCurrentC]
    requires p[AcVoltageAB] == f[AcVoltageAB]
    requires p[AcVoltageBC] == f[AcVoltageBC]
    requires p[AcVoltageCA] == f[AcVoltageCA]
    requires p[AcVoltageAN] == f[AcVoltageAN]
    requires p[AcVoltageBN] == f[AcVoltageBN]
    requires p[AcVoltageCN] == f[AcVoltageCN]
    requires p[AcPower] == f[AcPower]
    requires p[AcFreq] == f[AcFreq]
    ensures forall k | k in AcMeasurementKeys :: p[k] == f[k]
  {
  }

  /** The four currents agree in the partial and the full snapshot. */
  lemma CurrentsAgree(regs: seq<Word>)
    requires |regs| >= InverterSpan
    ensures AcMeasurementSnapshot(regs)[AcCurrent] == InverterSnapshot(regs)[AcCurrent]
    ensures AcMeasurementSnapshot(regs)[AcCurrentA] == InverterSnapshot(regs)[AcCurrentA]
    ensures AcMeasurementSnapshot(regs)[AcCurrentB] == InverterSnapshot(regs)[AcCurrentB]
    ensures AcMeasurementSnapshot(regs)[AcCurrentC] == InverterSnapshot(regs)[AcCurrentC]
  {
  }

  /** The six voltages agree in the partial and the full snapshot. */
  lemma VoltagesAgree(regs: seq<Word>)
    requires |regs| >= InverterSpan
    ensures AcMeasurementSnapshot(regs)[AcVoltageAB] == InverterSnapshot(regs)[AcVoltageAB]
    ensures AcMeasurementSnapshot(regs)[AcVoltageBC] == InverterSnapshot(regs)[AcVoltageBC]
    ensures AcMeasurementSnapshot(regs)[AcVoltageCA] == InverterSnapshot(regs)[AcVoltageCA]
    ensures AcMeasurementSnapshot(regs)[AcVoltageAN] == InverterSnapshot(regs)[AcVoltageAN]
    ensures AcMeasurementSnapshot(regs)[AcVoltageBN] == InverterSnapshot(regs)[AcVoltageBN]
    ensures AcMeasurementSnapshot(regs)[AcVoltageCN] == InverterSnapshot(regs)[AcVoltageCN]
  {
  }

  /** AC power and frequency agree in the partial and the full snapshot. */
  lemma PowerAndFrequencyAgree(regs: seq<Word>)
    requires |regs| >= InverterSpan
    ensures AcMeasurementSnapshot(regs)[AcPower] == InverterSnapshot(regs)[AcPower]
    ensures AcMeasurementSnapshot(regs)[AcFreq] == InverterSnapshot(regs)[AcFreq]
  {
  }

  /** The decoder turns the energy counter e at 94 and 95 and the unsigned
      scale factor sf at 96 into the exact integer e * 10^sf and multiplies
      that by the float 0.001. The integer is converted to a double first,
      which raises OverflowError when it is too large for one. */
  predicate EnergyOverflows(regs: seq<Word>)
    requires |regs| >= InverterSpan
  {
    FloatOverflows(U32(At(regs, 94), At(regs, 95)) * IntPow10(At(regs, 96)))
  }

  /** Where the conversion raises: never for a scale factor up to 298, and for
      every non-zero counter once the scale factor is 309 or more. */
  lemma {:induction false} EnergyOverflowThresholds(regs: seq<Word>)
    requires |regs| >= InverterSpan
    ensures At(regs, 96) <= 298 ==> !EnergyOverflows(regs)
    ensures At(regs, 96) >= 309 && U32(At(regs, 94), At(regs, 95)) != 0 ==> EnergyOverflows(regs)
  {
    var e, sf := U32(At(regs, 94), At(regs, 95)), At(regs, 96);
    if sf <= 298 {
      FitsInDouble(e, sf);
    } else if sf >= 309 && e != 0 {
      OverflowsDouble(e, sf);
    }
  }

  /** The decoder's first twelve writes (registers 72 to 87), in its order
      and by cursor position, applied to m: all that is written when the
      energy conversion raises. */
  function FrontWrites(m: map<Key, Value>, regs: seq<Word>): map<Key, Value>
    requires |regs| >= 16
  {
    m[AcCurrent := Scaled(regs[0], S16(regs[4]))][AcCurrentA := Scaled(regs[1], S16(regs[4]))]
     [AcCurrentB := Scaled(regs[2], S16(regs[4]))][AcCurrentC := Scaled(regs[3], S16(regs[4]))]
     [AcVoltageAB := Scaled(regs[5], S16(regs[11]))][AcVoltageBC := Scaled(regs[6], S16(regs[11]))]
     [AcVoltageCA := Scaled(regs[7], S16(regs[11]))][AcVoltageAN := Scaled(regs[8], S16(regs[11]))]
     [AcVoltageBN := Scaled(regs[9], S16(regs[11]))][AcVoltageCN := Scaled(regs[10], S16(regs[11]))]
     [AcPower := Scaled(S16(regs[12]), S16(regs[13]))][AcFreq := Scaled(regs[14], S16(regs[15]))]
  }

  /** The first twelve writes, in cursor order, merge the partial snapshot by
      address into the old map. */
  lemma FrontWritesMakeSnapshot(m: map<Key, Value>, regs: seq<Word>)
    requires |regs| >= InverterSpan
    ensures FrontWrites(m, regs) == m + AcMeasurementSnapshot(regs)
  {
  }

  /** The decoder's writes for registers 72 to 109, in its order and by cursor
      position, applied to m. The last one is the signed value at 106 scaled
      by the temperature scale factor at 107, stored as mppt1curr. */
  function AcWrites(m: map<Key, Value>, regs: seq<Word>): map<Key, Value>
    requires |regs| >= 38
  {
    LaterAcWrites(FrontWrites(m, regs), regs)
  }

  /** The decoder's writes for registers 94 to 109, from the energy counter
      on, applied to m. */
  function LaterAcWrites(m: map<Key, Value>, regs: seq<Word>): map<Key, Value>
    requires |regs| >= 38
  {
    m[AcEnergy := Scaled(U32(regs[22], regs[23]), regs[24] as int - 3)]
     [DcPower := Scaled(S16(regs[29]), S16(regs[30]))]
     [Mppt1Curr := Scaled(S16(regs[34]), S16(regs[35]))]
     [Status := Code(S16(regs[36]))][StatusVendor := Code(S16(regs[37]))]
  }

  /** The decoder's writes for registers 110 to 163, in its order and by
      cursor position, applied to m. */
  function MpptWrites(m: map<Key, Value>, regs: seq<Word>): map<Key, Value>
    requires |regs| >= InverterSpan
  {
    m[Mppt1Curr := Scaled(regs[69], S16(regs[53]))][Mppt1Volt := Scaled(regs[70], S16(regs[54]))]
     [Mppt1Power := Scaled(regs[71], S16(regs[55]))]
     [Mppt2Curr := Scaled(regs[89], S16(regs[53]))][Mppt2Volt := Scaled(regs[90], S16(regs[54]))]
     [Mppt2Power := Scaled(regs[91], S16(regs[55]))]
  }

  /** Writing the decoded values one key at a time, in the decoder's order and
      with the first mppt1curr overwritten, merges them into the old map. */
  lemma WritesMerge(m: map<Key, Value>,
                    acCurrent: Value, acCurrentA: Value, acCurrentB: Value, acCurrentC: Value,
                    acVoltageAB: Value, acVoltageBC: Value, acVoltageCA: Value,
                    acVoltageAN: Value, acVoltageBN: Value, acVoltageCN: Value,
                    acPower: Value, acFreq: Value, acEnergy: Value, dcPower: Value,
                    firstMppt1Curr: Value, status: Value, statusVendor: Value,
                    mppt1Curr: Value, mppt1Volt: Value, mppt1Power: Value,
                    mppt2Curr: Value, mppt2Volt: Value, mppt2Power: Value)
    ensures m[AcCurrent := acCurrent][AcCurrentA := acCurrentA][AcCurrentB := acCurrentB][AcCurrentC := acCurrentC]
             [AcVoltageAB := acVoltageAB][AcVoltageBC := acVoltageBC][AcVoltageCA := acVoltageCA]
             [AcVoltageAN := acVoltageAN][AcVoltageBN := acVoltageBN][AcVoltageCN := acVoltageCN]
             [AcPower := acPower][AcFreq := acFreq][AcEnergy := acEnergy][DcPower := dcPower]
             [Mppt1Curr := firstMppt1Curr][Status := status][StatusVendor := statusVendor]
             [Mppt1Curr := mppt1Curr][Mppt1Volt := mppt1Volt][Mppt1Power := mppt1Power]
             [Mppt2Curr := mppt2Curr][Mppt2Volt := mppt2Volt][Mppt2Power := mppt2Power]
         == m + map[AcCurrent := acCurrent, AcCurrentA := acCurrentA, AcCurrentB := acCurrentB, AcCurrentC := acCurrentC,
                    AcVoltageAB := acVoltageAB, AcVoltageBC := acVoltageBC, AcVoltageCA := acVoltageCA,
                    AcVoltageAN := acVoltageAN, AcVoltageBN := acVoltageBN, AcVoltageCN := acVoltageCN,
                    AcPower := acPower, AcFreq := acFreq, AcEnergy := acEnergy, DcPower := dcPower,
                    Status := status, StatusVendor := statusVendor,
                    Mppt1Curr := mppt1Curr, Mppt1Volt := mppt1Volt, Mppt1Power := mppt1Power,
                    Mppt2Curr := mppt2Curr, Mppt2Volt := mppt2Volt, Mppt2Power := mppt2Power]
  {
  }

  /** The decoder's writes, in cursor order, leave the old map merged with the
      snapshot by address: the walk reaches every register where the layout
      puts it, and the second mppt1curr write wins. */
  lemma WritesMakeSnapshot(m: map<Key, Value>, regs: seq<Word>)
    requires |regs| >= InverterSpan
    ensures MpptWrites(AcWrites(m, regs), regs) == m + InverterSnapshot(regs)
  {
    WritesMerge(m,
      Scaled(regs[0], S16(regs[4])), Scaled(regs[1], S16(regs[4])), Scaled(regs[2], S16(regs[4])), Scaled(regs[3], S16(regs[4])),
      Scaled(regs[5], S16(regs[11])), Scaled(regs[6], S16(regs[11])), Scaled(regs[7], S16(regs[11])),
      Scaled(regs[8], S16(regs[11])), Scaled(regs[9], S16(regs[11])), Scaled(regs[10], S16(regs[11])),
      Scaled(S16(regs[12]), S16(regs[13])), Scaled(regs[14], S16(regs[15])),
      Scaled(U32(regs[22], regs[23]), regs[24] as int - 3), Scaled(S16(regs[29]), S16(regs[30])),
      Scaled(S16(regs[34]), S16(regs[35])), Code(S16(regs[36])), Code(S16(regs[37])),
      Scaled(regs[69], S16(regs[53])), Scaled(regs[70], S16(regs[54])), Scaled(regs[71], S16(regs[55])),
      Scaled(regs[89], S16(regs[53])), Scaled(regs[90], S16(regs[54])), Scaled(regs[91], S16(regs[55])));
  }

  /** A successful decode writes every one of the 22 keys, and no others. */
  lemma SnapshotKeySet(regs: seq<Word>)
    requires |regs| >= InverterSpan
    ensures InverterSnapshot(regs).Keys == SnapshotKeys
    ensures forall k: Key :: k in SnapshotKeys
  {
    forall k: Key
      ensures k in SnapshotKeys
    {
      assert k.AcCurrent? || k.AcCurrentA? || k.AcCurrentB? || k.AcCurrentC?
        || k.AcVoltageAB? || k.AcVoltageBC? || k.AcVoltageCA? || k.AcVoltageAN?
        || k.AcVoltageBN? || k.AcVoltageCN? || k.AcPower? || k.AcFreq?
        || k.AcEnergy? || k.DcPower? || k.Status? || k.StatusVendor?
        || k.Mppt1Curr? || k.Mppt1Volt? || k.Mppt1Power? || k.Mppt2Curr?
        || k.Mppt2Volt? || k.Mppt2Power?;
    }
  }

  /** The 22 keys are distinct: a complete decode stores 22 values. */
  lemma SnapshotKeyCount()
    ensures |SnapshotKeys| == 22
  {
    KeysPartition();
    AcMeasurementKeyCount();
    LaterKeyCount();
  }

  /** The keys written before the energy counter and those written from it
      on split the 22 keys in two. */
  lemma KeysPartition()
    ensures SnapshotKeys == AcMeasurementKeys + LaterKeys
    ensures AcMeasurementKeys * LaterKeys == {}
  {
  }

  lemma AcMeasurementKeyCount()
    ensures |AcMeasurementKeys| == 12
  {
  }

  lemma LaterKeyCount()
    ensures |LaterKeys| == 10
  {
  }

  /** The four currents and six voltages are their unsigned registers scaled
      by the signed scale factor at 76 and 83, exactly what the source stores
      after rounding to |sf| decimals. */
  lemma {:induction false} CurrentAndVoltageValues(regs: seq<Word>)
    requires |regs| >= InverterSpan
    ensures var s := InverterSnapshot(regs);
      && s[AcCurrent].Real() == RoundedValue(At(regs, 72), S16(At(regs, 76)))
      && s[AcCurrentA].Real() == RoundedValue(At(regs, 73), S16(At(regs, 76)))
      && s[AcCurrentB].Real() == RoundedValue(At(regs, 74), S16(At(regs, 76)))
      && s[AcCurrentC].Real() == RoundedValue(At(regs, 75), S16(At(regs, 76)))
      && s[AcVoltageAB].Real() == RoundedValue(At(regs, 77), S16(At(regs, 83)))
      && s[AcVoltageBC].Real() == RoundedValue(At(regs, 78), S16(At(regs, 83)))
      && s[AcVoltageCA].Real() == RoundedValue(At(regs, 79), S16(At(regs, 83)))
      && s[AcVoltageAN].Real() == RoundedValue(At(regs, 80), S16(At(regs, 83)))
      && s[AcVoltageBN].Real() == RoundedValue(At(regs, 81), S16(At(regs, 83)))
      && s[AcVoltageCN].Real() == RoundedValue(At(regs, 82), S16(At(regs, 83)))
  {
    var cs, vs := S16(At(regs, 76)), S16(At(regs, 83));
    StoredScaled(At(regs, 72), cs);
    StoredScaled(At(regs, 73), cs);
    StoredScaled(At(regs, 74), cs);
    StoredScaled(At(regs, 75), cs);
    StoredScaled(At(regs, 77), vs);
    StoredScaled(At(regs, 78), vs);
    StoredScaled(At(regs, 79), vs);
    StoredScaled(At(regs, 80), vs);
    StoredScaled(At(regs, 81), vs);
    StoredScaled(At(regs, 82), vs);
  }

  /** AC and DC power are signed registers, the frequency an unsigned one,
      each scaled by the signed scale factor after it; the status pair is
      stored as its raw signed registers. */
  lemma {:induction false} PowerFrequencyAndStatusValues(regs: seq<Word>)
    requires |regs| >= InverterSpan
    ensures var s := InverterSnapshot(regs);
      && s[AcPower].Real() == RoundedValue(S16(At(regs, 84)), S16(At(regs, 85)))
      && s[AcFreq].Real() == RoundedValue(At(regs, 86), S16(At(regs, 87)))
      && s[DcPower].Real() == RoundedValue(S16(At(regs, 101)), S16(At(regs, 102)))
      && s[Status] == Code(S16(At(regs, 108)))
      && s[StatusVendor] == Code(S16(At(regs, 109)))
  {
    StoredScaled(S16(At(regs, 84)), S16(At(regs, 85)));
    StoredScaled(At(regs, 86), S16(At(regs, 87)));
    StoredScaled(S16(At(regs, 101)), S16(At(regs, 102)));
  }

  /** The energy counter is the 32-bit value at 94 and 95, high word first,
      scaled by the UNSIGNED scale factor at 96 and converted to kilowatt-hours
      as the source does: round(calculate_value(e, sf) * 0.001, 3). */
  lemma {:induction false} EnergyValue(regs: seq<Word>)
    requires |regs| >= InverterSpan
    ensures InverterSnapshot(regs)[AcEnergy].Real()
         == RoundedKilo(CalculateValue(U32(At(regs, 94), At(regs, 95)), At(regs, 96)))
  {
    StoredKilo(U32(At(regs, 94), At(regs, 95)), At(regs, 96));
  }

  /** Both MPPT channels are unsigned registers (141 to 143 and 161 to 163)
      scaled by the shared scale factors at 125 to 127; in particular
      mppt1curr is the value at 141, not the earlier write from 106. */
  lemma {:induction false} MpptValues(regs: seq<Word>)
    requires |regs| >= InverterSpan
    ensures var s := InverterSnapshot(regs);
      && s[Mppt1Curr].Real() == RoundedValue(At(regs, 141), S16(At(regs, 125)))
      && s[Mppt1Volt].Real() == RoundedValue(At(regs, 142), S16(At(regs, 126)))
      && s[Mppt1Power].Real() == RoundedValue(At(regs, 143), S16(At(regs, 127)))
      && s[Mppt2Curr].Real() == RoundedValue(At(regs, 161), S16(At(regs, 125)))
      && s[Mppt2Volt].Real() == RoundedValue(At(regs, 162), S16(At(regs, 126)))
      && s[Mppt2Power].Real() == RoundedValue(At(regs, 163), S16(At(regs, 127)))
  {
    var a, v, w := S16(At(regs, 125)), S16(At(regs, 126)), S16(At(regs, 127));
    StoredScaled(At(regs, 141), a);
    StoredScaled(At(regs, 142), v);
    StoredScaled(At(regs, 143), w);
    StoredScaled(At(regs, 161), a);
    StoredScaled(At(regs, 162), v);
    StoredScaled(At(regs, 163), w);
  }

  /** Decoding the same block twice leaves `data` as decoding it once. This
      holds whatever `data` held before, because a successful decode only
      overwrites its own keys with values that depend on the block alone. */
  lemma DecodeIdempotent(m: map<Key, Value>, regs: seq<Word>)
    requires |regs| >= InverterSpan
    ensures m + InverterSnapshot(regs) + InverterSnapshot(regs) == m + InverterSnapshot(regs)
  {
  }

  /** A raw current of 100 with scale factor -1 (register 0xFFFF) is 10.0. */
  lemma CurrentExample()
    ensures var regs := seq(InverterSpan, i => if i == 0 then 100 else if i == 4 then 0xFFFF else 0);
      InverterSnapshot(regs)[AcCurrent].Real() == 10.0
  {
    var regs: seq<Word> := seq(InverterSpan, i => if i == 0 then 100 else if i == 4 then 0xFFFF else 0);
    assert At(regs, 72) == 100 && S16(At(regs, 76)) == -1;
    assert Pow10(-1) == 1.0 / 10.0;
  }

  /** How read_modbus_data_inverter ends: it returns True or False, or the
      energy conversion raises OverflowError out of it. */
  datatype ReadOutcome = Returned(updated: bool) | RaisedOverflow

  class ABBSunSpecModbusHub {
    const name: string
    const host: string
    const port: int
    const scanInterval: nat

    /** The registered update callbacks, in the order they were added. */
    var sensors: seq<CallbackId>
    /** Whether the poll timer is running (the unsubscribe handle is set). */
    var timerActive: bool
    var connectCalls: nat
    var closeCalls: nat
    /** Every read request sent to the client, oldest first. */
    var requests: seq<ReadRequest>
    /** The latest decoded values, by key. */
    var data: map<Key, Value>

    /** The timer runs exactly while someone is subscribed, and the client
        has been connected once more than it has been closed exactly then. */
    ghost predicate Valid()
      reads this
    {
      && (timerActive <==> sensors != [])
      && connectCalls == closeCalls + (if timerActive then 1 else 0)
    }

    constructor (name: string, host: string, port: int, scanInterval: nat)
      ensures Valid()
      ensures this.name == name && this.host == host && this.port == port
      ensures this.scanInterval == scanInterval
      ensures sensors == [] && !timerActive && connectCalls == 0 && closeCalls == 0
      ensures requests == [] && data == map[]
    {
      this.name, this.host, this.port, this.scanInterval := name, host, port, scanInterval;
      sensors, timerActive := [], false;
      connectCalls, closeCalls := 0, 0;
      requests, data := [], map[];
    }

    method Connect()
      modifies this`connectCalls
      ensures connectCalls == old(connectCalls) + 1
    {
      connectCalls := connectCalls + 1;
    }

    method Close()
      modifies this`closeCalls
      ensures closeCalls == old(closeCalls) + 1
    {
      closeCalls := closeCalls + 1;
    }

    /** Subscribes a callback: the first one connects and starts the timer. */
    method AsyncAddAbbSunspecSensor(updateCallback: CallbackId)
      requires Valid()
      modifies this`sensors, this`timerActive, this`connectCalls
      ensures Valid()
      ensures sensors == old(sensors) + [updateCallback]
      ensures timerActive
      ensures connectCalls == old(connectCalls) + (if old(sensors) == [] then 1 else 0)
    {
      if sensors == [] {
        Connect();
        timerActive := true;
      }
      sensors := sensors + [updateCallback];
    }

    /** Unsubscribes one occurrence of a callback; removing the last one stops
        the timer and closes the client. An absent callback makes list.remove
        raise, and then `ok` is false and nothing changes. */
    method AsyncRemoveAbbSunspecSensor(updateCallback: CallbackId) returns (ok: bool)
      requires Valid()
      modifies this`sensors, this`timerActive, this`closeCalls
      ensures Valid()
      ensures ok == (updateCallback in old(sensors))
      ensures ok ==> sensors == RemoveFirst(old(sensors), updateCallback)
      ensures !ok ==> sensors == old(sensors) && timerActive == old(timerActive)
      ensures closeCalls == old(closeCalls) + (if ok && sensors == [] then 1 else 0)
    {
      if updateCallback !in sensors {
        return false;
      }
      sensors := RemoveFirst(sensors, updateCallback);
      if sensors == [] {
        timerActive := false;
        Close();
      }
      ok := true;
    }

    /** One poll: with nobody subscribed nothing is read; otherwise the block
        is read and decoded, and only when that returned True is every
        callback invoked once, in subscription order. When the energy
        conversion raises, the poll ends with the exception (`raised`), the
        twelve values written before it stay written, and nobody is
        notified. */
    method AsyncRefreshModbusData(response: ReadResponse) returns (notified: seq<CallbackId>, raised: bool)
      requires Valid()
      requires response.RegisterBlock? ==> |response.registers| >= InverterSpan
      modifies this`data, this`requests
      ensures Valid()
      ensures sensors == [] ==> requests == old(requests) && data == old(data)
      ensures sensors != [] ==> requests == old(requests) + [InverterRequest()]
      ensures raised == (sensors != [] && response.RegisterBlock? && EnergyOverflows(response.registers))
      ensures data == if sensors == [] || response.ErrorResponse? then old(data)
                      else if raised then old(data) + AcMeasurementSnapshot(response.registers)
                      else old(data) + InverterSnapshot(response.registers)
      ensures notified == if sensors != [] && response.RegisterBlock? && !raised then sensors else []
    {
      notified, raised := [], false;
      if sensors == [] {
        return;
      }
      var outcome := ReadModbusData(response);
      if outcome.RaisedOverflow? {
        raised := true;
        return;
      }
      if outcome.updated {
        for i := 0 to |sensors|
          invariant notified == sensors[..i]
        {
          notified := notified + [sensors[i]];
        }
      }
    }

    /** The read step of a poll: only the inverter block is read. */
    method ReadModbusData(response: ReadResponse) returns (outcome: ReadOutcome)
      requires response.RegisterBlock? ==> |response.registers| >= InverterSpan
      modifies this`data, this`requests
      ensures requests == old(requests) + [InverterRequest()]
      ensures outcome == if response.ErrorResponse? then Returned(false)
                         else if EnergyOverflows(response.registers) then RaisedOverflow
                         else Returned(true)
      ensures data == if response.ErrorResponse? then old(data)
                      else if outcome.RaisedOverflow? then old(data) + AcMeasurementSnapshot(response.registers)
                      else old(data) + InverterSnapshot(response.registers)
    {
      ghost var cursor;
      outcome, cursor := ReadModbusDataInverter(response);
    }

    /** Sends the read request for the block and, unless the response is an
        error, decodes it into `data`; an error leaves `data` as it was and
        returns False. A decode that gets past the energy counter returns
        True; one whose energy conversion raises leaves the twelve values
        written before it. */
    method ReadModbusDataInverter(response: ReadResponse) returns (outcome: ReadOutcome, ghost cursor: nat)
      requires response.RegisterBlock? ==> |response.registers| >= InverterSpan
      modifies this`data, this`requests
      ensures requests == old(requests) + [InverterRequest()]
      ensures outcome == if response.ErrorResponse? then Returned(false)
                         else if EnergyOverflows(response.registers) then RaisedOverflow
                         else Returned(true)
      ensures outcome == Returned(true) ==> cursor == InverterSpan <= InverterCount
      ensures data == if response.ErrorResponse? then old(data)
                      else if outcome.RaisedOverflow? then old(data) + AcMeasurementSnapshot(response.registers)
                      else old(data) + InverterSnapshot(response.registers)
    {
      requests := requests + [InverterRequest()];
      if response.ErrorResponse? {
        return Returned(false), 0;
      }
      var overflow;
      overflow, cursor := DecodeInverterRegisters(response.registers);
      outcome := if overflow then RaisedOverflow else Returned(true);
    }

    /** Walks a register block with a cursor from register 72 and writes each
        decoded value into `data`; keys the decoder does not write keep their
        old values. */
    method DecodeInverterRegisters(regs: seq<Word>) returns (overflow: bool, ghost cursor: nat)
      requires |regs| >= InverterSpan
      modifies this`data
      ensures overflow == EnergyOverflows(regs)
      ensures !overflow ==> cursor == InverterSpan
      ensures data == old(data) + if overflow then AcMeasurementSnapshot(regs) else InverterSnapshot(regs)
    {
      var pos;
      pos, overflow := DecodeAcRegisters(regs);
      if overflow {
        FrontWritesMakeSnapshot(old(data), regs);
        return overflow, pos;
      }
      pos := DecodeMpptRegisters(regs, pos);
      WritesMakeSnapshot(old(data), regs);
      cursor := pos;
    }

    /** Registers 72 to 109: AC and DC measurements and the status pair. The
        walk stops at the energy counter when its conversion raises. */
    method DecodeAcRegisters(regs: seq<Word>) returns (next: nat, overflow: bool)
      requires |regs| >= InverterSpan
      modifies this`data
      ensures overflow == EnergyOverflows(regs)
      ensures !overflow ==> next == 38
      ensures data == if overflow then FrontWrites(old(data), regs) else AcWrites(old(data), regs)
    {
      var pos := DecodeAcMeasurements(regs);        // registers 72 to 87
      next, overflow := DecodeEnergyToStatus(regs, pos); // 88 to 109
    }

    /** Registers 88 to 109, from the skipped block before the energy counter
        to the status pair; nothing after the counter is read when its
        conversion raises. */
    method DecodeEnergyToStatus(regs: seq<Word>, pos: nat) returns (next: nat, overflow: bool)
      requires |regs| >= InverterSpan && pos == 16
      modifies this`data
      ensures overflow == EnergyOverflows(regs)
      ensures !overflow ==> next == 38
      ensures data == if overflow then old(data) else LaterAcWrites(old(data), regs)
    {
      next := SkipBytes(pos, 12);                   // 88 to 93
      next, overflow := DecodeAcEnergy(regs, next); // 94 to 96
      if overflow {
        return;
      }
      next := DecodeDcAndStatus(regs, next);        // 97 to 109
    }

    /** Registers 72 to 87: the currents, voltages, power and frequency. */
    method DecodeAcMeasurements(regs: seq<Word>) returns (next: nat)
      requires |regs| >= InverterSpan
      modifies this`data
      ensures next == 16
      ensures data == FrontWrites(old(data), regs)
    {
      next := DecodeAcCurrents(regs, 0);            // registers 72 to 76
      next := DecodeAcVoltages(regs, next);         // 77 to 83
      next := DecodeAcPowerAndFrequency(regs, next); // 84 to 87
    }

    /** Registers 97 to 109: DC power, the register at 106 that is stored as
        mppt1curr, and the status pair. */
    method DecodeDcAndStatus(regs: seq<Word>, pos: nat) returns (next: nat)
      requires pos + 13 <= |regs|
      modifies this`data
      ensures next == pos + 13
      ensures data == old(data)[DcPower := Scaled(S16(regs[pos + 4]), S16(regs[pos + 5]))]
                               [Mppt1Curr := Scaled(S16(regs[pos + 9]), S16(regs[pos + 10]))]
                               [Status := Code(S16(regs[pos + 11]))][StatusVendor := Code(S16(regs[pos + 12]))]
    {
      next := SkipBytes(pos, 8);                    // 97 to 100
      next := DecodeDcPower(regs, next);            // 101 to 102
      next := DecodeTemperatureBlock(regs, next);   // 103 to 107
      next := DecodeStatus(regs, next);             // 108 to 109
    }

    /** Registers 110 to 163: the shared DC scale factors and both MPPT
        channels. */
    method DecodeMpptRegisters(regs: seq<Word>, pos: nat) returns (next: nat)
      requires |regs| >= InverterSpan && pos == 38
      modifies this`data
      ensures next == InverterSpan
      ensures data == MpptWrites(old(data), regs)
    {
      next := SkipBytes(pos, 30);                   // 110 to 124
      var dcasf, dcvsf, dcwsf;                      // 125 to 127
      dcasf, next := DecodeS16(regs, next);
      dcvsf, next := DecodeS16(regs, next);
      dcwsf, next := DecodeS16(regs, next);
      next := SkipBytes(next, 26);                  // 128 to 140
      next := DecodeMppt(regs, next, Mppt1Curr, Mppt1Volt, Mppt1Power, dcasf, dcvsf, dcwsf); // 141 to 143
      next := SkipBytes(next, 34);                  // 144 to 160
      next := DecodeMppt(regs, next, Mppt2Curr, Mppt2Volt, Mppt2Power, dcasf, dcvsf, dcwsf); // 161 to 163
    }

    /** A group of four currents and their shared scale factor. */
    method DecodeAcCurrents(regs: seq<Word>, pos: nat) returns (next: nat)
      requires pos + 5 <= |regs|
      modifies this`data
      ensures next == pos + 5
      ensures data == old(data)[AcCurrent := Scaled(regs[pos], S16(regs[pos + 4]))]
                               [AcCurrentA := Scaled(regs[pos + 1], S16(regs[pos + 4]))]
                               [AcCurrentB := Scaled(regs[pos + 2], S16(regs[pos + 4]))]
                               [AcCurrentC := Scaled(regs[pos + 3], S16(regs[pos + 4]))]
    {
      var accurrent, accurrenta, accurrentb, accurrentc, accurrentsf;
      next := pos;
      accurrent, next := DecodeU16(regs, next);
      accurrenta, next := DecodeU16(regs, next);
      accurrentb, next := DecodeU16(regs, next);
      accurrentc, next := DecodeU16(regs, next);
      accurrentsf, next := DecodeS16(regs, next);
      data := data[AcCurrent := Scaled(accurrent, accurrentsf)];
      data := data[AcCurrentA := Scaled(accurrenta, accurrentsf)];
      data := data[AcCurrentB := Scaled(accurrentb, accurrentsf)];
      data := data[AcCurrentC := Scaled(accurrentc, accurrentsf)];
    }

    /** Six line and phase voltages and their shared scale factor. */
    method DecodeAcVoltages(regs: seq<Word>, pos: nat) returns (next: nat)
      requires pos + 7 <= |regs|
      modifies this`data
      ensures next == pos + 7
      ensures data == old(data)[AcVoltageAB := Scaled(regs[pos], S16(regs[pos + 6]))]
                               [AcVoltageBC := Scaled(regs[pos + 1], S16(regs[pos + 6]))]
                               [AcVoltageCA := Scaled(regs[pos + 2], S16(regs[pos + 6]))]
                               [AcVoltageAN := Scaled(regs[pos + 3], S16(regs[pos + 6]))]
                               [AcVoltageBN := Scaled(regs[pos + 4], S16(regs[pos + 6]))]
                               [AcVoltageCN := Scaled(regs[pos + 5], S16(regs[pos + 6]))]
    {
      var acvoltageab, acvoltagebc, acvoltageca, acvoltagean, acvoltagebn, acvoltagecn, acvoltagesf;
      next := pos;
      acvoltageab, next := DecodeU16(regs, next);
      acvoltagebc, next := DecodeU16(regs, next);
      acvoltageca, next := DecodeU16(regs, next);
      acvoltagean, next := DecodeU16(regs, next);
      acvoltagebn, next := DecodeU16(regs, next);
      acvoltagecn, next := DecodeU16(regs, next);
      acvoltagesf, next := DecodeS16(regs, next);
      data := data[AcVoltageAB := Scaled(acvoltageab, acvoltagesf)];
      data := data[AcVoltageBC := Scaled(acvoltagebc, acvoltagesf)];
      data := data[AcVoltageCA := Scaled(acvoltageca, acvoltagesf)];
      data := data[AcVoltageAN := Scaled(acvoltagean, acvoltagesf)];
      data := data[AcVoltageBN := Scaled(acvoltagebn, acvoltagesf)];
      data := data[AcVoltageCN := Scaled(acvoltagecn, acvoltagesf)];
    }

    /** AC power (signed) and frequency, each followed by its scale factor. */
    method DecodeAcPowerAndFrequency(regs: seq<Word>, pos: nat) returns (next: nat)
      requires pos + 4 <= |regs|
      modifies this`data
      ensures next == pos + 4
      ensures data == old(data)[AcPower := Scaled(S16(regs[pos]), S16(regs[pos + 1]))]
                               [AcFreq := Scaled(regs[pos + 2], S16(regs[pos + 3]))]
    {
      var acpower, acpowersf, acfreq, acfreqsf;
      next := pos;
      acpower, next := DecodeS16(regs, next);
      acpowersf, next := DecodeS16(regs, next);
      data := data[AcPower := Scaled(acpower, acpowersf)];
      acfreq, next := DecodeU16(regs, next);
      acfreqsf, next := DecodeS16(regs, next);
      data := data[AcFreq := Scaled(acfreq, acfreqsf)];
    }

    /** The 32-bit lifetime energy counter in watt-hours and its unsigned scale
        factor; the value is stored in kilowatt-hours, three decimal places
        further left. The exact product counter * 10^sf is multiplied by a
        float, and when it is too large for a double that raises instead and
        nothing is stored. */
    method DecodeAcEnergy(regs: seq<Word>, pos: nat) returns (next: nat, overflow: bool)
      requires |regs| >= InverterSpan && pos == 22
      modifies this`data
      ensures next == pos + 3
      ensures overflow == EnergyOverflows(regs)
      ensures data == if overflow then old(data)
                      else old(data)[AcEnergy := Scaled(U32(regs[pos], regs[pos + 1]), regs[pos + 2] as int - 3)]
    {
      var acenergy, acenergysf;
      next := pos;
      acenergy, next := DecodeU32(regs, next);
      acenergysf, next := DecodeU16(regs, next);
      assert acenergy == U32(regs[pos], regs[pos + 1]);
      var wattHours := acenergy * IntPow10(acenergysf);   // calculate_value, an exact integer
      overflow := FloatOverflows(wattHours);
      if overflow {
        return;
      }
      data := data[AcEnergy := Scaled(acenergy, acenergysf - 3)];
    }

    /** DC power (signed) and its scale factor. */
    method DecodeDcPower(regs: seq<Word>, pos: nat) returns (next: nat)
      requires pos + 2 <= |regs|
      modifies this`data
      ensures next == pos + 2
      ensures data == old(data)[DcPower := Scaled(S16(regs[pos]), S16(regs[pos + 1]))]
    {
      var dcpower, dcpowersf;
      next := pos;
      dcpower, next := DecodeS16(regs, next);
      dcpowersf, next := DecodeS16(regs, next);
      data := data[DcPower := Scaled(dcpower, dcpowersf)];
    }

    /** The cabinet temperature (decoded and dropped), two skipped registers,
        then a signed value stored as mppt1curr under the temperature scale
        factor; DecodeMppt overwrites that entry later. */
    method DecodeTemperatureBlock(regs: seq<Word>, pos: nat) returns (next: nat)
      requires pos + 5 <= |regs|
      modifies this`data
      ensures next == pos + 5
      ensures data == old(data)[Mppt1Curr := Scaled(S16(regs[pos + 3]), S16(regs[pos + 4]))]
    {
      var tempcab, mppt1curr, tempsf;
      next := pos;
      tempcab, next := DecodeS16(regs, next);
      next := SkipBytes(next, 4);
      mppt1curr, next := DecodeS16(regs, next);
      tempsf, next := DecodeS16(regs, next);
      data := data[Mppt1Curr := Scaled(mppt1curr, tempsf)];
    }

    /** The operating state and the vendor state, stored unscaled. */
    method DecodeStatus(regs: seq<Word>, pos: nat) returns (next: nat)
      requires pos + 2 <= |regs|
      modifies this`data
      ensures next == pos + 2
      ensures data == old(data)[Status := Code(S16(regs[pos]))][StatusVendor := Code(S16(regs[pos + 1]))]
    {
      var status, statusvendor;
      next := pos;
      status, next := DecodeS16(regs, next);
      data := data[Status := Code(status)];
      statusvendor, next := DecodeS16(regs, next);
      data := data[StatusVendor := Code(statusvendor)];
    }

    /** One MPPT channel: current, voltage and power, scaled by the shared
        DC scale factors and stored under the channel's three keys. */
    method DecodeMppt(regs: seq<Word>, pos: nat, currKey: Key, voltKey: Key, powerKey: Key,
                      dcasf: int, dcvsf: int, dcwsf: int) returns (next: nat)
      requires pos + 3 <= |regs|
      modifies this`data
      ensures next == pos + 3
      ensures data == old(data)[currKey := Scaled(regs[pos], dcasf)]
                               [voltKey := Scaled(regs[pos + 1], dcvsf)]
                               [powerKey := Scaled(regs[pos + 2], dcwsf)]
    {
      var curr, volt, power;
      next := pos;
      curr, next := DecodeU16(regs, next);
      volt, next := DecodeU16(regs, next);
      power, next := DecodeU16(regs, next);
      data := data[currKey := Scaled(curr, dcasf)];
      data := data[voltKey := Scaled(volt, dcvsf)];
      data := data[powerKey := Scaled(power, dcwsf)];
    }
  }
}

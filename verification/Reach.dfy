/** What can be configured: every sensible setting of a module page is within reach of its editor. */
module Reach {
  import opened Common
  import opened Modules
  import opened Schema
  import opened TextTables
  import Effects
  import D = DigitalPage
  import R = RtdPage
  import A = AiPage
  import M = MeterPage
  import ML = MeterLaws

  // ---------- RTD channels ----------

  /** Some run of edits from the default channel ends with u. */
  ghost predicate RtdReached(u: R.Channel) {
    exists es :: R.Allowed(R.CHANNEL_DEFAULT, es) && R.Run(R.CHANNEL_DEFAULT, es) == u
  }

  lemma RtdNext(u: R.Channel, e: R.Edit)
    requires RtdReached(u) && R.Enabled(u, e)
    ensures RtdReached(R.Step(u, e)) && R.Consistent(R.Step(u, e)) && R.Consistent(u)
  {
    hide R.Enabled, R.Step, R.Consistent;
    var es :| R.Allowed(R.CHANNEL_DEFAULT, es) && R.Run(R.CHANNEL_DEFAULT, es) == u;
    var fs := es + [e];
    assert fs[..|fs| - 1] == es && fs[|fs| - 1] == e;
    assert R.Allowed(R.CHANNEL_DEFAULT, fs) && R.Run(R.CHANNEL_DEFAULT, fs) == R.Step(u, e);
    R.DefaultConsistent();
    R.RunKeeps(R.CHANNEL_DEFAULT, es);
    R.StepKeeps(u, e);
  }

  lemma StartReached()
    ensures RtdReached(R.CHANNEL_DEFAULT)
  {
    assert R.Allowed(R.CHANNEL_DEFAULT, []) && R.Run(R.CHANNEL_DEFAULT, []) == R.CHANNEL_DEFAULT;
  }

  /** Thermal type, range and coefficient. */
  lemma ThermalReached(kind: int, range: int, coeff: int) returns (u: R.Channel)
    requires kind in {7, 8, 9} && range in THERMAL_RANGES && coeff in R.COEFFS && CoeffFits(range, Num(coeff))
    ensures RtdReached(u) && R.Consistent(u) && u.kind == Label(Type, kind)
    ensures u.range == Label(ThermalRange, range) && u.coeff == Label(TempCoeff, coeff)
  {
    hide RtdReached, R.Step, R.Consistent, R.COEFFS, THERMAL_RANGES, CoeffFits;
    StartReached();
    R.DefaultConsistent();
    TypeOffered(R.CHANNEL_DEFAULT, kind);
    RtdNext(R.CHANNEL_DEFAULT, R.SelectType(Label(Type, kind)));
    Effects.RtdType(R.CHANNEL_DEFAULT, Label(Type, kind));
    var v := R.Step(R.CHANNEL_DEFAULT, R.SelectType(Label(Type, kind)));
    RangeOffered(v, range);
    RtdNext(v, R.SelectRange(Label(ThermalRange, range)));
    Effects.RtdRange(v, Label(ThermalRange, range));
    var w := R.Step(v, R.SelectRange(Label(ThermalRange, range)));
    CoeffOffered(v, range, coeff);
    RtdNext(w, R.SelectCoeff(Label(TempCoeff, coeff)));
    Effects.RtdEntry(w, R.SelectCoeff(Label(TempCoeff, coeff)));
    u := R.Step(w, R.SelectCoeff(Label(TempCoeff, coeff)));
  }

  lemma TypeOffered(u: R.Channel, kind: int)
    requires kind in {0, 4, 5, 6, 7, 8, 9}
    ensures R.Enabled(u, R.SelectType(Label(Type, kind)))
  {
  }

  lemma RangeOffered(u: R.Channel, range: int)
    requires R.Consistent(u)
    ensures TextIn(u.kind, Type, {7, 8, 9}) && range in THERMAL_RANGES
        ==> R.Enabled(u, R.SelectRange(Label(ThermalRange, range)))
    ensures TextIn(u.kind, Type, {4, 5, 6}) && range in {1, 2, 3}
        ==> R.Enabled(u, R.SelectRange(Label(ResistanceRange, range)))
  {
    hide THERMAL_RANGES, R.COEFFS, R.CoeffConsistent;
  }

  lemma CoeffOffered(u: R.Channel, range: int, coeff: int)
    requires TextIn(u.kind, Type, {7, 8, 9}) && range in THERMAL_RANGES && coeff in R.COEFFS
    requires CoeffFits(range, Num(coeff))
    ensures R.Enabled(R.Step(u, R.SelectRange(Label(ThermalRange, range))), R.SelectCoeff(Label(TempCoeff, coeff)))
  {
    hide THERMAL_RANGES, R.COEFFS, CoeffFits, R.DecideTempCoeff;
    R.CoeffFitsIff(Label(ThermalRange, range), Label(TempCoeff, coeff));
    R.DecideIsTotal(Label(ThermalRange, range));
  }

  /** The entries that no other entry depends on. */
  lemma RestReached(u: R.Channel, unit: int, smooth: int, over: bool, under: bool, wire: bool) returns (w: R.Channel)
    requires RtdReached(u) && TextIn(u.kind, Type, {7, 8, 9}) && unit in {0, 1} && smooth in {0, 1, 2, 3}
    ensures RtdReached(w)
    ensures w == u.(unit := Label(TempUnit, unit), smooth := Label(Smooth, smooth), overflow := Flag(over),
                    underflow := Flag(under), openWire := Flag(wire))
  {
    hide RtdReached, R.Step, R.Consistent;
    w := RtdEntered(u, R.SelectUnit(Label(TempUnit, unit)));
    w := RtdEntered(w, R.SelectSmooth(Label(Smooth, smooth)));
    w := RtdEntered(w, R.CheckOverflow(over));
    w := RtdEntered(w, R.CheckUnderflow(under));
    w := RtdEntered(w, R.CheckOpenWire(wire));
  }

  lemma RtdEntered(u: R.Channel, e: R.Edit) returns (w: R.Channel)
    requires RtdReached(u) && R.Enabled(u, e)
    ensures RtdReached(w) && w == R.Step(u, e)
    ensures e.SelectUnit? ==> w == u.(unit := e.t)
    ensures e.SelectSmooth? ==> w == u.(smooth := e.t)
    ensures e.CheckOverflow? ==> w == u.(overflow := Flag(e.on))
    ensures e.CheckUnderflow? ==> w == u.(underflow := Flag(e.on))
    ensures e.CheckOpenWire? ==> w == u.(openWire := Flag(e.on))
  {
    hide RtdReached, R.Step, R.Enabled;
    RtdNext(u, e);
    if !e.SelectType? && !e.SelectRange? { Effects.RtdEntry(u, e); }
    w := R.Step(u, e);
  }

  /** A thermal range that takes a coefficient. */
  function RangeFor(coeff: int): int {
    if coeff in {0, 1, 2, 3, 5} then 2 else if coeff in {7, 8, 9} then 3 else if coeff == 10 then 28 else 15
  }

  lemma RangeForFits(coeff: int)
    requires coeff in R.COEFFS
    ensures RangeFor(coeff) in THERMAL_RANGES && CoeffFits(RangeFor(coeff), Num(coeff))
  {
  }

  /** A resistor keeps coefficient, unit, smoothing and alarms of the thermal channel it was. */
  lemma ResistorReached(u: R.Channel, kind: int, range: int) returns (w: R.Channel)
    requires RtdReached(u) && TextIn(u.kind, Type, {7, 8, 9}) && kind in {4, 5, 6} && range in {1, 2, 3}
    ensures RtdReached(w) && R.Consistent(w)
    ensures w.kind == Label(Type, kind) && w.range == Label(ResistanceRange, range)
    ensures w.coeff == u.coeff && w.unit == u.unit && w.smooth == u.smooth
    ensures w.overflow == u.overflow && w.openWire == u.openWire && w.underflow == Flag(false)
  {
    hide RtdReached, R.Step, R.Consistent, THERMAL_RANGES;
    TypeOffered(u, kind);
    RtdNext(u, R.SelectType(Label(Type, kind)));
    Effects.RtdType(u, Label(Type, kind));
    var v := R.Step(u, R.SelectType(Label(Type, kind)));
    RangeOffered(v, range);
    RtdNext(v, R.SelectRange(Label(ResistanceRange, range)));
    Effects.RtdRange(v, Label(ResistanceRange, range));
    w := R.Step(v, R.SelectRange(Label(ResistanceRange, range)));
  }

  lemma OffReached(u: R.Channel) returns (w: R.Channel)
    requires RtdReached(u) && R.Consistent(u)
    ensures RtdReached(w)
    ensures w.kind == Label(Type, 0) && w.range == u.range && w.coeff == u.coeff && w.unit == u.unit
    ensures w.smooth == u.smooth
    ensures w.overflow == Flag(false) && w.openWire == Flag(false) && w.underflow == Flag(false)
  {
    hide RtdReached, R.Step, R.Consistent, THERMAL_RANGES;
    TypeOffered(u, 0);
    RtdNext(u, R.SelectType(Label(Type, 0)));
    Effects.RtdType(u, Label(Type, 0));
    w := R.Step(u, R.SelectType(Label(Type, 0)));
  }

  /** The channels an RTD channel can be configured to: the valid ones, but for a deactivated channel
      whose thermal range does not take its coefficient. */
  predicate RtdConfigurable(c: RtdChannel) {
    RtdChannelValid(c) && (c.kind == Num(0) && !OneOf(c.range, {1, 2, 3}) ==> CoeffFits(c.range.n, c.temperCoeff))
  }

  /** The channel the page would show for c, menus aside. */
  predicate ShowsAs(u: R.Channel, c: RtdChannel) {
    && c.kind.Num? && u.kind == Label(Type, c.kind.n)
    && c.range.Num? && u.range == (if OneOf(c.kind, {4, 5, 6}) || (c.kind == Num(0) && c.range.n in {1, 2, 3})
                                   then Label(ResistanceRange, c.range.n) else Label(ThermalRange, c.range.n))
    && c.temperCoeff.Num? && u.coeff == Label(TempCoeff, c.temperCoeff.n)
    && c.temperUnit.Num? && u.unit == Label(TempUnit, c.temperUnit.n)
    && c.smooth.Num? && u.smooth == Label(Smooth, c.smooth.n)
    && u.overflow == c.overflowAlarm && u.underflow == c.underflowAlarm && u.openWire == c.openWireAlarm
  }

  lemma RtdConfigured(c: RtdChannel) returns (u: R.Channel)
    requires RtdConfigurable(c)
    ensures RtdReached(u) && ShowsAs(u, c)
  {
    hide RtdReached, R.Consistent, CoeffFits, THERMAL_RANGES, R.COEFFS;
    CoeffListed(c);
    var coeff, resistance := c.temperCoeff.n, OneOf(c.kind, {4, 5, 6}) || (c.kind == Num(0) && c.range.n in {1, 2, 3});
    RangeForFits(coeff);
    u := ThermalReached(if c.kind.n in {7, 8, 9} then c.kind.n else 7,
                        if resistance then RangeFor(coeff) else c.range.n, coeff);
    u := RestReached(u, c.temperUnit.n, c.smooth.n, c.overflowAlarm.b, c.underflowAlarm.b, c.openWireAlarm.b);
    ReachedConsistent(u);
    if resistance {
      u := ResistorReached(u, if c.kind.n == 0 then 4 else c.kind.n, c.range.n);
    }
    if c.kind.n == 0 {
      u := OffReached(u);
    }
  }

  lemma ReachedConsistent(u: R.Channel)
    requires RtdReached(u)
    ensures R.Consistent(u)
  {
    hide R.Consistent;
    var es :| R.Allowed(R.CHANNEL_DEFAULT, es) && R.Run(R.CHANNEL_DEFAULT, es) == u;
    R.DefaultConsistent();
    R.RunKeeps(R.CHANNEL_DEFAULT, es);
  }

  lemma CoeffListed(c: RtdChannel)
    requires RtdConfigurable(c)
    ensures OneOf(c.temperCoeff, R.COEFFS) && OneOf(c.kind, {0, 4, 5, 6, 7, 8, 9})
    ensures !OneOf(c.kind, {4, 5, 6}) && !(c.kind == Num(0) && c.range.n in {1, 2, 3})
        ==> c.range.n in THERMAL_RANGES && CoeffFits(c.range.n, c.temperCoeff)
  {
    hide CoeffFits;
  }

  lemma ShownIsExported(u: R.Channel, c: RtdChannel, i: nat)
    requires RtdChannelValid(c) && ShowsAs(u, c) && i <= 7
    ensures R.ToDeviceChannel(u, i) == c
  {
    hide R.ToDeviceChannel, R.RTD_TABLE, CoeffFits;
    R.DeviceChannelIs(u, i);
  }

  /** The channel can be exported after a run of edits from the default one. */
  ghost predicate RtdExportable(c: RtdChannel, i: nat)
    requires i <= 7
  {
    exists es :: R.Allowed(R.CHANNEL_DEFAULT, es) && R.ToDeviceChannel(R.Run(R.CHANNEL_DEFAULT, es), i) == c
  }

  /** Exactly the configurable channels can be exported. */
  lemma RtdExportsIff(c: RtdChannel, i: nat)
    requires i <= 7
    ensures RtdExportable(c, i) <==> RtdConfigurable(c)
  {
    hide R.Allowed, R.Run, R.ToDeviceChannel, RtdConfigurable, R.CHANNEL_DEFAULT;
    if RtdConfigurable(c) {
      var u := RtdConfigured(c);
      ConfigurableIsValid(c);
      ShownIsExported(u, c, i);
      var es :| R.Allowed(R.CHANNEL_DEFAULT, es) && R.Run(R.CHANNEL_DEFAULT, es) == u;
      assert R.ToDeviceChannel(R.Run(R.CHANNEL_DEFAULT, es), i) == c;
    }
    if RtdExportable(c, i) {
      var es :| R.Allowed(R.CHANNEL_DEFAULT, es) && R.ToDeviceChannel(R.Run(R.CHANNEL_DEFAULT, es), i) == c;
      R.EveryRunExportsValid(es, i);
      ExportedConfigurable(R.Run(R.CHANNEL_DEFAULT, es), i);
    }
  }

  lemma ConfigurableIsValid(c: RtdChannel)
    requires RtdConfigurable(c)
    ensures RtdChannelValid(c)
  {
  }

  lemma ExportedConfigurable(u: R.Channel, i: nat)
    requires R.Consistent(u) && i <= 7 && RtdChannelValid(R.ToDeviceChannel(u, i))
    ensures RtdConfigurable(R.ToDeviceChannel(u, i))
  {
    hide R.ToDeviceChannel, R.RTD_TABLE, CoeffFits, R.DecideTempCoeff, RtdChannelValid;
    R.DeviceChannelIs(u, i);
    if R.THERMAL_SELECTION.Includes(u.range) {
      R.CoeffFitsIff(u.range, u.coeff);
    }
  }

  // ---------- AI channels ----------

  ghost predicate AiReached(start: seq<A.Channel>, us: seq<A.Channel>) {
    exists es :: A.Run(start, es) == Some(us)
  }

  lemma AiNext(start: seq<A.Channel>, us: seq<A.Channel>, i: nat, e: A.Edit) returns (ws: seq<A.Channel>)
    requires AiReached(start, us) && A.Enabled(us, i, e)
    ensures i < |us| && (e.SelectType? ==> i + 1 < |us|)
    ensures AiReached(start, ws) && ws == A.Step(us, i, e)
  {
    hide A.Enabled, A.Step;
    AiIndexed(us, i, e);
    var es :| A.Run(start, es) == Some(us);
    var fs := es + [A.Change(i, e)];
    assert fs[..|fs| - 1] == es && fs[|fs| - 1] == A.Change(i, e);
    ws := A.Step(us, i, e);
    assert A.Run(start, fs) == Some(ws);
  }

  lemma AiIndexed(us: seq<A.Channel>, i: nat, e: A.Edit)
    requires A.Enabled(us, i, e)
    ensures i < |us| && (e.SelectType? ==> i + 1 < |us|)
  {
  }

  /** Channel i takes the entries of w, which has the same type; the other channels stay. */
  lemma AiChannelReached(start: seq<A.Channel>, us: seq<A.Channel>, i: nat, w: A.Channel) returns (ws: seq<A.Channel>)
    requires AiReached(start, us) && i < |us| && A.Consistent(us[i]) && A.Consistent(w) && us[i].kind == w.kind
    ensures AiReached(start, ws) && ws == us[i := w]
  {
    hide AiReached;
    ws := AiEntered(start, us, i, A.SelectRange(w.range));
    ws := AiEntered(start, ws, i, A.SelectSmooth(w.smooth));
    ws := AiEntered(start, ws, i, A.CheckOverflow(w.overflow.b));
    if A.LiveZero(w) {
      ws := AiEntered(start, ws, i, A.CheckOpenWire(w.openWire.b));
    } else {
      ws := AiEntered(start, ws, i, A.CheckUnderflow(w.underflow.b));
    }
  }

  lemma AiEntered(start: seq<A.Channel>, us: seq<A.Channel>, i: nat, e: A.Edit) returns (ws: seq<A.Channel>)
    requires AiReached(start, us) && A.Enabled(us, i, e) && !e.SelectType?
    ensures AiReached(start, ws) && i < |us| && |ws| == |us| && ws == us[i := ws[i]]
    ensures e.SelectSmooth? ==> ws[i] == us[i].(smooth := e.t)
    ensures e.CheckOpenWire? ==> ws[i] == us[i].(openWire := Flag(e.on))
    ensures e.CheckOverflow? ==> ws[i] == us[i].(overflow := Flag(e.on))
    ensures e.CheckUnderflow? ==> ws[i] == us[i].(underflow := Flag(e.on))
    ensures e.SelectRange? ==> Effects.Ranged(us[i], e.t, ws[i])
  {
    hide AiReached, A.Enabled, A.Step, Effects.Ranged, Effects.Typed;
    ws := AiNext(start, us, i, e);
    Effects.AiEntry(us, i, e);
  }

  /** Both channels of a pair take the entries of another page. */
  lemma AiPairReached(start: seq<A.Channel>, us: seq<A.Channel>, vs: seq<A.Channel>, i: nat)
    returns (ws: seq<A.Channel>)
    requires AiReached(start, us) && |us| == |vs| && i % 2 == 0 && i + 1 < |us|
    requires A.Consistent(us[i]) && A.Consistent(us[i + 1]) && A.Consistent(vs[i]) && A.Consistent(vs[i + 1])
    requires vs[i].kind == vs[i + 1].kind
    ensures AiReached(start, ws) && ws == us[i := vs[i]][i + 1 := vs[i + 1]]
  {
    hide AiReached, A.Consistent;
    var t := vs[i].kind;
    KindListed(vs[i]);
    ws := AiNext(start, us, i, A.SelectType(t));
    Effects.AiEntry(us, i, A.SelectType(t));
    A.TypeConsistent(us[i], t);
    A.TypeConsistent(us[i + 1], t);
    assert ws[i] == A.Cleared(us[i], A.WithType(us[i], t))
           && ws[i + 1] == A.Cleared(us[i + 1], A.WithType(us[i + 1], t));
    ws := AiChannelReached(start, ws, i, vs[i]);
    ws := AiChannelReached(start, ws, i + 1, vs[i + 1]);
  }

  lemma KindListed(u: A.Channel)
    requires A.Consistent(u)
    ensures TextIn(u.kind, Type, A.TYPES)
  {
  }

  /** Pair after pair, up to channel k. */
  lemma {:induction false} AiPairsReached(us: seq<A.Channel>, vs: seq<A.Channel>, k: nat)
    requires A.EachConsistent(us) && A.AllConsistent(vs) && |us| == |vs| && k % 2 == 0 && k <= |us|
    ensures AiReached(us, vs[..k] + us[k..])
  {
    hide AiReached, A.Consistent;
    if k == 0 {
      assert vs[..0] + us[0..] == us;
      AiStart(us);
    } else {
      AiPairsReached(us, vs, k - 2);
      var now := vs[..k - 2] + us[k - 2..];
      assert us[k - 2] in us && us[k - 1] in us && vs[k - 2] in vs && vs[k - 1] in vs;
      var ws := AiPairReached(us, now, vs, k - 2);
      assert ws == vs[..k] + us[k..];
    }
  }

  lemma AiStart(us: seq<A.Channel>)
    ensures AiReached(us, us)
  {
    assert A.Run(us, []) == Some(us);
  }

  /** From any consistent page of channels every consistent and paired one can be reached. */
  lemma AiReaches(us: seq<A.Channel>, vs: seq<A.Channel>)
    requires A.EachConsistent(us) && A.AllConsistent(vs) && |us| == |vs|
    ensures AiReached(us, vs)
  {
    AiPairsReached(us, vs, |us|);
    assert vs[..|us|] + us[|us|..] == vs;
  }

  /** What the channels of an AI page can be configured to: valid ones without a broken-wire alarm on a
      voltage, of one type in each pair. */
  predicate AiConfigurable(cs: seq<AiChannel>) {
    && (forall c :: c in cs ==> AiChannelValid(c) && (c.kind == Num(1) ==> c.openWireAlarm == Flag(false)))
    && (forall j :: 0 <= j < |cs| - 1 && j % 2 == 0 ==> cs[j].kind == cs[j + 1].kind)
  }

  predicate ExportedAs(us: seq<A.Channel>, cs: seq<AiChannel>)
    requires |us| <= 8
  {
    |us| == |cs| && forall i :: 0 <= i < |us| ==> A.ToDeviceChannel(us[i], i) == cs[i]
  }

  /** Exported after a run of edits from the default page. */
  ghost predicate AiExportable(mlfb: string, cs: seq<AiChannel>) {
    exists us: seq<A.Channel> :: |us| <= 8 && AiReached(A.PageDefault(mlfb).channels, us) && ExportedAs(us, cs)
  }

  lemma AiChannelExports(c: AiChannel, i: nat)
    requires AiChannelValid(c) && (c.kind == Num(1) ==> c.openWireAlarm == Flag(false)) && i <= 7
    ensures A.Consistent(A.ToUiChannel(c, i)) && A.ToDeviceChannel(A.ToUiChannel(c, i), i) == c
    ensures A.KindShown(A.ToUiChannel(c, i), c)
  {
    hide A.ToUiChannel, A.ToDeviceChannel, A.AI_TABLE;
    A.UiChannelIs(c, i);
    A.ChannelDeviceRoundTrip(c, i);
  }

  lemma AiChannelExported(u: A.Channel, i: nat)
    requires A.Consistent(u) && i <= 7
    ensures var c := A.ToDeviceChannel(u, i); AiChannelValid(c) && (c.kind == Num(1) ==> c.openWireAlarm == Flag(false))
    ensures u.kind.Label? && A.ToDeviceChannel(u, i).kind == Num(u.kind.code)
  {
    hide A.ToDeviceChannel, A.AI_TABLE;
    A.DeviceChannelIs(u, i);
  }

  /** Exactly the configurable channels can be exported. */
  lemma AiExportsIff(mlfb: string, cs: seq<AiChannel>)
    requires |cs| == A.ChannelNums(mlfb)
    ensures AiExportable(mlfb, cs) <==> AiConfigurable(cs)
  {
    hide A.Consistent, A.ToDeviceChannel, A.ToUiChannel, AiChannelValid, A.PageDefault, AiReached;
    DefaultLength(mlfb);
    A.DefaultConsistent(mlfb);
    var start := A.PageDefault(mlfb).channels;
    if AiConfigurable(cs) {
      var us := seq(|cs|, i requires 0 <= i < |cs| => A.ToUiChannel(cs[i], i));
      forall i | 0 <= i < |us|
        ensures A.Consistent(us[i]) && A.ToDeviceChannel(us[i], i) == cs[i] && A.KindShown(us[i], cs[i])
      {
        assert cs[i] in cs;
        AiChannelExports(cs[i], i);
      }
      AiReaches(start, us);
      assert ExportedAs(us, cs);
    }
    if AiExportable(mlfb, cs) {
      var us: seq<A.Channel> :| |us| <= 8 && AiReached(start, us) && ExportedAs(us, cs);
      AiReachedConsistent(start, us);
      forall i | 0 <= i < |us|
        ensures AiChannelValid(cs[i]) && (cs[i].kind == Num(1) ==> cs[i].openWireAlarm == Flag(false))
        ensures us[i].kind.Label? && cs[i].kind == Num(us[i].kind.code)
      {
        assert us[i] in us;
        AiChannelExported(us[i], i);
      }
    }
  }

  lemma AiReachedConsistent(start: seq<A.Channel>, us: seq<A.Channel>)
    requires A.AllConsistent(start) && AiReached(start, us)
    ensures A.AllConsistent(us)
  {
    hide A.EachConsistent, A.Paired;
    var es :| A.Run(start, es) == Some(us);
    A.RunKeeps(start, es);
  }

  lemma DefaultLength(mlfb: string)
    ensures |A.PageDefault(mlfb).channels| == A.ChannelNums(mlfb) && A.ChannelNums(mlfb) in {4, 8}
  {
  }

  // ---------- digital pages ----------

  function DigitalRun(p: D.Page, es: seq<D.Edit>): Option<D.Page> {
    if es == [] then Some(p)
    else
      match DigitalRun(p, es[..|es| - 1])
      case None => None
      case Some(q) => if D.Enabled(q, es[|es| - 1]) then Some(D.Step(q, es[|es| - 1])) else None
  }

  ghost predicate DigitalReached(start: D.Page, p: D.Page) {
    exists es :: DigitalRun(start, es) == Some(p)
  }

  lemma DigitalNext(start: D.Page, p: D.Page, e: D.Edit)
    requires DigitalReached(start, p) && D.Enabled(p, e)
    ensures DigitalReached(start, D.Step(p, e))
  {
    hide D.Enabled, D.Step;
    var es :| DigitalRun(start, es) == Some(p);
    var fs := es + [e];
    assert fs[..|fs| - 1] == es && fs[|fs| - 1] == e;
    assert DigitalRun(start, fs) == Some(D.Step(p, e));
  }

  lemma {:induction false} DelaysReached(start: D.Page, p: D.Page, ds: seq<UiText>, k: nat)
    requires DigitalReached(start, p) && |ds| == |p.delays| && k <= |ds|
    requires forall d :: d in ds ==> TextIn(d, Time, DELAYS)
    ensures DigitalReached(start, p.(delays := ds[..k] + p.delays[k..]))
  {
    hide DigitalReached;
    if k == 0 {
      assert ds[..0] + p.delays[0..] == p.delays;
    } else {
      DelaysReached(start, p, ds, k - 1);
      var q := p.(delays := ds[..k - 1] + p.delays[k - 1..]);
      DigitalNext(start, q, D.SelectDelay(k - 1, ds[k - 1]));
      assert q.delays[k - 1 := ds[k - 1]] == ds[..k] + p.delays[k..];
    }
  }

  lemma {:induction false} MarksReached(start: D.Page, p: D.Page, ts: seq<UiText>, k: nat)
    requires DigitalReached(start, p) && p.behavior == Label(Disconn, 3) && |ts| == |p.substitute| && k <= |ts|
    requires forall t :: t in ts ==> t.Mark?
    ensures DigitalReached(start, p.(substitute := ts[..k] + p.substitute[k..]))
  {
    hide DigitalReached;
    if k == 0 {
      assert ts[..0] + p.substitute[0..] == p.substitute;
    } else {
      MarksReached(start, p, ts, k - 1);
      var q := p.(substitute := ts[..k - 1] + p.substitute[k - 1..]);
      assert ts[k - 1] in ts;
      DigitalNext(start, q, D.CheckSubstitute(k - 1, ts[k - 1].on));
      assert q.substitute[k - 1 := ts[k - 1]] == ts[..k] + p.substitute[k..];
    }
  }

  /** From any SM1223 page every consistent one of the same module can be reached. */
  lemma DigitalReaches(p: D.Page, q: D.Page)
    requires D.Consistent(p) && D.Consistent(q) && p.mlfb == q.mlfb
    ensures DigitalReached(p, q)
  {
    hide DigitalReached;
    DigitalStart(p);
    DigitalNext(p, p, D.SelectBehavior(Label(Disconn, 3)));
    var r := p.(behavior := Label(Disconn, 3));
    DelaysReached(p, r, q.delays, |q.delays|);
    assert q.delays[..|q.delays|] + r.delays[|q.delays|..] == q.delays;
    var s := r.(delays := q.delays);
    MarksReached(p, s, q.substitute, |q.substitute|);
    assert q.substitute[..|q.substitute|] + s.substitute[|q.substitute|..] == q.substitute;
    DigitalNext(p, s.(substitute := q.substitute), D.SelectBehavior(q.behavior));
  }

  lemma DigitalStart(p: D.Page)
    ensures DigitalReached(p, p)
  {
    assert DigitalRun(p, []) == Some(p);
  }

  // ---------- meters ----------

  ghost predicate MeterReached(start: M.Page, p: M.Page)
    requires |start.channels| == 3
  {
    exists es :: ML.Run(start, es) == Some(p)
  }

  lemma MeterNext(start: M.Page, p: M.Page, e: M.Edit) returns (q: M.Page)
    requires |start.channels| == 3 && |p.channels| == 3 && MeterReached(start, p) && M.Enabled(p, e)
    ensures MeterReached(start, q) && q == M.Step(p, e)
  {
    hide M.Enabled, M.Step;
    var es :| ML.Run(start, es) == Some(p);
    var fs := es + [e];
    assert fs[..|fs| - 1] == es && fs[|fs| - 1] == e;
    q := M.Step(p, e);
    assert ML.Run(start, fs) == Some(q);
  }

  const SLIDERS: seq<M.Slider> := [M.TolVal, M.TolTime, M.CtPrimary, M.LlCur, M.VtSecond, M.VtPrim]
  const BOXES: seq<M.Box> :=
    [M.OverCur, M.OverVol, M.UnderVol, M.LlVol, M.OverCal, M.ActHour, M.EnGate, M.ReCurDir]

  /** Three phases: every channel in use, none following another. */
  const THREE: UiText := Label(ConType, 0x0C)

  predicate InLimits(u: M.Channel, s: M.Slider) {
    Within(Effects.SliderOf(u, s), Effects.Limits(s).0, Effects.Limits(s).1)
  }

  lemma {:induction false} SlidersReached(start: M.Page, p: M.Page, j: nat, w: M.Channel, k: nat) returns (q: M.Page)
    requires |start.channels| == 3 && |p.channels| == 3 && MeterReached(start, p) && p.conType == THREE && j < 3
    requires k <= 6
    requires forall s: M.Slider :: InLimits(w, s)
    ensures MeterReached(start, q) && |q.channels| == 3 && q == p.(channels := p.channels[j := q.channels[j]])
    ensures forall i :: 0 <= i < k ==> Effects.SliderOf(q.channels[j], SLIDERS[i]) == Effects.SliderOf(w, SLIDERS[i])
    ensures Effects.SameBut(p.channels[j], q.channels[j], set s | s in SLIDERS[..k], {})
    ensures q.channels[j].ctSecond == p.channels[j].ctSecond && q.channels[j].ctSelection == p.channels[j].ctSelection
  {
    hide MeterReached, M.Step, M.Enabled;
    if k == 0 {
      q := p;
    } else {
      var r := SlidersReached(start, p, j, w, k - 1);
      var s := SLIDERS[k - 1];
      assert InLimits(w, s);
      var v := Effects.SliderOf(w, s).n;
      AliveSlider(r, j, s, v);
      q := MeterNext(start, r, M.Slide(j, s, v));
      forall i | 0 <= i < 3
        ensures i != j ==> q.channels[i] == r.channels[i]
      {
        Effects.MeterSlider(r, j, s, v, i);
        if i != j { SameChannel(r.channels[i], q.channels[i]); }
      }
      Effects.MeterSlider(r, j, s, v, j);
      assert q.channels == r.channels[j := q.channels[j]];
      SlidersApart();
    }
  }

  lemma SlidersApart()
    ensures forall i, k :: 0 <= i < k < 6 ==> SLIDERS[i] != SLIDERS[k]
    ensures forall s: M.Slider :: s in SLIDERS
  {
    forall s: M.Slider
      ensures s in SLIDERS
    {
      assert SLIDERS[SliderAt(s)] == s;
    }
  }

  function SliderAt(s: M.Slider): (i: nat)
    ensures i < 6 && SLIDERS[i] == s
  {
    match s
    case TolVal => 0
    case TolTime => 1
    case CtPrimary => 2
    case LlCur => 3
    case VtSecond => 4
    case VtPrim => 5
  }

  function BoxAt(b: M.Box): (i: nat)
    ensures i < 8 && BOXES[i] == b
  {
    match b
    case OverCur => 0
    case OverVol => 1
    case UnderVol => 2
    case LlVol => 3
    case OverCal => 4
    case ActHour => 5
    case EnGate => 6
    case ReCurDir => 7
  }

  lemma AliveSlider(p: M.Page, j: nat, s: M.Slider, v: int)
    requires p.conType == THREE && j < 3
    ensures M.Enabled(p, M.Slide(j, s, v))
  {
  }

  lemma AliveBox(p: M.Page, j: nat, b: M.Box, on: bool)
    requires j < 3 && !Effects.Unused(p.conType, j) && (b == M.ReCurDir ==> p.conType == THREE)
    ensures M.Enabled(p, M.Check(j, b, on))
  {
  }

  /** A channel is its sliders, its boxes and its secondary current. */
  lemma SameChannel(u: M.Channel, w: M.Channel)
    requires Effects.SameBut(u, w, {}, {}) && w.ctSecond == u.ctSecond && w.ctSelection == u.ctSelection
    ensures u == w
  {
    hide Effects.SliderOf, Effects.BoxOf;
    SameSliders(u, w);
    SameBoxes(u, w);
  }

  lemma SameBoxes(u: M.Channel, w: M.Channel)
    requires forall b: M.Box :: Effects.BoxOf(w, b) == Effects.BoxOf(u, b)
    ensures w.overCur == u.overCur && w.overVol == u.overVol && w.underVol == u.underVol && w.llVol == u.llVol
    ensures w.overCal == u.overCal && w.actHour == u.actHour && w.enGate == u.enGate && w.reCurDir == u.reCurDir
  {
    assert Effects.BoxOf(w, M.OverCur) == Effects.BoxOf(u, M.OverCur);
    assert Effects.BoxOf(w, M.OverVol) == Effects.BoxOf(u, M.OverVol);
    assert Effects.BoxOf(w, M.UnderVol) == Effects.BoxOf(u, M.UnderVol);
    assert Effects.BoxOf(w, M.LlVol) == Effects.BoxOf(u, M.LlVol);
    assert Effects.BoxOf(w, M.OverCal) == Effects.BoxOf(u, M.OverCal);
    assert Effects.BoxOf(w, M.ActHour) == Effects.BoxOf(u, M.ActHour);
    assert Effects.BoxOf(w, M.EnGate) == Effects.BoxOf(u, M.EnGate);
    assert Effects.BoxOf(w, M.ReCurDir) == Effects.BoxOf(u, M.ReCurDir);
  }

  lemma {:induction false} BoxesReached(start: M.Page, p: M.Page, j: nat, w: M.Channel, k: nat) returns (q: M.Page)
    requires |start.channels| == 3 && |p.channels| == 3 && MeterReached(start, p) && j < 3 && k <= 8
    requires !Effects.Unused(p.conType, j) && (k == 8 ==> p.conType == THREE)
    requires forall b: M.Box :: Effects.BoxOf(w, b).Flag?
    ensures MeterReached(start, q) && |q.channels| == 3 && q == p.(channels := p.channels[j := q.channels[j]])
    ensures forall i :: 0 <= i < k ==> Effects.BoxOf(q.channels[j], BOXES[i]) == Effects.BoxOf(w, BOXES[i])
    ensures Effects.SameBut(p.channels[j], q.channels[j], {}, set b | b in BOXES[..k])
    ensures q.channels[j].ctSecond == p.channels[j].ctSecond && q.channels[j].ctSelection == p.channels[j].ctSelection
  {
    hide MeterReached, M.Step, M.Enabled;
    if k == 0 {
      q := p;
    } else {
      var r := BoxesReached(start, p, j, w, k - 1);
      var b := BOXES[k - 1];
      var on := Effects.BoxOf(w, b).b;
      BoxesApart();
      AliveBox(r, j, b, on);
      q := MeterNext(start, r, M.Check(j, b, on));
      forall i | 0 <= i < 3
        ensures i != j ==> q.channels[i] == r.channels[i]
      {
        Effects.MeterBox(r, j, b, on, i);
        if i != j { SameChannel(r.channels[i], q.channels[i]); }
      }
      Effects.MeterBox(r, j, b, on, j);
      assert q.channels == r.channels[j := q.channels[j]];
      BoxesApart();
    }
  }

  lemma SameSliders(u: M.Channel, w: M.Channel)
    requires forall s: M.Slider :: Effects.SliderOf(w, s) == Effects.SliderOf(u, s)
    ensures w.tolVal == u.tolVal && w.tolTime == u.tolTime && w.ctPrimary == u.ctPrimary
    ensures w.llCur == u.llCur && w.vtSecond == u.vtSecond && w.vtPrim == u.vtPrim
  {
    assert Effects.SliderOf(w, M.TolVal) == Effects.SliderOf(u, M.TolVal);
    assert Effects.SliderOf(w, M.TolTime) == Effects.SliderOf(u, M.TolTime);
    assert Effects.SliderOf(w, M.CtPrimary) == Effects.SliderOf(u, M.CtPrimary);
    assert Effects.SliderOf(w, M.LlCur) == Effects.SliderOf(u, M.LlCur);
    assert Effects.SliderOf(w, M.VtSecond) == Effects.SliderOf(u, M.VtSecond);
    assert Effects.SliderOf(w, M.VtPrim) == Effects.SliderOf(u, M.VtPrim);
  }

  lemma BoxesApart()
    ensures forall i, k :: 0 <= i < k < 8 ==> BOXES[i] != BOXES[k]
    ensures forall b: M.Box :: b in BOXES
  {
    forall b: M.Box
      ensures b in BOXES
    {
      assert BOXES[BoxAt(b)] == b;
    }
  }

  /** Under the three-phase type, channel j takes the entries of any other channel. */
  lemma MeterChannelReached(start: M.Page, p: M.Page, j: nat, w: M.Channel) returns (q: M.Page)
    requires |start.channels| == 3 && |p.channels| == 3 && MeterReached(start, p) && p.conType == THREE && j < 3
    requires (forall s: M.Slider :: InLimits(w, s)) && forall b: M.Box :: Effects.BoxOf(w, b).Flag?
    requires p.channels[j].ctSelection == M.BOTH_CTS && M.BOTH_CTS.Includes(w.ctSecond)
    ensures MeterReached(start, q) && |q.channels| == 3
    ensures q == p.(channels := p.channels[j := w.(ctSelection := M.BOTH_CTS)])
  {
    hide MeterReached, M.Step, M.Enabled, InLimits, Effects.SliderOf, Effects.BoxOf;
    SlidersApart();
    BoxesApart();
    var r := SlidersReached(start, p, j, w, 6);
    var t := BoxesReached(start, r, j, w, 8);
    AliveCurrent(t, j, w.ctSecond);
    q := MeterNext(start, t, M.SelectCtSecond(j, w.ctSecond));
    forall i | 0 <= i < 3
      ensures q.channels[i] == if i == j then t.channels[i].(ctSecond := w.ctSecond) else t.channels[i]
    {
      Effects.MeterCurrent(t, j, w.ctSecond, i);
    }
    forall s: M.Slider
      ensures Effects.SliderOf(t.channels[j], s) == Effects.SliderOf(w, s)
    {
      var i := SliderAt(s);
      assert Effects.SliderOf(r.channels[j], SLIDERS[i]) == Effects.SliderOf(w, SLIDERS[i]);
    }
    forall b: M.Box
      ensures Effects.BoxOf(t.channels[j], b) == Effects.BoxOf(w, b)
    {
      var i := BoxAt(b);
      assert Effects.BoxOf(t.channels[j], BOXES[i]) == Effects.BoxOf(w, BOXES[i]);
    }
    Effects.MeterCurrent(t, j, w.ctSecond, j);
    MixedChannel(t.channels[j], w);
    assert t.channels == p.channels[j := t.channels[j]];
    assert q.channels[j] == w.(ctSelection := M.BOTH_CTS);
    assert q.channels == p.channels[j := w.(ctSelection := M.BOTH_CTS)];
  }

  lemma MixedChannel(u: M.Channel, w: M.Channel)
    requires Effects.SameBut(w, u, {}, {})
    ensures u.(ctSecond := w.ctSecond) == w.(ctSelection := u.ctSelection)
  {
    hide Effects.SliderOf, Effects.BoxOf;
    SameSliders(w, u);
    SameBoxes(w, u);
  }

  lemma AliveCurrent(p: M.Page, j: nat, t: UiText)
    requires |p.channels| == 3 && p.conType == THREE && j < 3 && p.channels[j].ctSelection.Includes(t)
    ensures M.Enabled(p, M.SelectCtSecond(j, t))
  {
  }

  /** The entries of the module, under the three-phase type. */
  lemma ModuleReached(start: M.Page, p: M.Page, q: M.Page) returns (r: M.Page)
    requires |start.channels| == 3 && |p.channels| == 3 && MeterReached(start, p) && p.conType == THREE
    requires ML.Consistent(q)
    ensures MeterReached(start, r) && |r.channels| == 3 && r.conType == THREE && r.channels == p.channels
    ensures r.version == q.version && r.variant == q.variant
    ensures r == q.(conType := THREE, variantSelection := r.variantSelection, channels := p.channels, mlfb := p.mlfb)
  {
    hide MeterReached, M.Step, ML.Consistent, M.Enabled, Variants, TextIn, Within;
    ModuleEntries(q);
    VariantListed(q);
    VersionOffered(p, q.version);
    r := MeterNext(start, p, M.SelectVersion(q.version));
    Effects.MeterVersion(p, q.version);
    r := MeterEntered(start, r, M.SelectVariant(q.variant));
    r := MeterEntered(start, r, M.SelectRange(q.range));
    r := MeterEntered(start, r, M.SelectFreq(q.freq));
    r := MeterEntered(start, r, M.SelectPeriod(q.period));
    r := MeterEntered(start, r, M.CheckGate(q.gate.b));
    r := MeterEntered(start, r, M.CheckMinMax(q.minMax.b));
    r := MeterEntered(start, r, M.CheckDiagLine(q.diagLine.b));
    r := MeterEntered(start, r, M.SlideLineTol(q.lineTol.n));
  }

  lemma VersionOffered(p: M.Page, version: UiText)
    requires p.conType == THREE && TextIn(version, ModVer, {32, 112})
    ensures M.Enabled(p, M.SelectVersion(version)) && TextIn(p.conType, ConType, CON_TYPES)
  {
  }

  lemma ModuleEntries(q: M.Page)
    requires ML.Consistent(q)
    ensures TextIn(q.version, ModVer, {32, 112}) && TextIn(q.conType, ConType, CON_TYPES)
    ensures TextIn(q.range, Range, M.RANGES)
    ensures TextIn(q.freq, LineFreq, M.FREQS) && TextIn(q.period, PeriodMeters, M.PERIODS)
    ensures q.gate.Flag? && q.minMax.Flag? && q.diagLine.Flag? && Within(q.lineTol, 1, 50) && q.mlfb == SM1238
  {
  }

  /** The three-phase menu holds every variant that another connection type allows. */
  lemma VariantListed(q: M.Page)
    requires ML.Consistent(q)
    ensures TextIn(q.version, ModVer, {32, 112}) && TextIn(q.conType, ConType, CON_TYPES)
    ensures TextIn(q.variant, DataVariant, Variants(q.version.code, q.conType.code))
    ensures q.variantSelection == Selection(DataVariant, Variants(q.version.code, q.conType.code))
    ensures TextIn(q.variant, DataVariant, Variants(q.version.code, 0x0C))
  {
    hide M.VariantsFor, Variants, ML.ChannelSound, ML.ChannelConsistent;
    ModuleEntries(q);
    Effects.VariantIs(q);
    ML.VariantsMatchSchema(q.version, q.conType);
    MoreVariants(q.version.code, q.conType.code);
    ML.VariantsTotal(q.version, q.conType);
  }

  lemma MoreVariants(version: int, conType: int)
    ensures Variants(version, conType) <= Variants(version, 0x0C)
  {
  }

  predicate Listed(p: M.Page, e: M.Edit) {
    && (e.SelectVariant? ==> p.variantSelection.Includes(e.t))
    && (e.SelectRange? ==> TextIn(e.t, Range, M.RANGES))
    && (e.SelectFreq? ==> TextIn(e.t, LineFreq, M.FREQS))
    && (e.SelectPeriod? ==> TextIn(e.t, PeriodMeters, M.PERIODS))
  }

  lemma ListedIsOffered(p: M.Page, e: M.Edit)
    requires p.conType != Label(ConType, 0x00) && Listed(p, e)
    requires e.SelectVariant? || e.SelectRange? || e.SelectFreq? || e.SelectPeriod? || e.CheckGate? || e.CheckMinMax?
             || e.CheckDiagLine? || e.SlideLineTol?
    ensures M.Enabled(p, e)
  {
    hide TextIn;
  }

  lemma MeterEntered(start: M.Page, p: M.Page, e: M.Edit) returns (q: M.Page)
    requires |start.channels| == 3 && |p.channels| == 3 && MeterReached(start, p)
    requires p.conType != Label(ConType, 0x00) && Listed(p, e)
    requires e.SelectVariant? || e.SelectRange? || e.SelectFreq? || e.SelectPeriod? || e.CheckGate? || e.CheckMinMax?
             || e.CheckDiagLine? || e.SlideLineTol?
    ensures MeterReached(start, q)
    ensures e.SelectVariant? ==> q == p.(variant := e.t)
    ensures e.SelectRange? ==> q == p.(range := e.t)
    ensures e.SelectFreq? ==> q == p.(freq := e.t)
    ensures e.SelectPeriod? ==> q == p.(period := e.t)
    ensures e.CheckGate? ==> q == p.(gate := Flag(e.on))
    ensures e.CheckMinMax? ==> q == p.(minMax := Flag(e.on))
    ensures e.CheckDiagLine? ==> q == p.(diagLine := Flag(e.on))
    ensures e.SlideLineTol? ==> q == p.(lineTol := Num(Effects.Nearest(e.v, 1, 50)))
  {
    hide MeterReached, M.Step, M.Enabled, Listed;
    ListedIsOffered(p, e);
    q := MeterNext(start, p, e);
    Effects.MeterEntry(p, e);
  }

  predicate Set(u: M.Channel) {
    u.reCurDir == Flag(true)
  }

  /** A page within reach: a consistent one on which the boxes of a deactivated module and the directions
      of unused channels are clear. On a balanced connection the directions can be all clear, all set, set
      on channel 0 alone, or set on channels 0 and 2. */
  ghost predicate MeterConfigurable(q: M.Page) {
    && ML.Consistent(q)
    && (q.conType == Label(ConType, 0x00) ==>
          q.gate == Flag(false) && q.minMax == Flag(false) && q.diagLine == Flag(false))
    && (forall j :: 0 <= j < 3 && Effects.Unused(q.conType, j) ==> q.channels[j].reCurDir == Flag(false))
    && (q.conType == Label(ConType, 0x0E) ==> DirectionsFit(q))
  }

  predicate DirectionsFit(q: M.Page)
    requires |q.channels| == 3
  {
    (Set(q.channels[1]) ==> Set(q.channels[2])) && (Set(q.channels[2]) ==> Set(q.channels[0]))
  }

  lemma ChannelEntries(q: M.Page, j: nat)
    requires ML.Consistent(q) && j < 3
    ensures |q.channels| == 3 && M.BOTH_CTS.Includes(q.channels[j].ctSecond)
    ensures forall s: M.Slider :: InLimits(q.channels[j], s)
    ensures forall b: M.Box :: Effects.BoxOf(q.channels[j], b).Flag?
  {
    ML.ShapeOfSound(q);
    assert ML.ChannelSound(q.conType, q.channels[j]) && ML.ChannelConsistent(q.conType, j, q.channels[j]);
  }

  /** The three-phase page with the entries of q. */
  lemma ThreePhaseReached(p: M.Page, q: M.Page) returns (r: M.Page)
    requires ML.Consistent(p) && ML.Consistent(q)
    ensures |p.channels| == 3 && |q.channels| == 3 && MeterReached(p, r)
    ensures r == q.(conType := THREE, variantSelection := r.variantSelection, channels := r.channels)
    ensures r.channels == seq(3, j requires 0 <= j < 3 => q.channels[j].(ctSelection := M.BOTH_CTS))
  {
    hide MeterReached, ML.Consistent, M.Step, M.Enabled, InLimits, Effects.BoxOf;
    PageShape(p);
    PageShape(q);
    MeterStart(p);
    TypeChoosable(p, THREE);
    r := MeterNext(p, p, M.SelectConType(THREE));
    ML.StepKeeps(p, M.SelectConType(THREE));
    PageShape(r);
    Effects.MeterConnection(p, THREE, 0);
    r := ModuleReached(p, r, q);
    ChannelEntries(q, 0);
    ChannelEntries(q, 1);
    ChannelEntries(q, 2);
    r := MeterChannelReached(p, r, 0, q.channels[0]);
    r := MeterChannelReached(p, r, 1, q.channels[1]);
    r := MeterChannelReached(p, r, 2, q.channels[2]);
  }

  lemma MeterStart(p: M.Page)
    requires |p.channels| == 3
    ensures MeterReached(p, p)
  {
    assert ML.Run(p, []) == Some(p);
  }

  lemma PageShape(p: M.Page)
    requires ML.Consistent(p)
    ensures |p.channels| == 3 && p.mlfb == SM1238 && TextIn(p.version, ModVer, {32, 112})
    ensures p.conType == THREE ==> forall j :: 0 <= j < 3 ==> p.channels[j].ctSelection == M.BOTH_CTS
  {
    ML.ShapeOfSound(p);
    assert forall j :: 0 <= j < 3 ==> ML.ChannelConsistent(p.conType, j, p.channels[j]);
  }

  lemma TypeChoosable(p: M.Page, t: UiText)
    requires TextIn(t, ConType, CON_TYPES) || t in {THREE, TWO}
    ensures M.Enabled(p, M.SelectConType(t)) && TextIn(t, ConType, CON_TYPES)
  {
  }

  /** From any consistent page every configurable one can be reached. */
  lemma MeterReaches(p: M.Page, q: M.Page)
    requires ML.Consistent(p) && MeterConfigurable(q)
    ensures |p.channels| == 3 && MeterReached(p, q)
  {
    hide MeterReached, ML.Consistent, DirectionsFit;
    PageShape(p);
    PageShape(q);
    if q.conType != Label(ConType, 0x0E) {
      UnbalancedReached(p, q);
    } else {
      BalancedReached(p, q);
    }
  }

  lemma UnbalancedReached(p: M.Page, q: M.Page)
    requires ML.Consistent(p) && MeterConfigurable(q) && q.conType != Label(ConType, 0x0E)
    ensures |p.channels| == 3 && MeterReached(p, q)
  {
    hide MeterReached, ML.Consistent, M.Step, M.Enabled, Variants, Effects.VariantAfter, TextIn;
    PageShape(q);
    var r := ThreePhaseReached(p, q);
    ModuleEntries(q);
    TypeChoosable(r, q.conType);
    var t := MeterNext(p, r, M.SelectConType(q.conType));
    VariantListed(q);
    KeptVariant(q);
    forall j | 0 <= j < 3
      ensures t.channels[j] == q.channels[j]
    {
      Effects.MeterConnection(r, q.conType, j);
      LastChange(q, j);
    }
    Effects.MeterConnection(r, q.conType, 0);
    assert t.channels == q.channels;
  }

  lemma KeptVariant(q: M.Page)
    requires q.version.Label? && q.conType.Label?
    requires TextIn(q.variant, DataVariant, Variants(q.version.code, q.conType.code))
    ensures Effects.VariantAfter(q.variant, q.version.code, q.conType.code) == q.variant
  {
  }

  /** The choice of q's connection type changes nothing any more but what q has. */
  lemma LastChange(q: M.Page, j: nat)
    requires MeterConfigurable(q) && q.conType != Label(ConType, 0x0E) && j < 3
    ensures |q.channels| == 3
    ensures var u := q.channels[j].(ctSelection := M.BOTH_CTS);
      Effects.ConnectedChannel(THREE, q.conType, j, u, u) == q.channels[j]
  {
    ML.ShapeOfSound(q);
    assert ML.ChannelSound(q.conType, q.channels[j]) && ML.ChannelConsistent(q.conType, j, q.channels[j]);
  }

  const BALANCED: UiText := Label(ConType, 0x0E)
  const TWO: UiText := Label(ConType, 0x10)

  lemma BalancedEntries(q: M.Page, j: nat)
    requires ML.Consistent(q) && q.conType == BALANCED && j < 3
    ensures |q.channels| == 3 && q.channels[j].ctSelection == M.BOTH_CTS
    ensures j > 0 ==> ML.SameMirrored(q.channels[j], q.channels[0])
  {
    hide ML.VariantSound, ML.MenuCurrent, ML.ChannelSound;
    ML.ShapeOfSound(q);
    assert ML.ChannelConsistent(q.conType, j, q.channels[j]);
  }

  /** The choice of the balanced connection after the three-phase one: the copies are there already, and
      the directions of channels 1 and 2 are cleared. */
  lemma MirrorChange(q: M.Page, j: nat)
    requires MeterConfigurable(q) && q.conType == BALANCED && j < 3
    ensures |q.channels| == 3 && q.channels[j].ctSelection == M.BOTH_CTS
    ensures Effects.ConnectedChannel(THREE, BALANCED, j, q.channels[j], q.channels[0])
         == if j == 0 then q.channels[0] else q.channels[j].(reCurDir := Flag(false))
  {
    hide ML.Consistent, DirectionsFit;
    BalancedEntries(q, 0);
    BalancedEntries(q, j);
  }

  /** By way of two phases channel 2 keeps the copy of channel 0's direction, and loses its other boxes. */
  lemma TwoPhaseChange(q: M.Page, j: nat)
    requires MeterConfigurable(q) && q.conType == BALANCED && j < 3
    ensures |q.channels| == 3
    ensures var u0 := Effects.ConnectedChannel(THREE, TWO, 0, q.channels[0], q.channels[0]);
      var u := Effects.ConnectedChannel(THREE, TWO, j, q.channels[j], q.channels[j]);
      var w := Effects.ConnectedChannel(TWO, BALANCED, j, u, u0);
      && (j == 0 ==> w == q.channels[0])
      && (j == 1 ==> w == q.channels[1].(reCurDir := Flag(false)))
      && (j == 2 ==> w == q.channels[2].(
                           reCurDir := q.channels[0].reCurDir, overCur := Flag(false), overVol := Flag(false),
                           underVol := Flag(false), llVol := Flag(false), overCal := Flag(false),
                           actHour := Flag(false), enGate := Flag(false)))
  {
    hide ML.Consistent, DirectionsFit;
    BalancedEntries(q, 0);
    BalancedEntries(q, j);
  }

  /** The balanced page with the entries of q, but with the directions the choice of 0E leaves. */
  lemma MirrorReached(p: M.Page, q: M.Page) returns (t: M.Page)
    requires ML.Consistent(p) && MeterConfigurable(q) && q.conType == BALANCED
    ensures |p.channels| == 3 && |q.channels| == 3 && MeterReached(p, t)
    ensures t == q.(channels := [q.channels[0], q.channels[1].(reCurDir := Flag(false)),
                                 q.channels[2].(reCurDir := Flag(false))])
  {
    hide MeterReached, ML.Consistent, M.Step, M.Enabled, Variants, Effects.VariantAfter, TextIn, DirectionsFit,
         Effects.ConnectedChannel;
    PageShape(q);
    var r := ThreePhaseReached(p, q);
    ModuleEntries(q);
    TypeChoosable(r, BALANCED);
    t := MeterNext(p, r, M.SelectConType(BALANCED));
    VariantListed(q);
    KeptVariant(q);
    forall j | 0 <= j < 3
      ensures t.channels[j] == if j == 0 then q.channels[0] else q.channels[j].(reCurDir := Flag(false))
    {
      MirrorChange(q, 0);
      MirrorChange(q, j);
      assert r.channels[j] == q.channels[j] && r.channels[0] == q.channels[0];
      Effects.MeterConnection(r, BALANCED, j);
    }
    Effects.MeterConnection(r, BALANCED, 0);
  }

  /** The same by way of two phases: the direction of channel 2 is the one of channel 0. */
  lemma DetourReached(p: M.Page, q: M.Page) returns (t: M.Page)
    requires ML.Consistent(p) && MeterConfigurable(q) && q.conType == BALANCED
    ensures |p.channels| == 3 && |q.channels| == 3 && MeterReached(p, t)
    ensures t == q.(channels := [q.channels[0], q.channels[1].(reCurDir := Flag(false)),
                                 q.channels[2].(reCurDir := q.channels[0].reCurDir)])
  {
    hide MeterReached, ML.Consistent, M.Step, M.Enabled, Variants, Effects.VariantAfter, TextIn, DirectionsFit,
         Effects.ConnectedChannel, Effects.BoxOf, Effects.SliderOf, InLimits;
    PageShape(q);
    var r := ThreePhaseReached(p, q);
    ModuleEntries(q);
    TypeChoosable(r, TWO);
    var two := MeterNext(p, r, M.SelectConType(TWO));
    TypeChoosable(two, BALANCED);
    Effects.MeterConnection(r, TWO, 0);
    t := MeterNext(p, two, M.SelectConType(BALANCED));
    forall j | 0 <= j < 3
      ensures t.channels[j] == TwoPhased(q, j)
    {
      MirrorChange(q, j);
      MirrorChange(q, 0);
      assert r.channels[j] == q.channels[j] && r.channels[0] == q.channels[0];
      Effects.MeterConnection(r, TWO, j);
      Effects.MeterConnection(two, BALANCED, j);
      TwoPhaseChange(q, j);
    }
    Effects.MeterConnection(two, BALANCED, 0);
    TwoPhaseChange(q, 0);
    TwoPhaseChange(q, 1);
    ChannelEntries(q, 2);
    var back := BoxesReached(p, t, 2, q.channels[2], 7);
    BoxesBack(q, t.channels[2], back.channels[2]);
    VariantListed(q);
    t := MeterEntered(p, back, M.SelectVariant(q.variant));
    assert t.channels == [q.channels[0], q.channels[1].(reCurDir := Flag(false)),
                          q.channels[2].(reCurDir := q.channels[0].reCurDir)];
  }

  function TwoPhased(q: M.Page, j: nat): M.Channel
    requires |q.channels| == 3 && j < 3
  {
    var u0 := Effects.ConnectedChannel(THREE, TWO, 0, q.channels[0], q.channels[0]);
    var u := Effects.ConnectedChannel(THREE, TWO, j, q.channels[j], q.channels[j]);
    Effects.ConnectedChannel(TWO, BALANCED, j, u, u0)
  }

  /** All boxes but the direction set again. */
  lemma BoxesBack(q: M.Page, u: M.Channel, w: M.Channel)
    requires MeterConfigurable(q) && q.conType == BALANCED && |q.channels| == 3 && u == TwoPhased(q, 2)
    requires forall i :: 0 <= i < 7 ==> Effects.BoxOf(w, BOXES[i]) == Effects.BoxOf(q.channels[2], BOXES[i])
    requires Effects.SameBut(u, w, {}, set b | b in BOXES[..7])
    requires w.ctSecond == u.ctSecond && w.ctSelection == u.ctSelection
    ensures w == q.channels[2].(reCurDir := q.channels[0].reCurDir)
  {
    hide ML.Consistent, Effects.ConnectedChannel;
    TwoPhaseChange(q, 2);
    BoxesApart();
    SameSliders(u, w);
    assert Effects.BoxOf(w, M.ReCurDir) == Effects.BoxOf(u, M.ReCurDir);
    assert Effects.BoxOf(w, BOXES[0]) == Effects.BoxOf(q.channels[2], BOXES[0]);
    assert Effects.BoxOf(w, BOXES[1]) == Effects.BoxOf(q.channels[2], BOXES[1]);
    assert Effects.BoxOf(w, BOXES[2]) == Effects.BoxOf(q.channels[2], BOXES[2]);
    assert Effects.BoxOf(w, BOXES[3]) == Effects.BoxOf(q.channels[2], BOXES[3]);
    assert Effects.BoxOf(w, BOXES[4]) == Effects.BoxOf(q.channels[2], BOXES[4]);
    assert Effects.BoxOf(w, BOXES[5]) == Effects.BoxOf(q.channels[2], BOXES[5]);
    assert Effects.BoxOf(w, BOXES[6]) == Effects.BoxOf(q.channels[2], BOXES[6]);
  }

  lemma BalancedReached(p: M.Page, q: M.Page)
    requires ML.Consistent(p) && MeterConfigurable(q) && q.conType == BALANCED
    ensures |p.channels| == 3 && MeterReached(p, q)
  {
    hide MeterReached, ML.Consistent, M.Step, M.Enabled;
    PageShape(p);
    PageShape(q);
    Ticks(q);
    if Set(q.channels[2]) && !Set(q.channels[1]) {
      var t := DetourReached(p, q);
      assert t.channels == q.channels;
    } else {
      var t := MirrorReached(p, q);
      if Set(q.channels[1]) {
        BalancedDirection(t);
        var all := MeterNext(p, t, M.Check(0, M.ReCurDir, true));
        AllTicked(t, q);
      } else {
        assert t.channels == q.channels;
      }
    }
  }

  lemma Ticks(q: M.Page)
    requires ML.Consistent(q)
    ensures |q.channels| == 3 && forall j :: 0 <= j < 3 ==> q.channels[j].reCurDir.Flag?
  {
    ML.ShapeOfSound(q);
    assert forall j :: 0 <= j < 3 ==> ML.ChannelSound(q.conType, q.channels[j]);
  }

  lemma BalancedDirection(t: M.Page)
    requires t.conType == BALANCED
    ensures M.Enabled(t, M.Check(0, M.ReCurDir, true))
  {
  }

  lemma AllTicked(t: M.Page, q: M.Page)
    requires |q.channels| == 3 && q.conType == BALANCED && M.Enabled(t, M.Check(0, M.ReCurDir, true))
    requires Set(q.channels[0]) && Set(q.channels[1]) && Set(q.channels[2])
    requires t == q.(channels := [q.channels[0], q.channels[1].(reCurDir := Flag(false)),
                                  q.channels[2].(reCurDir := Flag(false))])
    ensures M.Step(t, M.Check(0, M.ReCurDir, true)) == q
  {
    hide M.Cleared;
    ML.SettledNothing(M.Handled(t, M.Check(0, M.ReCurDir, true)));
    assert M.Handled(t, M.Check(0, M.ReCurDir, true)).channels == q.channels;
  }
}

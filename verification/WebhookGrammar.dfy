/**
 What packages/parser-go/parser.go accepts, said of the text and of the signal it
 stands for, without the parser's loop or its flags.
 */
module WebhookGrammar {
  import opened Text
  import opened WebhookTables
  import opened WebhookAliases
  import opened WebhookParser

  // ---------------------------------------------------------------- text

  predicate Blank(c: char) {
    c == ' ' || c == '\t' || c == '\n' || c == '\r'
  }

  /** `t` is `s` without the blanks around it. */
  ghost predicate Bares(s: string, t: string) {
    && (exists i, j :: 0 <= i <= j <= |s| && Within(s, i, j, t))
    && (t != "" ==> !Blank(t[0]) && !Blank(t[|t| - 1]))
  }

  ghost predicate Within(s: string, i: int, j: int, t: string)
    requires 0 <= i <= j <= |s|
  {
    t == s[i..j] && forall k :: 0 <= k < i || j <= k < |s| ==> Blank(s[k])
  }

  lemma {:induction false} LeftBared(s: string) returns (i: nat)
    ensures i <= |s| && TrimLeft(Ascii, s) == s[i..] && forall k :: 0 <= k < i ==> Blank(s[k])
  {
    i := 0;
    if s != "" && IsSpace(Ascii, s[0]) {
      var rest := LeftBared(s[1..]);
      i := rest + 1;
      assert s[1..][rest..] == s[i..];
      forall k | 0 <= k < i ensures Blank(s[k]) {
        if k > 0 { assert s[k] == s[1..][k - 1]; }
      }
    }
  }

  lemma {:induction false} RightBared(s: string) returns (j: nat)
    ensures j <= |s| && TrimRight(Ascii, s) == s[..j] && forall k :: j <= k < |s| ==> Blank(s[k])
  {
    j := |s|;
    if s != "" && IsSpace(Ascii, s[|s| - 1]) {
      j := RightBared(s[..|s| - 1]);
      assert s[..|s| - 1][..j] == s[..j];
      forall k | j <= k < |s| ensures Blank(s[k]) {
        if k < |s| - 1 { assert s[k] == s[..|s| - 1][k]; }
      }
    }
  }

  lemma TrimBares(s: string)
    ensures Bares(s, TrimAscii(s))
  {
    hide TrimLeft, TrimRight, Within;
    var i := LeftBared(s);
    var left := s[i..];
    var j := RightBared(left);
    TrimFacts(Ascii, s);
    WithinOf(s, i, i + j);
  }

  lemma WithinOf(s: string, i: nat, j: nat)
    requires i <= j <= |s|
    requires (forall k :: 0 <= k < i ==> Blank(s[k])) && (forall k :: j - i <= k < |s[i..]| ==> Blank(s[i..][k]))
    ensures Within(s, i, j, s[i..][..j - i])
  {
    forall k | j <= k < |s| ensures Blank(s[k]) { assert s[k] == s[i..][k - i]; }
  }

  lemma {:induction false} JoinSplit(s: string, sep: char)
    ensures Join(Split(s, sep), sep) == s
  {
    if s != "" {
      JoinSplit(s[1..], sep);
      var r := Split(s[1..], sep);
      if s[0] == sep {
        assert ([""] + r)[1..] == r;
      } else {
        assert ([[s[0]] + r[0]] + r[1..])[1..] == r[1..];
      }
    }
  }

  /** The fields of a body: what is between its commas, bared; the body is bared first. */
  ghost predicate FieldsOf(body: string, fs: seq<string>) {
    exists t: string, pieces: seq<string> :: Bares(body, t) && Pieces(t, pieces, fs)
  }

  ghost predicate Pieces(t: string, pieces: seq<string>, fs: seq<string>) {
    && |pieces| == |fs| > 0 && Join(pieces, ',') == t
    && forall i :: 0 <= i < |fs| ==> ',' !in pieces[i] && Bares(pieces[i], fs[i])
  }

  lemma {:induction false} BaredAll(pieces: seq<string>)
    ensures forall i :: 0 <= i < |pieces| ==> Bares(pieces[i], TrimAll(pieces)[i])
  {
    hide Bares, TrimAscii;
    if pieces != [] {
      TrimBares(pieces[0]);
      BaredAll(pieces[1..]);
    }
  }

  /** The parser works on the fields of the body. */
  lemma FieldsRead(body: string)
    ensures FieldsOf(body, Fields(TrimAscii(body)))
  {
    hide Bares, TrimAscii, Split, Join, TrimAll;
    var t := TrimAscii(body);
    var pieces := Split(t, ',');
    TrimBares(body);
    JoinSplit(t, ',');
    SplitFacts(t, ',');
    BaredAll(pieces);
    assert forall i :: 0 <= i < |pieces| ==> pieces[i] in pieces;
    assert Pieces(t, pieces, Fields(t));
  }

  // ---------------------------------------------------------------- parameters

  /** The field is a key and a value around its first '=', both there, and the key is one of the parameter's. */
  predicate Reads(raw: string, p: Param) {
    && Keyed(p.key, p.kind) && p.key != "" && p.value != ""
    && exists i :: 0 <= i < |raw| && raw[i] == '=' && '=' !in raw[..i]
                   && p.key == TrimAscii(raw[..i]) && p.value == TrimAscii(raw[i + 1..])
  }

  lemma KeyedIffKind(key: string, k: ParamKind)
    ensures Keyed(key, k) <==> k != Unknown && KindFrom(key) == k
  {
    hide KindFrom, EqFold;
    if k != Unknown { KeyIff(key, k); }
  }

  lemma ReadIff(raw: string, p: Param)
    ensures ReadParam(raw) == Ok(p) <==> Reads(raw, p)
    ensures Reads(raw, p) ==> raw != ""
  {
    hide KindFrom, Keyed, TrimAscii;
    KeyedIffKind(p.key, p.kind);
    var i := IndexOf(raw, '=');
    if i < |raw| { KeyedIffKind(TrimAscii(raw[..i]), KindFrom(TrimAscii(raw[..i]))); }
    if Reads(raw, p) {
      var j :| 0 <= j < |raw| && raw[j] == '=' && '=' !in raw[..j]
               && p.key == TrimAscii(raw[..j]) && p.value == TrimAscii(raw[j + 1..]);
      FirstOnly(raw, i, j);
    }
  }

  lemma FirstOnly(raw: string, i: nat, j: nat)
    requires i <= |raw| && j < |raw| && raw[j] == '=' && '=' !in raw[..j]
    requires (i < |raw| ==> raw[i] == '=') && '=' !in raw[..i]
    ensures i == j
  {
  }

  const VOLUMES: set<ParamKind> := {VolLots, VolDollar, VolPctBalanceLoss, VolPctEquityLoss, VolPctBalanceMargin}
  const STOPS: set<ParamKind> := {Sl, SlPips, SlPrice, SlPct}
  const TARGETS: set<ParamKind> := {Tp, TpPips, TpPrice, TpPct}
  const ENTRIES: set<ParamKind> := {Pending, EntryPrice, EntryPips, EntryPct}

  /** The commands that leave an order at rest. */
  predicate Rests(c: Command) {
    c in {BuyStop, BuyLimit, SellStop, SellLimit,
          CancelLongBuyStop, CancelLongBuyLimit, CancelShortSellStop, CancelShortSellLimit}
  }

  /** The commands that open at the market. */
  predicate Opens(c: Command) {
    c in {Buy, Sell, CloseLongOpenLong, CloseLongOpenShort, CloseShortOpenLong, CloseShortOpenShort,
          CloseLongShortOpenLong, CloseLongShortOpenShort}
  }

  predicate Amends(c: Command) {
    c in {NewSltpLong, NewSltpShort, NewSltpBuyStop, NewSltpBuyLimit, NewSltpSellStop, NewSltpSellLimit}
  }

  /** Some parameter is of one of the kinds. */
  predicate Has(ps: seq<Param>, kinds: set<ParamKind>) {
    exists i :: 0 <= i < |ps| && ps[i].kind in kinds
  }

  predicate AtMostOne(ps: seq<Param>, kinds: set<ParamKind>) {
    forall i, j :: 0 <= i < j < |ps| ==> !(ps[i].kind in kinds && ps[j].kind in kinds)
  }

  /** Parameters that go together. */
  predicate Coherent(ps: seq<Param>) {
    && |ps| <= 48
    && (forall i :: 0 <= i < |ps| ==> ps[i].value != "" && (ps[i].kind == Comment ==> |ps[i].value| <= 20))
    && AtMostOne(ps, VOLUMES) && AtMostOne(ps, STOPS) && AtMostOne(ps, TARGETS) && AtMostOne(ps, ENTRIES)
  }

  /** What the command asks of its symbol and of its parameters. */
  predicate Suits(c: Command, symbol: string, ps: seq<Param>) {
    && (c == EaOff ==> EqFold(symbol, "eaoff"))
    && (c == EaOn ==> EqFold(symbol, "eaon"))
    && (Rests(c) || Opens(c) ==> Has(ps, VOLUMES) || Has(ps, {Risk}))
    && (Rests(c) ==> Has(ps, ENTRIES))
    && (Has(ps, {VolDollar, VolPctBalanceLoss, VolPctEquityLoss}) ==> Has(ps, STOPS))
    && (Has(ps, {AtrTimeframe, AtrPeriod, AtrMultiplier, AtrShift, AtrTrigger}) ==>
          Has(ps, {AtrTimeframe}) && Has(ps, {AtrPeriod}))
    && (Amends(c) ==> Has(ps, STOPS) || Has(ps, TARGETS))
    && (c == CloseLongVol || c == CloseShortVol ==> Has(ps, {Risk}))
  }

  /** The flags of the loop, said of the parameters. */
  function FlagsOn(ps: seq<Param>): (f: Flags) {
    Flags(Has(ps, VOLUMES), Has(ps, STOPS), Has(ps, TARGETS), Has(ps, ENTRIES), Has(ps, {Risk}),
          Has(ps, {VolDollar, VolPctBalanceLoss, VolPctEquityLoss}),
          Has(ps, {AtrTimeframe, AtrPeriod, AtrMultiplier, AtrShift, AtrTrigger}),
          Has(ps, {AtrPeriod}), Has(ps, {AtrTimeframe}))
  }

  lemma HasMore(ps: seq<Param>, p: Param, kinds: set<ParamKind>)
    ensures Has(ps + [p], kinds) <==> Has(ps, kinds) || p.kind in kinds
    ensures AtMostOne(ps + [p], kinds) <==> AtMostOne(ps, kinds) && !(p.kind in kinds && Has(ps, kinds))
  {
    var more := ps + [p];
    assert more[|ps|] == p && forall i :: 0 <= i < |ps| ==> more[i] == ps[i];
  }

  lemma FlagsMore(ps: seq<Param>, p: Param)
    ensures FlagsOn(ps + [p]) == Raised(FlagsOn(ps), p.kind)
  {
    hide Has, AtMostOne;
    HasMore(ps, p, VOLUMES);
    HasMore(ps, p, STOPS);
    HasMore(ps, p, TARGETS);
    HasMore(ps, p, ENTRIES);
    HasMore(ps, p, {Risk});
    HasMore(ps, p, {VolDollar, VolPctBalanceLoss, VolPctEquityLoss});
    HasMore(ps, p, {AtrTimeframe, AtrPeriod, AtrMultiplier, AtrShift, AtrTrigger});
    HasMore(ps, p, {AtrPeriod});
    HasMore(ps, p, {AtrTimeframe});
  }

  lemma CoherentMore(ps: seq<Param>, p: Param)
    ensures Coherent(ps + [p]) <==> Coherent(ps) && |ps| < 48 && Add(FlagsOn(ps), p.kind, p.value).Ok?
  {
    hide Has, AtMostOne;
    HasMore(ps, p, VOLUMES);
    HasMore(ps, p, STOPS);
    HasMore(ps, p, TARGETS);
    HasMore(ps, p, ENTRIES);
    ValuesMore(ps, p);
  }

  predicate Valued(p: Param) {
    p.value != "" && (p.kind == Comment ==> |p.value| <= 20)
  }

  lemma ValuesMore(ps: seq<Param>, p: Param)
    ensures (forall i :: 0 <= i < |ps + [p]| ==> Valued((ps + [p])[i])) <==>
            (forall i :: 0 <= i < |ps| ==> Valued(ps[i])) && Valued(p)
  {
    var more := ps + [p];
    assert more[|ps|] == p && forall i :: 0 <= i < |ps| ==> more[i] == ps[i];
  }

  /** The fields read as the parameters, one by one. */
  predicate ReadAll(raws: seq<string>, ps: seq<Param>) {
    |ps| == |raws| && forall i :: 0 <= i < |raws| ==> Reads(raws[i], ps[i])
  }

  /** The loop accepts the fields exactly when they read as coherent parameters, and its flags are theirs. */
  lemma {:induction false} AddAllIff(raws: seq<string>, ps: seq<Param>)
    ensures (AddAll(raws).Ok? && AddAll(raws).value.0 == ps) <==> ReadAll(raws, ps) && Coherent(ps)
    ensures ReadAll(raws, ps) && Coherent(ps) ==> AddAll(raws).value.1 == FlagsOn(ps)
  {
    hide Reads, Coherent, FlagsOn, ReadParam, Add, Raised;
    if raws == [] {
      NothingCoherent();
    } else if |ps| == |raws| {
      var n := |raws| - 1;
      AddAllIff(raws[..n], ps[..n]);
      assert ps == ps[..n] + [ps[n]];
      ReadAllMore(raws, ps);
      ReadIff(raws[n], ps[n]);
      FlagsMore(ps[..n], ps[n]);
      CoherentMore(ps[..n], ps[n]);
      RaisedIfAdded(FlagsOn(ps[..n]), ps[n].kind, ps[n].value);
      if AddAll(raws).Ok? {
        assert AddAll(raws[..n]).Ok?;
        assert AddAll(raws).value.0[..n] == AddAll(raws[..n]).value.0;
      }
    }
  }

  lemma RaisedIfAdded(f: Flags, k: ParamKind, value: string)
    ensures Add(f, k, value).Ok? ==> Add(f, k, value).value == Raised(f, k)
  {
  }

  lemma NothingCoherent()
    ensures Coherent([]) && FlagsOn([]) == NO_FLAGS
  {
  }

  lemma ReadAllMore(raws: seq<string>, ps: seq<Param>)
    requires |ps| == |raws| > 0
    ensures var n := |raws| - 1;
            ReadAll(raws, ps) <==> ReadAll(raws[..n], ps[..n]) && Reads(raws[n], ps[n])
  {
    hide Reads;
  }

  lemma SuitsIff(c: Command, symbol: string, ps: seq<Param>)
    ensures Validate(c, symbol, FlagsOn(ps)).Ok? <==> Suits(c, symbol, ps)
  {
    hide Has, EqFold, Rests, Opens, Amends, Command.OpensOrder, Command.IsPendingOpen, Command.IsModify;
    Sorts(c);
  }

  lemma Sorts(c: Command)
    ensures c.OpensOrder() <==> Rests(c) || Opens(c)
    ensures (c.IsPendingOpen() <==> Rests(c)) && (c.IsModify() <==> Amends(c))
  {
  }

  // ---------------------------------------------------------------- the signal

  /** What a body's fields say when it is accepted as the signal. */
  predicate Says(fs: seq<string>, sig: Signal) {
    && |fs| >= 3 && fs[0] != "" && fs[2] != ""
    && sig.license == fs[0] && sig.rawCommand == fs[1] && sig.symbol == fs[2]
    && Aliased(fs[1], sig.command)
    && ReadAll(fs[3..], sig.params) && Coherent(sig.params) && Suits(sig.command, sig.symbol, sig.params)
  }

  lemma AliasedIffCommand(raw: string, c: Command)
    ensures Aliased(raw, c) <==> c != Invalid && CommandFrom(raw) == c
    ensures Aliased(raw, c) ==> raw != ""
  {
    hide CommandFrom, EqFold;
    if c != Invalid { CommandIff(raw, c); }
    if Aliased(raw, c) { NotEmpty(raw); }
  }

  lemma NotEmpty(raw: string)
    ensures CommandFrom(raw) != Invalid ==> raw != ""
  {
    hide EqFold;
  }

  lemma FieldsAcceptedIff(fs: seq<string>, sig: Signal)
    ensures ParseFields(fs) == Ok(sig) <==> Says(fs, sig)
  {
    hide AddAll, Validate, CommandFrom, Aliased, ReadAll, Coherent, Suits, FlagsOn;
    if |fs| >= 3 {
      AliasedIffCommand(fs[1], sig.command);
      AddAllIff(fs[3..], sig.params);
      SuitsIff(sig.command, fs[2], sig.params);
      if AddAll(fs[3..]).Ok? && AddAll(fs[3..]).value.0 == sig.params {
        assert AddAll(fs[3..]).value.1 == FlagsOn(sig.params);
      }
    }
  }

  /** A body is accepted as a signal exactly when its fields say the signal. */
  lemma AcceptedIff(body: string, sig: Signal)
    ensures FieldsOf(body, Fields(TrimAscii(body)))
    ensures Parse(body) == Ok(sig) <==> Says(Fields(TrimAscii(body)), sig)
  {
    hide ParseFields, Says, Fields, FieldsOf;
    FieldsRead(body);
    FieldsAcceptedIff(Fields(TrimAscii(body)), sig);
    if TrimAscii(body) == "" { NothingSaid(body, sig); }
  }

  lemma NothingSaid(body: string, sig: Signal)
    requires TrimAscii(body) == ""
    ensures !Says(Fields(TrimAscii(body)), sig)
  {
    hide TrimAscii;
    assert Split("", ',') == [""];
  }
  // ---------------------------------------------------------------- refusals

  /** No key or no value around a first '='. */
  predicate Malformed(raw: string) {
    forall i :: 0 <= i < |raw| && raw[i] == '=' && '=' !in raw[..i] ==>
      TrimAscii(raw[..i]) == "" || TrimAscii(raw[i + 1..]) == ""
  }

  /** A key that is no parameter's. */
  ghost predicate Unkeyed(raw: string) {
    exists i :: 0 <= i < |raw| && raw[i] == '=' && '=' !in raw[..i] && forall k :: !Keyed(TrimAscii(raw[..i]), k)
  }

  ghost predicate OfKind(raw: string, kinds: set<ParamKind>) {
    exists p :: Reads(raw, p) && p.kind in kinds
  }

  ghost predicate Twice(raws: seq<string>, kinds: set<ParamKind>) {
    exists i, j :: 0 <= i < j < |raws| && OfKind(raws[i], kinds) && OfKind(raws[j], kinds)
  }

  ghost predicate Verbose(raw: string) {
    exists p :: Reads(raw, p) && p.kind == Comment && |p.value| > 20
  }

  /** What a refusal by the loop says of the fields. */
  ghost predicate LoopFault(raws: seq<string>, code: ErrorCode) {
    match code
    case MalformedParam => exists i :: 0 <= i < |raws| && Malformed(raws[i])
    case UnknownParam => exists i :: 0 <= i < |raws| && Unkeyed(raws[i])
    case TooManyParams => |raws| > 48
    case DuplicateVolume => Twice(raws, VOLUMES)
    case DuplicateSl => Twice(raws, STOPS)
    case DuplicateTp => Twice(raws, TARGETS)
    case DuplicateEntry => Twice(raws, ENTRIES)
    case CommentTooLong => exists i :: 0 <= i < |raws| && Verbose(raws[i])
    case _ => false
  }

  /** What a refusal after the loop says of the command, its symbol and its parameters. */
  predicate SignalFault(c: Command, symbol: string, ps: seq<Param>, code: ErrorCode) {
    match code
    case ManagementSymbol => (c == EaOff && !EqFold(symbol, "eaoff")) || (c == EaOn && !EqFold(symbol, "eaon"))
    case MissingVolume => (Rests(c) || Opens(c)) && !Has(ps, VOLUMES) && !Has(ps, {Risk})
    case PendingRequiresEntry => Rests(c) && !Has(ps, ENTRIES)
    case RiskVolumeRequiresSl => Has(ps, {VolDollar, VolPctBalanceLoss, VolPctEquityLoss}) && !Has(ps, STOPS)
    case AtrRequiresTimeframePeriod =>
      && Has(ps, {AtrTimeframe, AtrPeriod, AtrMultiplier, AtrShift, AtrTrigger})
      && !(Has(ps, {AtrTimeframe}) && Has(ps, {AtrPeriod}))
    case ModifyRequiresSltp => Amends(c) && !Has(ps, STOPS) && !Has(ps, TARGETS)
    case PartialVolumeRequiresRisk => (c == CloseLongVol || c == CloseShortVol) && !Has(ps, {Risk})
    case _ => false
  }

  lemma FieldFault(raw: string)
    ensures ReadParam(raw).Err? ==>
              || (ReadParam(raw).code == MalformedParam && Malformed(raw))
              || (ReadParam(raw).code == UnknownParam && Unkeyed(raw))
    ensures raw == "" ==> Malformed(raw)
  {
    hide KindFrom, Keyed, TrimAscii;
    var i := IndexOf(raw, '=');
    forall j | 0 <= j < |raw| && raw[j] == '=' && '=' !in raw[..j] ensures i == j { FirstOnly(raw, i, j); }
    if i < |raw| {
      forall k ensures Keyed(TrimAscii(raw[..i]), k) <==> k != Unknown && KindFrom(TrimAscii(raw[..i])) == k {
        KeyedIffKind(TrimAscii(raw[..i]), k);
      }
    }
  }

  lemma ClassFault(f: Flags, k: ParamKind, value: string)
    requires Add(f, k, value).Err? && value != ""
    ensures match Add(f, k, value).code
            case DuplicateVolume => k in VOLUMES && f.volume
            case DuplicateSl => k in STOPS && f.sl
            case DuplicateTp => k in TARGETS && f.tp
            case DuplicateEntry => k in ENTRIES && f.entry
            case CommentTooLong => k == Comment && |value| > 20
            case _ => false
  {
  }

  lemma TwiceWith(raws: seq<string>, ps: seq<Param>, p: Param, kinds: set<ParamKind>)
    requires raws != [] && ReadAll(raws[..|raws| - 1], ps) && Has(ps, kinds)
    requires Reads(raws[|raws| - 1], p) && p.kind in kinds
    ensures Twice(raws, kinds)
  {
    hide Reads;
    var i :| 0 <= i < |ps| && ps[i].kind in kinds;
    assert OfKind(raws[i], kinds) && OfKind(raws[|raws| - 1], kinds);
  }

  lemma TwiceStill(raws: seq<string>, n: nat, kinds: set<ParamKind>)
    requires n <= |raws| && Twice(raws[..n], kinds)
    ensures Twice(raws, kinds)
  {
    hide OfKind;
  }

  lemma FaultStays(raws: seq<string>, n: nat, code: ErrorCode)
    requires n <= |raws| && LoopFault(raws[..n], code)
    ensures LoopFault(raws, code)
  {
    hide Twice, Malformed, Unkeyed, Verbose;
    forall kinds | Twice(raws[..n], kinds) ensures Twice(raws, kinds) { TwiceStill(raws, n, kinds); }
  }

  lemma LastFault(raws: seq<string>, ps: seq<Param>)
    requires raws != [] && AddAll(raws).Err? && ReadAll(raws[..|raws| - 1], ps)
    requires AddAll(raws[..|raws| - 1]) == Ok((ps, FlagsOn(ps)))
    ensures LoopFault(raws, AddAll(raws).code)
  {
    hide Reads, ReadParam, Add, Malformed, Unkeyed, Twice, ReadAll, Has;
    var n := |raws| - 1;
    var raw := raws[n];
    FieldFault(raw);
    if raw != "" && ReadParam(raw).Ok? && n < 48 {
      var p := ReadParam(raw).value;
      ReadIff(raw, p);
      NotBlank(raw, p);
      ClassFault(FlagsOn(ps), p.kind, p.value);
      if Has(ps, VOLUMES) && p.kind in VOLUMES { TwiceWith(raws, ps, p, VOLUMES); }
      if Has(ps, STOPS) && p.kind in STOPS { TwiceWith(raws, ps, p, STOPS); }
      if Has(ps, TARGETS) && p.kind in TARGETS { TwiceWith(raws, ps, p, TARGETS); }
      if Has(ps, ENTRIES) && p.kind in ENTRIES { TwiceWith(raws, ps, p, ENTRIES); }
      if p.kind == Comment && |p.value| > 20 { assert Verbose(raw); }
    }
  }

  lemma NotBlank(raw: string, p: Param)
    requires Reads(raw, p)
    ensures p.value != ""
  {
  }

  lemma {:induction false} LoopFaultIsTrue(raws: seq<string>)
    requires AddAll(raws).Err?
    ensures LoopFault(raws, AddAll(raws).code)
  {
    hide LoopFault, AddOne, FlagsOn, Coherent, ReadAll;
    var n := |raws| - 1;
    if AddAll(raws[..n]).Err? {
      LoopFaultIsTrue(raws[..n]);
      FaultStays(raws, n, AddAll(raws).code);
    } else {
      var ps := AddAll(raws[..n]).value.0;
      AddAllIff(raws[..n], ps);
      LastFault(raws, ps);
    }
  }

  lemma SignalFaultIsTrue(c: Command, symbol: string, ps: seq<Param>)
    requires Validate(c, symbol, FlagsOn(ps)).Err?
    ensures SignalFault(c, symbol, ps, Validate(c, symbol, FlagsOn(ps)).code)
  {
    hide Has, EqFold, Rests, Opens, Amends, Command.OpensOrder, Command.IsPendingOpen, Command.IsModify;
    Sorts(c);
  }

  /** What a refusal says of the fields of the body. */
  ghost predicate Faulty(fs: seq<string>, code: ErrorCode) {
    match code
    case EmptyInput => fs == [""]
    case MissingField => |fs| < 3 || fs[0] == "" || fs[1] == "" || fs[2] == ""
    case UnknownCommand => |fs| >= 2 && forall c :: !Aliased(fs[1], c)
    case _ =>
      && |fs| >= 3
      && (LoopFault(fs[3..], code)
          || exists c, ps :: Aliased(fs[1], c) && ReadAll(fs[3..], ps) && SignalFault(c, fs[2], ps, code))
  }

  /** Every refusal is true of the body it is given for. */
  lemma RefusedTruly(body: string)
    requires Parse(body).Err?
    ensures Faulty(Fields(TrimAscii(body)), Parse(body).code)
  {
    hide Fields, AddAll, Validate, CommandFrom, Aliased, LoopFault, SignalFault, ReadAll, Coherent, FlagsOn;
    var fs := Fields(TrimAscii(body));
    EmptyFields(body);
    if |fs| >= 2 {
      forall c ensures Aliased(fs[1], c) <==> c != Invalid && CommandFrom(fs[1]) == c { AliasedIffCommand(fs[1], c); }
    }
    if TrimAscii(body) != "" && |fs| >= 3 && CommandFrom(fs[1]) != Invalid {
      if AddAll(fs[3..]).Err? {
        LoopFaultIsTrue(fs[3..]);
        LoopCodes(fs[3..], AddAll(fs[3..]).code);
      } else {
        var c, ps := CommandFrom(fs[1]), AddAll(fs[3..]).value.0;
        AddAllIff(fs[3..], ps);
        if Validate(c, fs[2], FlagsOn(ps)).Err? {
          SignalFaultIsTrue(c, fs[2], ps);
          SignalCodes(c, fs[2], ps, Validate(c, fs[2], FlagsOn(ps)).code);
        }
      }
    }
  }

  lemma LoopCodes(raws: seq<string>, code: ErrorCode)
    requires LoopFault(raws, code)
    ensures code != EmptyInput && code != MissingField && code != UnknownCommand
  {
  }

  lemma SignalCodes(c: Command, symbol: string, ps: seq<Param>, code: ErrorCode)
    requires SignalFault(c, symbol, ps, code)
    ensures code != EmptyInput && code != MissingField && code != UnknownCommand
  {
  }

  lemma EmptyFields(body: string)
    ensures TrimAscii(body) == "" ==> Fields(TrimAscii(body)) == [""]
  {
    hide TrimAscii;
    assert Split("", ',') == [""];
    EmptyTrims();
  }

  lemma EmptyTrims()
    ensures TrimAll([""]) == [""]
  {
    assert TrimAll([""]) == [TrimAscii("")] + TrimAll([]);
  }
}

/** The webhook parser of ingress (packages/parser-go/parser.go). */
module WebhookParser {
  import opened Text
  import opened WebhookTables

  datatype ErrorCode =
    | EmptyInput | MissingField | UnknownCommand | MalformedParam | UnknownParam | TooManyParams
    | DuplicateVolume | DuplicateSl | DuplicateTp | DuplicateEntry | MissingVolume | PendingRequiresEntry
    | RiskVolumeRequiresSl | ManagementSymbol | CommentTooLong
    | AtrRequiresTimeframePeriod | ModifyRequiresSltp | PartialVolumeRequiresRisk

  datatype Result<+T> = Ok(value: T) | Err(code: ErrorCode)

  datatype Param = Param(kind: ParamKind, key: string, value: string)

  datatype Signal = Signal(license: string, command: Command, rawCommand: string, symbol: string, params: seq<Param>)

  // ---------------------------------------------------------------- text

  /** `trimASCII`. */
  function TrimAscii(s: string): (r: string) {
    Trim(Ascii, s)
  }

  function TrimAll(ss: seq<string>): (r: seq<string>)
    ensures |r| == |ss|
  {
    if ss == [] then [] else [TrimAscii(ss[0])] + TrimAll(ss[1..])
  }

  /** The fields of a webhook body. */
  function Fields(s: string): (r: seq<string>) {
    TrimAll(Split(s, ','))
  }

  function IndexOf(s: string, c: char): (i: nat)
    ensures i <= |s| && (i < |s| ==> s[i] == c) && c !in s[..i]
  {
    if s == "" || s[0] == c then 0
    else
      var i := IndexOf(s[1..], c);
      assert s[..i + 1] == [s[0]] + s[1..][..i];
      i + 1
  }

  /** `splitParam`: the key and value around the first '='; both must be non-empty. */
  function SplitParam(raw: string): (r: Result<(string, string)>) {
    var i := IndexOf(raw, '=');
    if i == |raw| then Err(MalformedParam)
    else
      var key, value := TrimAscii(raw[..i]), TrimAscii(raw[i + 1..]);
      if key == "" || value == "" then Err(MalformedParam) else Ok((key, value))
  }

  // ---------------------------------------------------------------- validation

  datatype Flags = Flags(
    volume: bool, sl: bool, tp: bool, entry: bool, risk: bool, lossRisk: bool,
    atr: bool, atrPeriod: bool, atrFrame: bool)

  const NO_FLAGS := Flags(false, false, false, false, false, false, false, false, false)

  predicate IsLossRisk(k: ParamKind) {
    k.VolDollar? || k.VolPctBalanceLoss? || k.VolPctEquityLoss?
  }

  predicate IsAtr(k: ParamKind) {
    k.AtrTimeframe? || k.AtrPeriod? || k.AtrMultiplier? || k.AtrShift? || k.AtrTrigger?
  }

  function Raised(f: Flags, k: ParamKind): (g: Flags) {
    Flags(f.volume || k.IsVolume(), f.sl || k.IsSl(), f.tp || k.IsTp(), f.entry || k.IsEntry(),
          f.risk || k.Risk?, f.lossRisk || IsLossRisk(k),
          f.atr || IsAtr(k), f.atrPeriod || k.AtrPeriod?, f.atrFrame || k.AtrTimeframe?)
  }

  /** `validationState.add`. */
  function Add(f: Flags, k: ParamKind, value: string): (r: Result<Flags>) {
    if value == "" then Err(MalformedParam)
    else if k.IsVolume() && f.volume then Err(DuplicateVolume)
    else if k.IsSl() && f.sl then Err(DuplicateSl)
    else if k.IsTp() && f.tp then Err(DuplicateTp)
    else if k.IsEntry() && f.entry then Err(DuplicateEntry)
    else if k.Comment? && |value| > MAX_COMMENT then Err(CommentTooLong)
    else Ok(Raised(f, k))
  }

  /** `validateSignal`; the symbol of an accepted signal is never empty. */
  function Validate(c: Command, symbol: string, f: Flags): (r: Result<()>) {
    if c.EaOff? && !EqFold(symbol, "eaoff") then Err(ManagementSymbol)
    else if c.EaOn? && !EqFold(symbol, "eaon") then Err(ManagementSymbol)
    else if c.OpensOrder() && !f.volume && !f.risk then Err(MissingVolume)
    else if c.IsPendingOpen() && !f.entry then Err(PendingRequiresEntry)
    else if f.lossRisk && !f.sl then Err(RiskVolumeRequiresSl)
    else if f.atr && (!f.atrFrame || !f.atrPeriod) then Err(AtrRequiresTimeframePeriod)
    else if c.IsModify() && !f.sl && !f.tp then Err(ModifyRequiresSltp)
    else if (c.CloseLongVol? || c.CloseShortVol?) && !f.risk then Err(PartialVolumeRequiresRisk)
    else Ok(())
  }

  /** One key=value field, before the flags are consulted. */
  function ReadParam(raw: string): (r: Result<Param>) {
    if raw == "" then Err(MalformedParam)
    else match SplitParam(raw)
      case Err(code) => Err(code)
      case Ok((key, value)) =>
        if KindFrom(key) == Unknown then Err(UnknownParam) else Ok(Param(KindFrom(key), key, value))
  }

  /** The parameter loop of `Parse` over the fields read so far. */
  function AddAll(raws: seq<string>): (r: Result<(seq<Param>, Flags)>)
    ensures r.Ok? ==> |r.value.0| == |raws| <= MAX_PARAMS
  {
    if raws == [] then Ok(([], NO_FLAGS))
    else
      var n := |raws| - 1;
      match AddAll(raws[..n])
      case Err(code) => Err(code)
      case Ok((params, flags)) => AddOne(params, flags, raws[n])
  }

  function AddOne(params: seq<Param>, flags: Flags, raw: string): (r: Result<(seq<Param>, Flags)>)
    requires |params| <= MAX_PARAMS
    ensures r.Ok? ==> |r.value.0| == |params| + 1 <= MAX_PARAMS
  {
    if raw == "" then Err(MalformedParam)
    else if |params| == MAX_PARAMS then Err(TooManyParams)
    else match ReadParam(raw)
      case Err(code) => Err(code)
      case Ok(p) =>
        match Add(flags, p.kind, p.value)
        case Err(code) => Err(code)
        case Ok(g) => Ok((params + [p], g))
  }

  /** `Parse` on the fields of the body. */
  function ParseFields(fs: seq<string>): (r: Result<Signal>) {
    if |fs| < 1 || fs[0] == "" then Err(MissingField)
    else if |fs| < 2 || fs[1] == "" then Err(MissingField)
    else if CommandFrom(fs[1]) == Invalid then Err(UnknownCommand)
    else if |fs| < 3 || fs[2] == "" then Err(MissingField)
    else match AddAll(fs[3..])
      case Err(code) => Err(code)
      case Ok((params, flags)) =>
        match Validate(CommandFrom(fs[1]), fs[2], flags)
        case Err(code) => Err(code)
        case Ok(_) => Ok(Signal(fs[0], CommandFrom(fs[1]), fs[1], fs[2], params))
  }

  /** `Parse`. */
  function Parse(input: string): (r: Result<Signal>) {
    if TrimAscii(input) == "" then Err(EmptyInput) else ParseFields(Fields(TrimAscii(input)))
  }

  // ---------------------------------------------------------------- the loops

  method TrimLoop(value: string) returns (r: string)
    ensures r == TrimAscii(value)
  {
    var start := 0;
    assert value[0..] == value;
    while start < |value| && IsSpace(Ascii, value[start])
      invariant start <= |value| && TrimLeft(Ascii, value) == TrimLeft(Ascii, value[start..])
    {
      assert value[start..][1..] == value[start + 1..];
      start := start + 1;
    }
    var end := |value|;
    ghost var left := value[start..];
    assert left == value[start..end];
    while end > start && IsSpace(Ascii, value[end - 1])
      invariant start <= end <= |value| && TrimRight(Ascii, left) == TrimRight(Ascii, value[start..end])
    {
      assert value[start..end][..end - 1 - start] == value[start..end - 1];
      end := end - 1;
    }
    return value[start..end];
  }

  /** `nextField`. */
  method NextField(input: string, from: nat) returns (field: string, pos: nat, ok: bool)
    ensures ok <==> from <= |input|
    ensures !ok ==> pos == from
    ensures ok ==> from < pos <= |input| + 1
    ensures ok ==> Fields(input[from..]) == [field] + (if pos <= |input| then Fields(input[pos..]) else [])
  {
    hide Split, Trim, Fields;
    pos := from;
    if pos > |input| { return "", pos, false; }
    while pos < |input| && input[pos] != ','
      invariant from <= pos <= |input|
      invariant ',' !in input[from..pos]
    {
      pos := pos + 1;
    }
    FieldEnds(input, from, pos);
    field := TrimLoop(input[from..pos]);
    return field, pos + 1, true;
  }

  /** A field ends at the first comma, or with the input. */
  lemma FieldEnds(input: string, from: nat, pos: nat)
    requires from <= pos <= |input| && ',' !in input[from..pos] && (pos < |input| ==> input[pos] == ',')
    ensures Fields(input[from..]) ==
              [TrimAscii(input[from..pos])] + (if pos < |input| then Fields(input[pos + 1..]) else [])
  {
    hide Split, Trim;
    SplitAt(input[from..], ',', pos - from);
    if pos < |input| { assert input[from..][pos - from + 1..] == input[pos + 1..]; }
    assert input[from..][..pos - from] == input[from..pos];
  }

  /** `splitParam`. */
  method SplitParamLoop(raw: string) returns (r: Result<(string, string)>)
    ensures r == SplitParam(raw)
  {
    var i := 0;
    assert raw[0..] == raw;
    while i < |raw|
      invariant i <= |raw| && IndexOf(raw, '=') == i + IndexOf(raw[i..], '=')
    {
      if raw[i] == '=' {
        var key := TrimLoop(raw[..i]);
        var value := TrimLoop(raw[i + 1..]);
        if key == "" || value == "" { return Err(MalformedParam); }
        return Ok((key, value));
      }
      assert raw[i..][1..] == raw[i + 1..];
      i := i + 1;
    }
    return Err(MalformedParam);
  }

  /** One turn of the parameter loop: checks the field and fills the next slot. */
  method AddField(slots: array<Param>, count: nat, flags: Flags, raw: string) returns (r: Result<Flags>)
    requires slots.Length == MAX_PARAMS && count <= MAX_PARAMS
    modifies slots
    ensures r.Ok? ==> count < MAX_PARAMS && AddOne(old(slots[..count]), flags, raw) == Ok((slots[..count + 1], r.value))
    ensures r.Err? ==> AddOne(old(slots[..count]), flags, raw) == Err(r.code)
  {
    hide ReadParam, Add;
    if raw == "" { return Err(MalformedParam); }
    if count == MAX_PARAMS { return Err(TooManyParams); }
    var p := ReadParam(raw);
    if p.Err? { return Err(p.code); }
    var g := Add(flags, p.value.kind, p.value.value);
    if g.Err? { return Err(g.code); }
    slots[count] := p.value;
    assert slots[..count + 1] == old(slots[..count]) + [p.value];
    return Ok(g.value);
  }

  /** The parameter loop of `Parse`, filling a fixed array. */
  method ParseParams(input: string, from: nat) returns (r: Result<(seq<Param>, Flags)>)
    ensures r == AddAll(if from <= |input| then Fields(input[from..]) else [])
  {
    hide Fields, AddOne, AddAll;
    NothingAdded();
    ghost var all := if from <= |input| then Fields(input[from..]) else [];
    var slots := new Param[MAX_PARAMS](_ => Param(Unknown, "", ""));
    var count, flags, pos := 0, NO_FLAGS, from;
    while pos <= |input|
      invariant count <= MAX_PARAMS && count <= |all|
      invariant all[count..] == if pos <= |input| then Fields(input[pos..]) else []
      invariant AddAll(all[..count]) == Ok((slots[..count], flags))
      decreases |input| + 1 - pos
    {
      var raw, next, ok := NextField(input, pos);
      ghost var left := if next <= |input| then Fields(input[next..]) else [];
      Following(all, count, raw, left);
      AddedNext(all, count, slots[..count], flags);
      pos := next;
      var g := AddField(slots, count, flags, raw);
      if g.Err? {
        ErrStays(all, count + 1);
        return Err(g.code);
      }
      flags, count := g.value, count + 1;
    }
    assert all[..count] == all;
    return Ok((slots[..count], flags));
  }

  lemma Following<T>(all: seq<T>, count: nat, x: T, left: seq<T>)
    requires count <= |all| && all[count..] == [x] + left
    ensures count < |all| && all[count] == x && all[count + 1..] == left
  {
    assert all[count] == all[count..][0] && all[count + 1..] == all[count..][1..];
  }

  lemma NothingAdded()
    ensures AddAll([]) == Ok(([], NO_FLAGS))
  {
  }

  lemma AddedNext(all: seq<string>, count: nat, params: seq<Param>, flags: Flags)
    requires count < |all| && |params| == count <= MAX_PARAMS && AddAll(all[..count]) == Ok((params, flags))
    ensures AddAll(all[..count + 1]) == AddOne(params, flags, all[count])
  {
    hide AddOne;
    assert all[..count + 1][..count] == all[..count];
  }

  lemma {:induction false} ErrStays(raws: seq<string>, k: nat)
    requires k <= |raws| && AddAll(raws[..k]).Err?
    ensures AddAll(raws) == AddAll(raws[..k])
    decreases |raws| - k
  {
    if k == |raws| {
      assert raws[..k] == raws;
    } else {
      assert raws[..k + 1][..k] == raws[..k];
      ErrStays(raws, k + 1);
    }
  }

  /** `Parse`. */
  method ParseLoop(body: string) returns (r: Result<Signal>)
    ensures r == Parse(body)
  {
    hide Fields, Validate, CommandFrom, AddAll, TrimAscii;
    var input := TrimLoop(body);
    if input == "" { return Err(EmptyInput); }
    assert input[0..] == input;
    ghost var fs := Fields(input);
    var license, pos, ok := NextField(input, 0);
    if !ok || license == "" { return Err(MissingField); }
    var raw;
    raw, pos, ok := NextField(input, pos);
    if !ok || raw == "" { return Err(MissingField); }
    var command := CommandFrom(raw);
    if command == Invalid { return Err(UnknownCommand); }
    var symbol;
    symbol, pos, ok := NextField(input, pos);
    if !ok || symbol == "" { return Err(MissingField); }
    var added := ParseParams(input, pos);
    assert fs[3..] == if pos <= |input| then Fields(input[pos..]) else [];
    if added.Err? { return Err(added.code); }
    var valid := Validate(command, symbol, added.value.1);
    if valid.Err? { return Err(valid.code); }
    return Ok(Signal(license, command, raw, symbol, added.value.0));
  }
}

/** Printing, permuting and building webhook bodies. */
module WebhookLaws {
  import opened Text
  import opened WebhookTables
  import opened WebhookParser

  // ---------------------------------------------------------------- clean fields

  /** A field that survives splitting and trimming as it is. */
  predicate Clean(s: string) {
    Trimmed(Ascii, s) && ',' !in s
  }

  lemma {:induction false} TrimAllClean(ss: seq<string>)
    requires forall f :: f in ss ==> ',' !in f
    ensures forall f :: f in TrimAll(ss) ==> Clean(f)
  {
    if ss != [] {
      assert ss[0] in ss;
      TrimFacts(Ascii, ss[0]);
      assert forall f :: f in ss[1..] ==> f in ss;
      TrimAllClean(ss[1..]);
    }
  }

  lemma FieldsClean(s: string)
    ensures forall f :: f in Fields(s) ==> Clean(f)
  {
    SplitFacts(s, ',');
    TrimAllClean(Split(s, ','));
  }

  // ---------------------------------------------------------------- joining

  ghost predicate AllFilled(fs: seq<string>) {
    forall i :: 0 <= i < |fs| ==> Clean(fs[i]) && fs[i] != ""
  }

  lemma {:induction false} JoinTrimmed(fs: seq<string>)
    requires fs != [] && AllFilled(fs)
    ensures Join(fs, ',') != "" && Trimmed(Ascii, Join(fs, ',')) && Join(fs, ',')[0] == fs[0][0]
  {
    if |fs| > 1 { JoinTrimmed(fs[1..]); }
  }

  lemma {:induction false} TrimAllSame(fs: seq<string>)
    requires AllFilled(fs)
    ensures TrimAll(fs) == fs
  {
    if fs != [] {
      TrimFacts(Ascii, fs[0]);
      TrimAllSame(fs[1..]);
      assert fs == [fs[0]] + fs[1..];
    }
  }

  /** Joined clean fields parse as those fields. */
  lemma ParseJoin(fs: seq<string>)
    requires fs != [] && AllFilled(fs)
    ensures Parse(Join(fs, ',')) == ParseFields(fs)
  {
    hide ParseFields;
    JoinTrimmed(fs);
    TrimFacts(Ascii, Join(fs, ','));
    SplitJoin(fs, ',');
    TrimAllSame(fs);
  }

  // ---------------------------------------------------------------- printing

  function KeyValue(p: Param): (s: string) {
    p.key + "=" + p.value
  }

  function KeyValues(ps: seq<Param>): (fs: seq<string>)
    ensures |fs| == |ps|
  {
    if ps == [] then [] else KeyValues(ps[..|ps| - 1]) + [KeyValue(ps[|ps| - 1])]
  }

  /** A signal as a webhook body: its command's own name and its key=value pairs. */
  function Print(sig: Signal): (s: string) {
    Join([sig.license, sig.command.Name(), sig.symbol] + KeyValues(sig.params), ',')
  }

  predicate CleanParam(p: Param) {
    && Clean(p.key) && Clean(p.value) && p.key != "" && p.value != "" && '=' !in p.key
    && p.kind == KindFrom(p.key) && p.kind != Unknown
  }

  lemma IndexOfUnique(s: string, k: nat)
    requires k < |s| && s[k] == '=' && '=' !in s[..k]
    ensures IndexOf(s, '=') == k
  {
  }

  /** A clean parameter reads back from its key=value form. */
  lemma ReadKeyValue(p: Param)
    requires CleanParam(p)
    ensures Clean(KeyValue(p)) && KeyValue(p) != "" && ReadParam(KeyValue(p)) == Ok(p)
  {
    hide KindFrom;
    var s, k := KeyValue(p), |p.key|;
    assert s[..k] == p.key && s[k + 1..] == p.value;
    IndexOfUnique(s, k);
    TrimFacts(Ascii, p.key);
    TrimFacts(Ascii, p.value);
  }

  /** What the parser reads out of a clean field is clean. */
  lemma ReadIsClean(raw: string)
    requires Clean(raw) && ReadParam(raw).Ok?
    ensures CleanParam(ReadParam(raw).value)
  {
    hide KindFrom;
    var i := IndexOf(raw, '=');
    TrimFacts(Ascii, raw[..i]);
    TrimFacts(Ascii, raw[i + 1..]);
  }

  lemma {:induction false} Reprint(raws: seq<string>)
    requires AddAll(raws).Ok? && forall i :: 0 <= i < |raws| ==> Clean(raws[i])
    ensures var params := AddAll(raws).value.0;
            AllFilled(KeyValues(params)) && AddAll(KeyValues(params)) == AddAll(raws)
  {
    hide ReadParam, Add, Clean, KeyValue;
    if raws != [] {
      var n := |raws| - 1;
      Reprint(raws[..n]);
      var before := AddAll(raws[..n]).value;
      var params := AddAll(raws).value.0;
      var p := ReadParam(raws[n]).value;
      assert params == before.0 + [p];
      ReadIsClean(raws[n]);
      ReadKeyValue(p);
      assert params[..n] == before.0;
      assert KeyValues(params)[..n] == KeyValues(before.0);
    }
  }

  /** Parsing inverts printing: every accepted signal, printed and parsed again, is
      itself with the raw command replaced by the command's own name. */
  lemma ParsePrint(input: string)
    requires Parse(input).Ok?
    ensures var sig := Parse(input).value;
            Parse(Print(sig)) == Ok(sig.(rawCommand := sig.command.Name()))
  {
    hide AddAll, Validate, CommandFrom, KeyValues, Fields;
    var fs := Fields(TrimAscii(input));
    var sig := Parse(input).value;
    FieldsClean(TrimAscii(input));
    assert Clean(fs[0]) && Clean(fs[2]) by { assert fs[0] in fs && fs[2] in fs; }
    forall i | 0 <= i < |fs[3..]| ensures Clean(fs[3..][i]) { assert fs[3..][i] in fs; }
    Reprint(fs[3..]);
    var kvs := KeyValues(sig.params);
    var out := [sig.license, sig.command.Name(), sig.symbol] + kvs;
    NameReadsBack(sig.command);
    LettersClean(sig.command.Name());
    assert AllFilled(out);
    ParseJoin(out);
    assert out[3..] == kvs;
  }

  lemma LettersClean(s: string)
    requires Letters(s)
    ensures Clean(s) && s != ""
  {
    assert s[0] in s && s[|s| - 1] in s;
  }

  // ---------------------------------------------------------------- order of parameters

  /** Two parameters of the same exclusive class. */
  predicate Clash(a: ParamKind, b: ParamKind) {
    (a.IsVolume() && b.IsVolume()) || (a.IsSl() && b.IsSl()) || (a.IsTp() && b.IsTp()) || (a.IsEntry() && b.IsEntry())
  }

  /** A field that reads as a parameter and is acceptable on its own. */
  predicate Good(raw: string) {
    && ReadParam(raw).Ok?
    && !(ReadParam(raw).value.kind.Comment? && |ReadParam(raw).value.value| > MAX_COMMENT)
  }

  function KindOf(raw: string): (k: ParamKind) {
    if ReadParam(raw).Ok? then ReadParam(raw).value.kind else Unknown
  }

  /** What the loop accepts, said of the fields as a bag. */
  ghost predicate Acceptable(ms: multiset<string>) {
    && |ms| <= MAX_PARAMS
    && (forall x :: x in ms ==> Good(x))
    && (forall x, y :: x in ms && y in ms && Clash(KindOf(x), KindOf(y)) ==> x == y && ms[x] == 1)
  }

  /** Some field of the bag has the property. */
  ghost predicate Some(ms: multiset<string>, p: ParamKind -> bool) {
    exists x :: x in ms && p(KindOf(x))
  }

  ghost function FlagsOf(ms: multiset<string>): (f: Flags) {
    Flags(Some(ms, (k: ParamKind) => k.IsVolume()), Some(ms, (k: ParamKind) => k.IsSl()),
          Some(ms, (k: ParamKind) => k.IsTp()), Some(ms, (k: ParamKind) => k.IsEntry()),
          Some(ms, (k: ParamKind) => k.Risk?), Some(ms, (k: ParamKind) => IsLossRisk(k)),
          Some(ms, (k: ParamKind) => IsAtr(k)), Some(ms, (k: ParamKind) => k.AtrPeriod?),
          Some(ms, (k: ParamKind) => k.AtrTimeframe?))
  }

  lemma SomeAdd(ms: multiset<string>, raw: string, p: ParamKind -> bool)
    ensures Some(ms + multiset{raw}, p) <==> Some(ms, p) || p(KindOf(raw))
  {
    var more := ms + multiset{raw};
    if Some(ms, p) {
      var x :| x in ms && p(KindOf(x));
      assert x in more;
    }
    if p(KindOf(raw)) { assert raw in more; }
  }

  lemma FlagsAdd(ms: multiset<string>, raw: string)
    ensures FlagsOf(ms + multiset{raw}) == Raised(FlagsOf(ms), KindOf(raw))
  {
    hide Some, KindOf;
    SomeAdd(ms, raw, (k: ParamKind) => k.IsVolume());
    SomeAdd(ms, raw, (k: ParamKind) => k.IsSl());
    SomeAdd(ms, raw, (k: ParamKind) => k.IsTp());
    SomeAdd(ms, raw, (k: ParamKind) => k.IsEntry());
    SomeAdd(ms, raw, (k: ParamKind) => k.Risk?);
    SomeAdd(ms, raw, (k: ParamKind) => IsLossRisk(k));
    SomeAdd(ms, raw, (k: ParamKind) => IsAtr(k));
    SomeAdd(ms, raw, (k: ParamKind) => k.AtrPeriod?);
    SomeAdd(ms, raw, (k: ParamKind) => k.AtrTimeframe?);
  }

  ghost predicate ClashesWith(ms: multiset<string>, k: ParamKind) {
    exists x :: x in ms && Clash(KindOf(x), k)
  }

  lemma ClashIsFlag(ms: multiset<string>, k: ParamKind)
    ensures ClashesWith(ms, k) <==>
            var f := FlagsOf(ms);
            (k.IsVolume() && f.volume) || (k.IsSl() && f.sl) || (k.IsTp() && f.tp) || (k.IsEntry() && f.entry)
  {
    hide KindOf;
  }

  lemma AcceptableAdd(ms: multiset<string>, raw: string)
    ensures Acceptable(ms + multiset{raw}) <==>
            Acceptable(ms) && |ms| < MAX_PARAMS && Good(raw) && !ClashesWith(ms, KindOf(raw))
  {
    hide Good, KindOf;
    var more := ms + multiset{raw};
    assert raw in more;
    assert forall x :: x in ms ==> x in more;
    if Acceptable(more) {
      forall x, y | x in ms && y in ms && Clash(KindOf(x), KindOf(y)) ensures x == y && ms[x] == 1 {
        assert more[x] == 1;
      }
    }
    if Acceptable(ms) && |ms| < MAX_PARAMS && Good(raw) && !ClashesWith(ms, KindOf(raw)) {
      forall x, y | x in more && y in more && Clash(KindOf(x), KindOf(y)) ensures x == y && more[x] == 1 {
        if !(x in ms && y in ms) { assert Clash(KindOf(y), KindOf(x)); }
      }
    }
  }

  /** The loop accepts exactly the acceptable bags, and raises the flags of the bag. */
  lemma {:induction false} AddAllIsBag(raws: seq<string>)
    ensures AddAll(raws).Ok? <==> Acceptable(multiset(raws))
    ensures AddAll(raws).Ok? ==> AddAll(raws).value.1 == FlagsOf(multiset(raws))
  {
    hide FlagsOf, Acceptable;
    if raws == [] {
      EmptyBag();
    } else {
      var n := |raws| - 1;
      var ms := multiset(raws[..n]);
      assert raws == raws[..n] + [raws[n]];
      assert multiset(raws) == ms + multiset{raws[n]};
      AddAllIsBag(raws[..n]);
      AcceptableAdd(ms, raws[n]);
      ClashIsFlag(ms, KindOf(raws[n]));
      FlagsAdd(ms, raws[n]);
      if AddAll(raws[..n]).Ok? { AddOneIsStep(raws[..n], raws[n]); }
    }
  }

  lemma EmptyBag()
    ensures Acceptable(multiset{}) && FlagsOf(multiset{}) == NO_FLAGS
  {
  }

  lemma AddOneIsStep(raws: seq<string>, raw: string)
    requires AddAll(raws).Ok?
    ensures var f := AddAll(raws).value.1;
            var k := KindOf(raw);
            var r := AddOne(AddAll(raws).value.0, f, raw);
            && (r.Ok? <==> |raws| < MAX_PARAMS && Good(raw)
                           && !((k.IsVolume() && f.volume) || (k.IsSl() && f.sl)
                                || (k.IsTp() && f.tp) || (k.IsEntry() && f.entry)))
            && (r.Ok? ==> r.value.1 == Raised(f, k))
  {
    hide AddAll, KindFrom, TrimAscii;
  }

  /** Permuting the parameters never changes acceptance. */
  lemma OrderIrrelevant(a: string, b: string)
    requires var x, y := Fields(TrimAscii(a)), Fields(TrimAscii(b));
             |x| >= 3 && |y| >= 3 && x[..3] == y[..3] && multiset(x[3..]) == multiset(y[3..])
    ensures Parse(a).Ok? <==> Parse(b).Ok?
  {
    hide AddAll, Validate, CommandFrom, FlagsOf, Acceptable, Split, TrimAll;
    var x, y := Fields(TrimAscii(a)), Fields(TrimAscii(b));
    AddAllIsBag(x[3..]);
    AddAllIsBag(y[3..]);
    assert x[0] == x[..3][0] && x[1] == x[..3][1] && x[2] == x[..3][2];
    FieldsOfNothing(a);
    FieldsOfNothing(b);
  }

  lemma FieldsOfNothing(s: string)
    ensures TrimAscii(s) == "" ==> |Fields(TrimAscii(s))| == 1
  {
    assert Split("", ',') == [""];
    assert TrimAll([""]) == [TrimAscii("")] + TrimAll([]);
  }
}

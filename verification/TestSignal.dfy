/**
 The dashboard's sample-signal builder (`build_test_signal_command` in
 scripts/trade_dashboard.py), a second producer of the webhook grammar.
 */
module TestSignal {
  import opened Text
  import opened WebhookTables
  import opened WebhookParser
  import opened WebhookLaws

  /** The form fields; a missing one is empty. */
  datatype Form = Form(command: string, symbol: string, volLots: string, riskMode: string, risk: string,
                       sl: string, tp: string, comment: string)

  /** Python's str.strip() and str.upper(), and the two environment values. */
  datatype Env = Env(strip: string -> string, upper: string -> string, license: string, secret: string)

  /** All the model uses of strip(): no ASCII white space is left at either end. */
  ghost predicate Lawful(env: Env) {
    (forall s :: Trimmed(Ascii, env.strip(s))) && Trimmed(Ascii, env.license) && Trimmed(Ascii, env.secret)
  }

  const BUY := "BUY"
  const SELL := "SELL"
  const CLOSELONG := "CLOSELONG"
  const CLOSESHORT := "CLOSESHORT"

  function OrElse(s: string, default: string): (r: string) {
    if s == "" then default else s
  }

  datatype Built = Body(parts: seq<string>) | Refused

  function Upper(env: Env, form: Form): (s: string) {
    env.upper(env.strip(form.command))
  }

  predicate Opens(env: Env, form: Form) {
    Upper(env, form) == BUY || Upper(env, form) == SELL
  }

  function RiskMode(env: Env, form: Form): (s: string) {
    env.strip(OrElse(form.riskMode, "bypass"))
  }

  function CommentText(env: Env, form: Form): (s: string) {
    env.strip(OrElse(form.comment, "webhook-test"))
  }

  /** A form the builder does not refuse. */
  predicate Complete(env: Env, form: Form) {
    && (Opens(env, form) || Upper(env, form) == CLOSELONG || Upper(env, form) == CLOSESHORT)
    && env.strip(form.symbol) != ""
    && (Opens(env, form) ==>
          && env.strip(form.volLots) != "" && env.strip(form.sl) != "" && env.strip(form.tp) != ""
          && (RiskMode(env, form) == "bypass" || RiskMode(env, form) == "stack"
              || (RiskMode(env, form) == "custom" && env.strip(form.risk) != "")))
  }

  /** The values of the form, as the parameters they are meant to become. */
  function Opening(env: Env, form: Form): (ps: seq<Param>) {
    if !Opens(env, form) then []
    else
      [Param(VolLots, "vol_lots", env.strip(form.volLots))]
      + (if RiskMode(env, form) == "bypass" then [Param(Risk, "risk", "0")]
         else if RiskMode(env, form) == "custom" then [Param(Risk, "risk", env.strip(form.risk))] else [])
      + [Param(Sl, "sl", env.strip(form.sl))] + [Param(Tp, "tp", env.strip(form.tp))]
  }

  function Wanted(env: Env, form: Form): (ps: seq<Param>) {
    Opening(env, form)
    + (if CommentText(env, form) == "" then [] else [Param(Comment, "comment", CommentText(env, form))])
    + (if env.secret == "" then [] else [Param(Secret, "secret", env.secret)])
  }

  /** The BUY/SELL branch of the builder. */
  method AddOpening(env: Env, form: Form, head: seq<string>) returns (ok: bool, parts: seq<string>)
    requires Opens(env, form) && env.strip(form.symbol) != ""
    ensures ok <==> Complete(env, form)
    ensures ok ==> parts == head + KeyValues(Opening(env, form))
  {
    hide KeyValues;
    ok, parts := false, head;
    ghost var ps := [];
    NoKeyValues();
    assert parts == head + KeyValues(ps);
    var volLots := env.strip(form.volLots);
    if volLots == "" { return; }
    parts, ps := AddPart(head, parts, ps, Param(VolLots, "vol_lots", volLots));
    var riskMode := env.strip(OrElse(form.riskMode, "bypass"));
    if riskMode == "bypass" {
      parts, ps := AddPart(head, parts, ps, Param(Risk, "risk", "0"));
    } else if riskMode == "custom" {
      var risk := env.strip(form.risk);
      if risk == "" { return; }
      parts, ps := AddPart(head, parts, ps, Param(Risk, "risk", risk));
    } else if riskMode != "stack" {
      return;
    }
    var sl, tp := env.strip(form.sl), env.strip(form.tp);
    if sl == "" || tp == "" { return; }
    parts, ps := AddPart(head, parts, ps, Param(Sl, "sl", sl));
    parts, ps := AddPart(head, parts, ps, Param(Tp, "tp", tp));
    assert ps == Opening(env, form);
    ok := true;
  }

  /** `build_test_signal_command` up to the final join. */
  method Build(env: Env, form: Form) returns (r: Built)
    ensures r == if Complete(env, form)
                 then Body([env.license, Upper(env, form), env.strip(form.symbol)] + KeyValues(Wanted(env, form)))
                 else Refused
  {
    hide KeyValues;
    var command := env.upper(env.strip(form.command));
    if command != BUY && command != SELL && command != CLOSELONG && command != CLOSESHORT { return Refused; }
    var symbol := env.strip(form.symbol);
    if symbol == "" { return Refused; }
    var parts := [env.license, command, symbol];
    ghost var head, ps := parts, Opening(env, form);
    NoKeyValues();
    if command == BUY || command == SELL {
      var ok;
      ok, parts := AddOpening(env, form, parts);
      if !ok { return Refused; }
    }
    assert parts == head + KeyValues(ps);
    var comment := env.strip(OrElse(form.comment, "webhook-test"));
    if comment != "" { parts, ps := AddPart(head, parts, ps, Param(Comment, "comment", comment)); }
    if env.secret != "" { parts, ps := AddPart(head, parts, ps, Param(Secret, "secret", env.secret)); }
    assert ps == Wanted(env, form);
    return Body(parts);
  }

  lemma NoKeyValues()
    ensures KeyValues([]) == []
  {
  }

  /** Append one key=value part. */
  method AddPart(ghost head: seq<string>, parts: seq<string>, ghost ps: seq<Param>, p: Param)
    returns (more: seq<string>, ghost qs: seq<Param>)
    requires parts == head + KeyValues(ps)
    ensures qs == ps + [p] && more == head + KeyValues(qs)
  {
    more := parts + [p.key + "=" + p.value];
    qs := ps + [p];
    assert qs[..|ps|] == ps;
  }

  // ---------------------------------------------------------------- acceptance

  /** Running `validationState.add` over parameters in order. */
  function Run(ps: seq<Param>): (r: Result<Flags>) {
    if ps == [] then Ok(NO_FLAGS)
    else match Run(ps[..|ps| - 1])
      case Err(code) => Err(code)
      case Ok(f) => Add(f, ps[|ps| - 1].kind, ps[|ps| - 1].value)
  }

  lemma RunNothing()
    ensures Run([]) == Ok(NO_FLAGS)
  {
  }

  lemma RunAppend(ps: seq<Param>, p: Param)
    ensures Run(ps + [p]) == if Run(ps).Ok? then Add(Run(ps).value, p.kind, p.value) else Run(ps)
  {
    assert (ps + [p])[..|ps|] == ps;
  }

  lemma {:induction false} AddAllOf(ps: seq<Param>)
    requires |ps| <= MAX_PARAMS && forall i :: 0 <= i < |ps| ==> CleanParam(ps[i])
    ensures AddAll(KeyValues(ps)) == if Run(ps).Ok? then Ok((ps, Run(ps).value)) else Err(Run(ps).code)
    ensures AllFilled(KeyValues(ps))
  {
    hide ReadParam, Add, CleanParam, KeyValue, Clean;
    if ps != [] {
      var n := |ps| - 1;
      AddAllOf(ps[..n]);
      ReadKeyValue(ps[n]);
      assert KeyValues(ps)[..n] == KeyValues(ps[..n]);
      assert ps == ps[..n] + [ps[n]];
    }
  }

  /** No value the form puts into the body holds a comma. */
  predicate CommaFree(env: Env, form: Form) {
    && ',' !in env.license && ',' !in env.strip(form.symbol)
    && forall i :: 0 <= i < |Wanted(env, form)| ==> ',' !in Wanted(env, form)[i].value
  }

  predicate BuilderKey(kind: ParamKind, key: string) {
    || (kind == VolLots && key == "vol_lots") || (kind == Risk && key == "risk") || (kind == Sl && key == "sl")
    || (kind == Tp && key == "tp") || (kind == Comment && key == "comment") || (kind == Secret && key == "secret")
  }

  /** The builder's keys are known keys. */
  lemma KeyKinds(kind: ParamKind, key: string)
    requires BuilderKey(kind, key)
    ensures Letters(key) && KindFrom(key) == kind
  {
    hide EqFold;
    if key == "vol_lots" { SelfFold("vol_lots"); }
    else if key == "risk" { SelfFold("risk"); }
    else if key == "sl" { SelfFold("sl"); }
    else if key == "tp" { SelfFold("tp"); Differ("tp", "sl", 0); }
    else if key == "comment" {
      SelfFold("comment"); Differ("comment", "sl_pips", 0); Differ("comment", "tp_pips", 0);
        Differ("comment", "pending", 0);
    } else {
      SelfFold("secret"); Differ("secret", "sl_pct", 1); Differ("secret", "tp_pct", 0);
    }
  }

  lemma MakeClean(kind: ParamKind, key: string, value: string)
    requires BuilderKey(kind, key)
    requires Clean(value) && value != ""
    ensures CleanParam(Param(kind, key, value))
  {
    hide KindFrom, EqFold;
    KeyKinds(kind, key);
    LettersClean(key);
  }

  /** A known key with a trimmed, non-empty value. */
  predicate Proper(p: Param) {
    BuilderKey(p.kind, p.key) && Trimmed(Ascii, p.value) && p.value != ""
  }

  lemma OpeningProper(env: Env, form: Form)
    requires Lawful(env) && Complete(env, form)
    ensures |Opening(env, form)| <= 4
    ensures forall i :: 0 <= i < |Opening(env, form)| ==> Proper(Opening(env, form)[i])
  {
    if Opens(env, form) {
      var risk := if RiskMode(env, form) == "bypass" then [Param(Risk, "risk", "0")]
                  else if RiskMode(env, form) == "custom" then [Param(Risk, "risk", env.strip(form.risk))] else [];
      AllProper(Param(VolLots, "vol_lots", env.strip(form.volLots)), risk,
                Param(Sl, "sl", env.strip(form.sl)), Param(Tp, "tp", env.strip(form.tp)));
    }
  }

  lemma AllProper(vol: Param, risk: seq<Param>, sl: Param, tp: Param)
    requires Proper(vol) && Proper(sl) && Proper(tp) && |risk| <= 1 && (risk != [] ==> Proper(risk[0]))
    ensures var ps := [vol] + risk + [sl] + [tp]; forall i :: 0 <= i < |ps| ==> Proper(ps[i])
  {
    hide Proper;
  }

  lemma WantedClean(env: Env, form: Form)
    requires Lawful(env) && Complete(env, form) && CommaFree(env, form)
    ensures |Wanted(env, form)| <= 6
    ensures forall i :: 0 <= i < |Wanted(env, form)| ==> CleanParam(Wanted(env, form)[i])
  {
    hide CleanParam, Opening, BuilderKey;
    var ps := Wanted(env, form);
    WantedProper(env, form);
    forall i | 0 <= i < |ps| ensures CleanParam(ps[i]) { MakeClean(ps[i].kind, ps[i].key, ps[i].value); }
  }

  lemma WantedProper(env: Env, form: Form)
    requires Lawful(env) && Complete(env, form)
    ensures |Wanted(env, form)| <= 6
    ensures forall i :: 0 <= i < |Wanted(env, form)| ==> Proper(Wanted(env, form)[i])
  {
    hide Opening;
    OpeningProper(env, form);
    assert CommentText(env, form) != "" ==> Proper(Param(Comment, "comment", CommentText(env, form)));
    assert env.secret != "" ==> Proper(Param(Secret, "secret", env.secret));
  }

  /** The flags that the opening parameters touch, and none that asks for more. */
  predicate Calm(r: Result<Flags>, volume: bool, sl: bool, tp: bool) {
    r.Ok? && r.value.volume == volume && r.value.sl == sl && r.value.tp == tp && !r.value.lossRisk && !r.value.atr
  }

  lemma RunStep(ps: seq<Param>, p: Param, volume: bool, sl: bool, tp: bool)
    requires Calm(Run(ps), volume, sl, tp) && p.value != ""
    ensures p.kind.VolLots? && !volume ==> Calm(Run(ps + [p]), true, sl, tp)
    ensures p.kind.Risk? ==> Calm(Run(ps + [p]), volume, sl, tp)
    ensures p.kind.Sl? && !sl ==> Calm(Run(ps + [p]), volume, true, tp)
    ensures p.kind.Tp? && !tp ==> Calm(Run(ps + [p]), volume, sl, true)
  {
    hide Run;
    RunAppend(ps, p);
  }

  lemma RunFour(vol: Param, risk: seq<Param>, sl: Param, tp: Param)
    requires vol.kind.VolLots? && sl.kind.Sl? && tp.kind.Tp? && vol.value != "" && sl.value != "" && tp.value != ""
    requires risk == [] || (|risk| == 1 && risk[0].kind.Risk? && risk[0].value != "")
    ensures Calm(Run([vol] + risk + [sl] + [tp]), true, true, true)
  {
    assert Calm(Run([]), false, false, false);
    hide Run, Calm;
    RunStep([], vol, false, false, false);
    assert [] + [vol] == [vol];
    if risk == [] {
      assert [vol] + risk == [vol];
    } else {
      RunStep([vol], risk[0], true, false, false);
      assert [vol] + risk == [vol] + [risk[0]];
    }
    RunStep([vol] + risk, sl, true, false, false);
    RunStep([vol] + risk + [sl], tp, true, true, false);
  }

  lemma RunOpening(env: Env, form: Form)
    requires Complete(env, form)
    ensures var r := Run(Opening(env, form));
            r.Ok? && !r.value.lossRisk && !r.value.atr && (Opens(env, form) ==> r.value.volume)
  {
    hide Run;
    RunNothing();
    if Opens(env, form) {
      var risk := if RiskMode(env, form) == "bypass" then [Param(Risk, "risk", "0")]
                  else if RiskMode(env, form) == "custom" then [Param(Risk, "risk", env.strip(form.risk))] else [];
      RunFour(Param(VolLots, "vol_lots", env.strip(form.volLots)), risk,
              Param(Sl, "sl", env.strip(form.sl)), Param(Tp, "tp", env.strip(form.tp)));
    }
  }

  lemma RunWanted(env: Env, form: Form)
    requires Complete(env, form)
    ensures var r := Run(Wanted(env, form));
            && (r.Ok? <==> |CommentText(env, form)| <= MAX_COMMENT)
            && (r.Ok? ==> !r.value.lossRisk && !r.value.atr && (Opens(env, form) ==> r.value.volume))
  {
    hide Run, Opening;
    RunOpening(env, form);
    var ps := Opening(env, form);
    var comment, secret := Param(Comment, "comment", CommentText(env, form)), Param(Secret, "secret", env.secret);
    if CommentText(env, form) != "" {
      RunAppend(ps, comment);
      ps := ps + [comment];
    }
    if env.secret != "" {
      RunAppend(ps, secret);
      ps := ps + [secret];
    }
    assert ps == Wanted(env, form);
  }

  function CommandOf(upper: string): (c: Command) {
    if upper == BUY then Buy else if upper == SELL then Sell else if upper == CLOSELONG then CloseLong else CloseShort
  }

  /**
   A body built from comma-free values is accepted exactly when a license is set
   and the comment has at most 20 bytes, and then with the form's own values.
   */
  lemma BuiltIsAccepted(env: Env, form: Form)
    requires Lawful(env) && Complete(env, form) && CommaFree(env, form)
    ensures var body :=
              Join([env.license, Upper(env, form), env.strip(form.symbol)] + KeyValues(Wanted(env, form)), ',');
            Parse(body).Ok? <==> env.license != "" && |CommentText(env, form)| <= MAX_COMMENT
    ensures var body :=
              Join([env.license, Upper(env, form), env.strip(form.symbol)] + KeyValues(Wanted(env, form)), ',');
            Parse(body).Ok? ==>
              Parse(body).value ==
              Signal(env.license, CommandOf(Upper(env, form)), Upper(env, form), env.strip(form.symbol),
                Wanted(env, form))
  {
    hide Wanted, Run, AddAll, KeyValues, Join, Parse, CommandFrom;
    var ps, symbol, upper := Wanted(env, form), env.strip(form.symbol), Upper(env, form);
    var fs := [env.license, upper, symbol] + KeyValues(ps);
    WantedClean(env, form);
    AddAllOf(ps);
    RunWanted(env, form);
    UpperNames(upper);
    assert fs[3..] == KeyValues(ps);
    if env.license == "" {
      NoLicense(fs);
    } else {
      assert AllFilled(fs);
      ParseJoin(fs);
    }
  }

  lemma UpperNames(upper: string)
    requires upper == BUY || upper == SELL || upper == CLOSELONG || upper == CLOSESHORT
    ensures CommandFrom(upper) == CommandOf(upper)
    ensures Clean(upper) && upper != ""
  {
    UpperFold();
    hide EqFold;
    if upper == SELL { Differ(SELL, "long", 0); Differ(SELL, "bull", 0); }
    else if upper == CLOSELONG { Differ(CLOSELONG, "selllimit", 0); }
    else if upper == CLOSESHORT { Differ(CLOSESHORT, "cancellong", 1); }
  }

  lemma UpperFold()
    ensures EqFold(BUY, "buy") && EqFold(SELL, "sell")
    ensures EqFold(CLOSELONG, "closelong") && EqFold(CLOSESHORT, "closeshort")
  {
  }

  /** A body whose license is missing is rejected. */
  lemma NoLicense(fs: seq<string>)
    requires |fs| > 1 && fs[0] == "" && AllFilled(fs[1..])
    ensures Parse(Join(fs, ',')).Err?
  {
    hide Split, TrimAll, AddAll, Validate;
    JoinTrimmed(fs[1..]);
    assert Trimmed(Ascii, Join(fs, ','));
    TrimFacts(Ascii, Join(fs, ','));
    forall i | 0 <= i < |fs| ensures ',' !in fs[i] {
      if i > 0 { assert fs[i] == fs[1..][i - 1]; }
    }
    SplitJoin(fs, ',');
    FirstTrimmed(fs);
  }

  lemma FirstTrimmed(fs: seq<string>)
    requires fs != [] && fs[0] == ""
    ensures TrimAll(fs)[0] == ""
  {
  }
}

/**
 The tables of the webhook grammar (packages/parser-go/lookup.go and types.go).
 A Go string is modelled as the sequence of its bytes, one `char` per byte.
 */
module WebhookTables {

  const MAX_PARAMS := 48
  const MAX_COMMENT := 20

  datatype Command =
    | Invalid
    | Buy
    | Sell
    | BuyStop
    | BuyLimit
    | SellStop
    | SellLimit
    | CloseAll
    | CancelLong
    | CancelShort
    | CloseLong
    | CloseShort
    | CloseLongShort
    | CloseLongPct
    | CloseShortPct
    | CloseLongVol
    | CloseShortVol
    | NewSltpLong
    | NewSltpShort
    | NewSltpBuyStop
    | NewSltpBuyLimit
    | NewSltpSellStop
    | NewSltpSellLimit
    | CloseLongOpenLong
    | CloseLongOpenShort
    | CloseShortOpenLong
    | CloseShortOpenShort
    | CloseLongShortOpenLong
    | CloseLongShortOpenShort
    | CancelLongBuyStop
    | CancelLongBuyLimit
    | CancelShortSellStop
    | CancelShortSellLimit
    | EaOff
    | EaOn
    | CloseAllEaOff
  {
    function Name(): (s: string) {
      match this
      case Invalid => "invalid"
      case Buy => "buy"
      case Sell => "sell"
      case BuyStop => "buystop"
      case BuyLimit => "buylimit"
      case SellStop => "sellstop"
      case SellLimit => "selllimit"
      case CloseAll => "closeall"
      case CancelLong => "cancellong"
      case CancelShort => "cancelshort"
      case CloseLong => "closelong"
      case CloseShort => "closeshort"
      case CloseLongShort => "closelongshort"
      case CloseLongPct => "closelongpct"
      case CloseShortPct => "closeshortpct"
      case CloseLongVol => "closelongvol"
      case CloseShortVol => "closeshortvol"
      case NewSltpLong => "newsltplong"
      case NewSltpShort => "newsltpshort"
      case NewSltpBuyStop => "newsltpbuystop"
      case NewSltpBuyLimit => "newsltpbuylimit"
      case NewSltpSellStop => "newsltpsellstop"
      case NewSltpSellLimit => "newsltpselllimit"
      case CloseLongOpenLong => "closelongopenlong"
      case CloseLongOpenShort => "closelongopenshort"
      case CloseShortOpenLong => "closeshortopenlong"
      case CloseShortOpenShort => "closeshortopenshort"
      case CloseLongShortOpenLong => "closelongshortopenlong"
      case CloseLongShortOpenShort => "closelongshortopenshort"
      case CancelLongBuyStop => "cancellongbuystop"
      case CancelLongBuyLimit => "cancellongbuylimit"
      case CancelShortSellStop => "cancelshortsellstop"
      case CancelShortSellLimit => "cancelshortselllimit"
      case EaOff => "eaoff"
      case EaOn => "eaon"
      case CloseAllEaOff => "closealleaoff"
    }

    predicate OpensOrder() {
      Buy? || Sell? || IsPendingOpen()
      || CloseLongOpenLong? || CloseLongOpenShort? || CloseShortOpenLong? || CloseShortOpenShort?
      || CloseLongShortOpenLong? || CloseLongShortOpenShort?
    }

    predicate IsPendingOpen() {
      BuyStop? || BuyLimit? || SellStop? || SellLimit?
      || CancelLongBuyStop? || CancelLongBuyLimit? || CancelShortSellStop? || CancelShortSellLimit?
    }

    predicate IsModify() {
      NewSltpLong? || NewSltpShort? || NewSltpBuyStop? || NewSltpBuyLimit? || NewSltpSellStop? || NewSltpSellLimit?
    }
  }

  datatype ParamKind =
    | Unknown
    | Risk
    | VolLots
    | VolDollar
    | VolPctBalanceLoss
    | VolPctEquityLoss
    | VolPctBalanceMargin
    | Sl
    | SlPips
    | SlPrice
    | SlPct
    | Tp
    | TpPips
    | TpPrice
    | TpPct
    | Pending
    | EntryPrice
    | EntryPips
    | EntryPct
    | TrailTrigger
    | TrailDistance
    | TrailStep
    | AtrTimeframe
    | AtrPeriod
    | AtrMultiplier
    | AtrShift
    | AtrTrigger
    | BeTrigger
    | BeOffset
    | Secret
    | Comment
    | Spread
    | AccountFilter
  {
    predicate IsVolume() {
      VolLots? || VolDollar? || VolPctBalanceLoss? || VolPctEquityLoss? || VolPctBalanceMargin?
    }

    predicate IsSl() {
      Sl? || SlPips? || SlPrice? || SlPct?
    }

    predicate IsTp() {
      Tp? || TpPips? || TpPrice? || TpPct?
    }

    predicate IsEntry() {
      Pending? || EntryPrice? || EntryPips? || EntryPct?
    }
  }

  function LowerChar(c: char): (r: char) {
    if 'A' <= c <= 'Z' then c + 32 as char else c
  }

  /** `value` folded to lower case is `want` (`eqFoldASCII`). */
  predicate EqFold(value: string, want: string) {
    |value| == |want| && forall i :: 0 <= i < |value| ==> LowerChar(value[i]) == want[i]
  }

  /** The byte loop of `eqFoldASCII`. */
  method EqFoldLoop(value: string, want: string) returns (eq: bool)
    ensures eq <==> EqFold(value, want)
  {
    if |value| != |want| { return false; }
    var i := 0;
    while i < |value|
      invariant i <= |value|
      invariant forall k :: 0 <= k < i ==> LowerChar(value[k]) == want[k]
    {
      var c := value[i];
      if 'A' <= c <= 'Z' { c := c + 32 as char; }
      if c != want[i] { return false; }
      i := i + 1;
    }
    return true;
  }

  /**
   `commandFrom`. The names are grouped by length, which `eqFoldASCII` compares
   first; within a group the order is that of the source.
   */
  function CommandFrom(raw: string): (c: Command) {
    match |raw|
    case 3 =>
      if EqFold(raw, "buy") then Buy
      else Invalid
    case 4 =>
      if EqFold(raw, "long") || EqFold(raw, "bull") then Buy
      else if EqFold(raw, "sell") || EqFold(raw, "bear") then Sell
      else if EqFold(raw, "eaon") then EaOn
      else Invalid
    case 5 =>
      if EqFold(raw, "short") then Sell
      else if EqFold(raw, "cl+ol") then CloseLongOpenLong
      else if EqFold(raw, "cl+os") then CloseLongOpenShort
      else if EqFold(raw, "cs+ol") then CloseShortOpenLong
      else if EqFold(raw, "cs+os") then CloseShortOpenShort
      else if EqFold(raw, "eaoff") then EaOff
      else Invalid
    case 6 =>
      if EqFold(raw, "cls+ol") then CloseLongShortOpenLong
      else if EqFold(raw, "cls+os") then CloseLongShortOpenShort
      else Invalid
    case 7 =>
      if EqFold(raw, "bullish") then Buy
      else if EqFold(raw, "bearish") then Sell
      else if EqFold(raw, "buystop") then BuyStop
      else Invalid
    case 8 =>
      if EqFold(raw, "buylimit") then BuyLimit
      else if EqFold(raw, "sellstop") then SellStop
      else if EqFold(raw, "closeall") then CloseAll
      else Invalid
    case 9 =>
      if EqFold(raw, "selllimit") then SellLimit
      else if EqFold(raw, "closelong") then CloseLong
      else Invalid
    case 10 =>
      if EqFold(raw, "cancellong") then CancelLong
      else if EqFold(raw, "closeshort") then CloseShort
      else Invalid
    case 11 =>
      if EqFold(raw, "cancelshort") then CancelShort
      else if EqFold(raw, "newsltplong") then NewSltpLong
      else Invalid
    case 12 =>
      if EqFold(raw, "closelongpct") then CloseLongPct
      else if EqFold(raw, "closelongvol") then CloseLongVol
      else if EqFold(raw, "newsltpshort") then NewSltpShort
      else Invalid
    case 13 =>
      if EqFold(raw, "closeshortpct") then CloseShortPct
      else if EqFold(raw, "closeshortvol") then CloseShortVol
      else if EqFold(raw, "closealleaoff") then CloseAllEaOff
      else Invalid
    case 14 =>
      if EqFold(raw, "closelongshort") then CloseLongShort
      else if EqFold(raw, "newsltpbuystop") then NewSltpBuyStop
      else Invalid
    case 15 =>
      if EqFold(raw, "newsltpbuylimit") then NewSltpBuyLimit
      else if EqFold(raw, "newsltpsellstop") then NewSltpSellStop
      else Invalid
    case 16 =>
      if EqFold(raw, "newsltpselllimit") then NewSltpSellLimit
      else Invalid
    case 17 =>
      if EqFold(raw, "closelongopenlong") then CloseLongOpenLong
      else if EqFold(raw, "cancellongbuystop") then CancelLongBuyStop
      else Invalid
    case 18 =>
      if EqFold(raw, "closelongopenshort") then CloseLongOpenShort
      else if EqFold(raw, "closeshortopenlong") then CloseShortOpenLong
      else if EqFold(raw, "cancellongbuylimit") then CancelLongBuyLimit
      else Invalid
    case 19 =>
      if EqFold(raw, "closeshortopenshort") then CloseShortOpenShort
      else if EqFold(raw, "cancelshortsellstop") then CancelShortSellStop
      else Invalid
    case 20 =>
      if EqFold(raw, "cancelshortselllimit") then CancelShortSellLimit
      else Invalid
    case 22 =>
      if EqFold(raw, "closelongshortopenlong") then CloseLongShortOpenLong
      else Invalid
    case 23 =>
      if EqFold(raw, "closelongshortopenshort") then CloseLongShortOpenShort
      else Invalid
    case _ => Invalid
  }

  /** `paramKindFromKey`, grouped in the same way. */
  function KindFrom(key: string): (k: ParamKind) {
    match |key|
    case 2 =>
      if EqFold(key, "sl") then Sl
      else if EqFold(key, "tp") then Tp
      else Unknown
    case 4 =>
      if EqFold(key, "risk") then Risk
      else Unknown
    case 5 =>
      if EqFold(key, "price") then EntryPrice
      else Unknown
    case 6 =>
      if EqFold(key, "sl_pct") then SlPct
      else if EqFold(key, "tp_pct") then TpPct
      else if EqFold(key, "secret") then Secret
      else if EqFold(key, "spread") then Spread
      else Unknown
    case 7 =>
      if EqFold(key, "sl_pips") then SlPips
      else if EqFold(key, "tp_pips") then TpPips
      else if EqFold(key, "pending") then Pending
      else if EqFold(key, "comment") then Comment
      else Unknown
    case 8 =>
      if EqFold(key, "vol_lots") then VolLots
      else if EqFold(key, "sl_price") then SlPrice
      else if EqFold(key, "tp_price") then TpPrice
      else if EqFold(key, "atrshift") then AtrShift
      else if EqFold(key, "beoffset") then BeOffset
      else Unknown
    case 9 =>
      if EqFold(key, "entry_pct") then EntryPct
      else if EqFold(key, "trailtrig") then TrailTrigger
      else if EqFold(key, "traildist") then TrailDistance
      else if EqFold(key, "trailstep") then TrailStep
      else if EqFold(key, "atrperiod") then AtrPeriod
      else if EqFold(key, "betrigger") then BeTrigger
      else if EqFold(key, "accfilter") then AccountFilter
      else Unknown
    case 10 =>
      if EqFold(key, "vol_dollar") then VolDollar
      else if EqFold(key, "entry_pips") then EntryPips
      else if EqFold(key, "atrtrigger") then AtrTrigger
      else Unknown
    case 11 =>
      if EqFold(key, "entry_price") then EntryPrice
      else Unknown
    case 12 =>
      if EqFold(key, "atrtimeframe") then AtrTimeframe
      else Unknown
    case 13 =>
      if EqFold(key, "atrmultiplier") then AtrMultiplier
      else Unknown
    case 15 =>
      if EqFold(key, "vol_pct_eq_loss") then VolPctEquityLoss
      else Unknown
    case 16 =>
      if EqFold(key, "vol_pct_bal_loss") then VolPctBalanceLoss
      else Unknown
    case 18 =>
      if EqFold(key, "vol_pct_bal_margin") then VolPctBalanceMargin
      else Unknown
    case _ => Unknown
  }

  predicate Letters(s: string) {
    s != "" && forall c :: c in s ==> 'a' <= c <= 'z' || c == '_'
  }

  lemma SelfFold(s: string)
    requires Letters(s)
    ensures EqFold(s, s)
  {
    forall i | 0 <= i < |s| ensures LowerChar(s[i]) == s[i] { assert s[i] in s; }
  }

  lemma Differ(a: string, b: string, k: nat)
    requires k < |a| && k < |b| && LowerChar(a[k]) != b[k]
    ensures !EqFold(a, b)
  {
  }

  /** Every command reads back from its own name, which holds no separator. */
  lemma NameReadsBack(c: Command)
    ensures c != Invalid ==> CommandFrom(c.Name()) == c && Letters(c.Name())
  {
    hide CommandFrom, EqFold, Letters;
    match c
    case Invalid =>
    case Buy | Sell | EaOn | EaOff | BuyStop => ReadsBack1(c);
    case BuyLimit | SellStop | CloseAll | SellLimit => ReadsBack2(c);
    case CloseLong | CancelLong | CloseShort => ReadsBack3(c);
    case CancelShort | NewSltpLong | CloseLongPct => ReadsBack4(c);
    case CloseLongVol | NewSltpShort | CloseShortPct => ReadsBack5(c);
    case CloseShortVol | CloseAllEaOff | CloseLongShort => ReadsBack6(c);
    case NewSltpBuyStop | NewSltpBuyLimit => ReadsBack7(c);
    case NewSltpSellStop | NewSltpSellLimit => ReadsBack8(c);
    case CloseLongOpenLong | CancelLongBuyStop => ReadsBack9(c);
    case CloseLongOpenShort | CloseShortOpenLong => ReadsBack10(c);
    case CancelLongBuyLimit | CloseShortOpenShort => ReadsBack11(c);
    case CancelShortSellStop | CancelShortSellLimit => ReadsBack12(c);
    case CloseLongShortOpenLong | CloseLongShortOpenShort => ReadsBack13(c);
  }

  lemma ReadsBack1(c: Command)
    requires c.Buy? || c.Sell? || c.EaOn? || c.EaOff? || c.BuyStop?
    ensures CommandFrom(c.Name()) == c && Letters(c.Name())
  {
    hide EqFold;
    match c
    case Buy => SelfFold("buy");
    case Sell => SelfFold("sell"); Differ("sell", "long", 0); Differ("sell", "bull", 0);
    case EaOn => SelfFold("eaon"); Differ("eaon", "long", 0); Differ("eaon", "bull", 0); Differ("eaon", "sell", 0);
      Differ("eaon", "bear", 0);
    case EaOff => SelfFold("eaoff"); Differ("eaoff", "short", 0); Differ("eaoff", "cl+ol", 0);
      Differ("eaoff", "cl+os", 0); Differ("eaoff", "cs+ol", 0); Differ("eaoff", "cs+os", 0);
    case BuyStop => SelfFold("buystop"); Differ("buystop", "bullish", 2); Differ("buystop", "bearish", 1);
  }

  lemma ReadsBack2(c: Command)
    requires c.BuyLimit? || c.SellStop? || c.CloseAll? || c.SellLimit?
    ensures CommandFrom(c.Name()) == c && Letters(c.Name())
  {
    hide EqFold;
    match c
    case BuyLimit => SelfFold("buylimit");
    case SellStop => SelfFold("sellstop"); Differ("sellstop", "buylimit", 0);
    case CloseAll => SelfFold("closeall"); Differ("closeall", "buylimit", 0); Differ("closeall", "sellstop", 0);
    case SellLimit => SelfFold("selllimit");
  }

  lemma ReadsBack3(c: Command)
    requires c.CloseLong? || c.CancelLong? || c.CloseShort?
    ensures CommandFrom(c.Name()) == c && Letters(c.Name())
  {
    hide EqFold;
    match c
    case CloseLong => SelfFold("closelong"); Differ("closelong", "selllimit", 0);
    case CancelLong => SelfFold("cancellong");
    case CloseShort => SelfFold("closeshort"); Differ("closeshort", "cancellong", 1);
  }

  lemma ReadsBack4(c: Command)
    requires c.CancelShort? || c.NewSltpLong? || c.CloseLongPct?
    ensures CommandFrom(c.Name()) == c && Letters(c.Name())
  {
    hide EqFold;
    match c
    case CancelShort => SelfFold("cancelshort");
    case NewSltpLong => SelfFold("newsltplong"); Differ("newsltplong", "cancelshort", 0);
    case CloseLongPct => SelfFold("closelongpct");
  }

  lemma ReadsBack5(c: Command)
    requires c.CloseLongVol? || c.NewSltpShort? || c.CloseShortPct?
    ensures CommandFrom(c.Name()) == c && Letters(c.Name())
  {
    hide EqFold;
    match c
    case CloseLongVol => SelfFold("closelongvol"); Differ("closelongvol", "closelongpct", 9);
    case NewSltpShort => SelfFold("newsltpshort"); Differ("newsltpshort", "closelongpct", 0);
      Differ("newsltpshort", "closelongvol", 0);
    case CloseShortPct => SelfFold("closeshortpct");
  }

  lemma ReadsBack6(c: Command)
    requires c.CloseShortVol? || c.CloseAllEaOff? || c.CloseLongShort?
    ensures CommandFrom(c.Name()) == c && Letters(c.Name())
  {
    hide EqFold;
    match c
    case CloseShortVol => SelfFold("closeshortvol"); Differ("closeshortvol", "closeshortpct", 10);
    case CloseAllEaOff => SelfFold("closealleaoff"); Differ("closealleaoff", "closeshortpct", 5);
      Differ("closealleaoff", "closeshortvol", 5);
    case CloseLongShort => SelfFold("closelongshort");
  }

  lemma ReadsBack7(c: Command)
    requires c.NewSltpBuyStop? || c.NewSltpBuyLimit?
    ensures CommandFrom(c.Name()) == c && Letters(c.Name())
  {
    hide EqFold;
    match c
    case NewSltpBuyStop => SelfFold("newsltpbuystop"); Differ("newsltpbuystop", "closelongshort", 0);
    case NewSltpBuyLimit => SelfFold("newsltpbuylimit");
  }

  lemma ReadsBack8(c: Command)
    requires c.NewSltpSellStop? || c.NewSltpSellLimit?
    ensures CommandFrom(c.Name()) == c && Letters(c.Name())
  {
    hide EqFold;
    match c
    case NewSltpSellStop => SelfFold("newsltpsellstop"); Differ("newsltpsellstop", "newsltpbuylimit", 7);
    case NewSltpSellLimit => SelfFold("newsltpselllimit");
  }

  lemma ReadsBack9(c: Command)
    requires c.CloseLongOpenLong? || c.CancelLongBuyStop?
    ensures CommandFrom(c.Name()) == c && Letters(c.Name())
  {
    hide EqFold;
    match c
    case CloseLongOpenLong => SelfFold("closelongopenlong");
    case CancelLongBuyStop => SelfFold("cancellongbuystop"); Differ("cancellongbuystop", "closelongopenlong", 1);
  }

  lemma ReadsBack10(c: Command)
    requires c.CloseLongOpenShort? || c.CloseShortOpenLong?
    ensures CommandFrom(c.Name()) == c && Letters(c.Name())
  {
    hide EqFold;
    match c
    case CloseLongOpenShort => SelfFold("closelongopenshort");
    case CloseShortOpenLong => SelfFold("closeshortopenlong"); Differ("closeshortopenlong", "closelongopenshort", 5);
  }

  lemma ReadsBack11(c: Command)
    requires c.CancelLongBuyLimit? || c.CloseShortOpenShort?
    ensures CommandFrom(c.Name()) == c && Letters(c.Name())
  {
    hide EqFold;
    match c
    case CancelLongBuyLimit => SelfFold("cancellongbuylimit"); Differ("cancellongbuylimit", "closelongopenshort", 1);
      Differ("cancellongbuylimit", "closeshortopenlong", 1);
    case CloseShortOpenShort => SelfFold("closeshortopenshort");
  }

  lemma ReadsBack12(c: Command)
    requires c.CancelShortSellStop? || c.CancelShortSellLimit?
    ensures CommandFrom(c.Name()) == c && Letters(c.Name())
  {
    hide EqFold;
    match c
    case CancelShortSellStop => SelfFold("cancelshortsellstop");
      Differ("cancelshortsellstop", "closeshortopenshort", 1);
    case CancelShortSellLimit => SelfFold("cancelshortselllimit");
  }

  lemma ReadsBack13(c: Command)
    requires c.CloseLongShortOpenLong? || c.CloseLongShortOpenShort?
    ensures CommandFrom(c.Name()) == c && Letters(c.Name())
  {
    hide EqFold;
    match c
    case CloseLongShortOpenLong => SelfFold("closelongshortopenlong");
    case CloseLongShortOpenShort => SelfFold("closelongshortopenshort");
  }
}

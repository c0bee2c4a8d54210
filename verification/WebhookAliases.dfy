/**
 The words of the webhook grammar: every alias of packages/parser-go/lookup.go, in
 any letter case, names its command or parameter, and nothing else does.
 */
module WebhookAliases {
  import opened WebhookTables

  /** The words for a command. */
  predicate Aliased(raw: string, c: Command) {
    match c
    case Invalid => false
    case Buy => EqFold(raw, "buy") || EqFold(raw, "long") || EqFold(raw, "bull") || EqFold(raw, "bullish")
    case Sell => EqFold(raw, "sell") || EqFold(raw, "short") || EqFold(raw, "bear") || EqFold(raw, "bearish")
    case BuyStop => EqFold(raw, "buystop")
    case BuyLimit => EqFold(raw, "buylimit")
    case SellStop => EqFold(raw, "sellstop")
    case SellLimit => EqFold(raw, "selllimit")
    case CloseAll => EqFold(raw, "closeall")
    case CancelLong => EqFold(raw, "cancellong")
    case CancelShort => EqFold(raw, "cancelshort")
    case CloseLong => EqFold(raw, "closelong")
    case CloseShort => EqFold(raw, "closeshort")
    case CloseLongShort => EqFold(raw, "closelongshort")
    case CloseLongPct => EqFold(raw, "closelongpct")
    case CloseShortPct => EqFold(raw, "closeshortpct")
    case CloseLongVol => EqFold(raw, "closelongvol")
    case CloseShortVol => EqFold(raw, "closeshortvol")
    case NewSltpLong => EqFold(raw, "newsltplong")
    case NewSltpShort => EqFold(raw, "newsltpshort")
    case NewSltpBuyStop => EqFold(raw, "newsltpbuystop")
    case NewSltpBuyLimit => EqFold(raw, "newsltpbuylimit")
    case NewSltpSellStop => EqFold(raw, "newsltpsellstop")
    case NewSltpSellLimit => EqFold(raw, "newsltpselllimit")
    case CloseLongOpenLong => EqFold(raw, "closelongopenlong") || EqFold(raw, "cl+ol")
    case CloseLongOpenShort => EqFold(raw, "closelongopenshort") || EqFold(raw, "cl+os")
    case CloseShortOpenLong => EqFold(raw, "closeshortopenlong") || EqFold(raw, "cs+ol")
    case CloseShortOpenShort => EqFold(raw, "closeshortopenshort") || EqFold(raw, "cs+os")
    case CloseLongShortOpenLong => EqFold(raw, "closelongshortopenlong") || EqFold(raw, "cls+ol")
    case CloseLongShortOpenShort => EqFold(raw, "closelongshortopenshort") || EqFold(raw, "cls+os")
    case CancelLongBuyStop => EqFold(raw, "cancellongbuystop")
    case CancelLongBuyLimit => EqFold(raw, "cancellongbuylimit")
    case CancelShortSellStop => EqFold(raw, "cancelshortsellstop")
    case CancelShortSellLimit => EqFold(raw, "cancelshortselllimit")
    case EaOff => EqFold(raw, "eaoff")
    case EaOn => EqFold(raw, "eaon")
    case CloseAllEaOff => EqFold(raw, "closealleaoff")
  }

  /** The keys of a parameter. */
  predicate Keyed(key: string, k: ParamKind) {
    match k
    case Unknown => false
    case Risk => EqFold(key, "risk")
    case VolLots => EqFold(key, "vol_lots")
    case VolDollar => EqFold(key, "vol_dollar")
    case VolPctBalanceLoss => EqFold(key, "vol_pct_bal_loss")
    case VolPctEquityLoss => EqFold(key, "vol_pct_eq_loss")
    case VolPctBalanceMargin => EqFold(key, "vol_pct_bal_margin")
    case Sl => EqFold(key, "sl")
    case SlPips => EqFold(key, "sl_pips")
    case SlPrice => EqFold(key, "sl_price")
    case SlPct => EqFold(key, "sl_pct")
    case Tp => EqFold(key, "tp")
    case TpPips => EqFold(key, "tp_pips")
    case TpPrice => EqFold(key, "tp_price")
    case TpPct => EqFold(key, "tp_pct")
    case Pending => EqFold(key, "pending")
    case EntryPrice => EqFold(key, "entry_price") || EqFold(key, "price")
    case EntryPips => EqFold(key, "entry_pips")
    case EntryPct => EqFold(key, "entry_pct")
    case TrailTrigger => EqFold(key, "trailtrig")
    case TrailDistance => EqFold(key, "traildist")
    case TrailStep => EqFold(key, "trailstep")
    case AtrTimeframe => EqFold(key, "atrtimeframe")
    case AtrPeriod => EqFold(key, "atrperiod")
    case AtrMultiplier => EqFold(key, "atrmultiplier")
    case AtrShift => EqFold(key, "atrshift")
    case AtrTrigger => EqFold(key, "atrtrigger")
    case BeTrigger => EqFold(key, "betrigger")
    case BeOffset => EqFold(key, "beoffset")
    case Secret => EqFold(key, "secret")
    case Comment => EqFold(key, "comment")
    case Spread => EqFold(key, "spread")
    case AccountFilter => EqFold(key, "accfilter")
  }

  /** A word read in any letter case has the length and the letters of its spelling. */
  lemma Spelled(s: string, want: string, k: nat)
    requires k < |want|
    ensures EqFold(s, want) ==> |s| == |want| && LowerChar(s[k]) == want[k]
  {
  }

  /** A spelling without capitals is matched by itself with any of its letters in capitals, and by nothing else. */
  lemma AnyCase(s: string, want: string)
    requires forall i :: 0 <= i < |want| ==> !('A' <= want[i] <= 'Z')
    ensures EqFold(s, want) <==>
            |s| == |want| && forall i :: 0 <= i < |s| ==>
                s[i] == want[i] || ('A' <= s[i] <= 'Z' && want[i] as int == s[i] as int + 32)
  {
  }

  // ---------------------------------------------------------------- commands

  lemma Command3(raw: string)
    ensures EqFold(raw, "buy") ==> CommandFrom(raw) == Buy
  {
    hide EqFold, LowerChar;
    Spelled(raw, "buy", 0);
  }

  lemma Command4(raw: string)
    ensures EqFold(raw, "long") || EqFold(raw, "bull") ==> CommandFrom(raw) == Buy
    ensures EqFold(raw, "sell") || EqFold(raw, "bear") ==> CommandFrom(raw) == Sell
    ensures EqFold(raw, "eaon") ==> CommandFrom(raw) == EaOn
  {
    hide EqFold, LowerChar;
    Spelled(raw, "long", 1);
    Spelled(raw, "bull", 1);
    Spelled(raw, "sell", 1);
    Spelled(raw, "bear", 1);
    Spelled(raw, "eaon", 1);
  }

  lemma Command5(raw: string)
    ensures EqFold(raw, "short") ==> CommandFrom(raw) == Sell
    ensures EqFold(raw, "cl+ol") ==> CommandFrom(raw) == CloseLongOpenLong
    ensures EqFold(raw, "cl+os") ==> CommandFrom(raw) == CloseLongOpenShort
    ensures EqFold(raw, "cs+ol") ==> CommandFrom(raw) == CloseShortOpenLong
    ensures EqFold(raw, "cs+os") ==> CommandFrom(raw) == CloseShortOpenShort
    ensures EqFold(raw, "eaoff") ==> CommandFrom(raw) == EaOff
  {
    hide EqFold, LowerChar;
    Spelled(raw, "short", 1); Spelled(raw, "short", 4);
    Spelled(raw, "cl+ol", 1); Spelled(raw, "cl+ol", 4);
    Spelled(raw, "cl+os", 1); Spelled(raw, "cl+os", 4);
    Spelled(raw, "cs+ol", 1); Spelled(raw, "cs+ol", 4);
    Spelled(raw, "cs+os", 1); Spelled(raw, "cs+os", 4);
    Spelled(raw, "eaoff", 1); Spelled(raw, "eaoff", 4);
  }

  lemma Command6(raw: string)
    ensures EqFold(raw, "cls+ol") ==> CommandFrom(raw) == CloseLongShortOpenLong
    ensures EqFold(raw, "cls+os") ==> CommandFrom(raw) == CloseLongShortOpenShort
  {
    hide EqFold, LowerChar;
    Spelled(raw, "cls+ol", 5);
    Spelled(raw, "cls+os", 5);
  }

  lemma Command7(raw: string)
    ensures EqFold(raw, "bullish") ==> CommandFrom(raw) == Buy
    ensures EqFold(raw, "bearish") ==> CommandFrom(raw) == Sell
    ensures EqFold(raw, "buystop") ==> CommandFrom(raw) == BuyStop
  {
    hide EqFold, LowerChar;
    Spelled(raw, "bullish", 2);
    Spelled(raw, "bearish", 2);
    Spelled(raw, "buystop", 2);
  }

  lemma Command8(raw: string)
    ensures EqFold(raw, "buylimit") ==> CommandFrom(raw) == BuyLimit
    ensures EqFold(raw, "sellstop") ==> CommandFrom(raw) == SellStop
    ensures EqFold(raw, "closeall") ==> CommandFrom(raw) == CloseAll
  {
    hide EqFold, LowerChar;
    Spelled(raw, "buylimit", 0);
    Spelled(raw, "sellstop", 0);
    Spelled(raw, "closeall", 0);
  }

  lemma Command9(raw: string)
    ensures EqFold(raw, "selllimit") ==> CommandFrom(raw) == SellLimit
    ensures EqFold(raw, "closelong") ==> CommandFrom(raw) == CloseLong
  {
    hide EqFold, LowerChar;
    Spelled(raw, "selllimit", 0);
    Spelled(raw, "closelong", 0);
  }

  lemma Command10(raw: string)
    ensures EqFold(raw, "cancellong") ==> CommandFrom(raw) == CancelLong
    ensures EqFold(raw, "closeshort") ==> CommandFrom(raw) == CloseShort
  {
    hide EqFold, LowerChar;
    Spelled(raw, "cancellong", 1);
    Spelled(raw, "closeshort", 1);
  }

  lemma Command11(raw: string)
    ensures EqFold(raw, "cancelshort") ==> CommandFrom(raw) == CancelShort
    ensures EqFold(raw, "newsltplong") ==> CommandFrom(raw) == NewSltpLong
  {
    hide EqFold, LowerChar;
    Spelled(raw, "cancelshort", 0);
    Spelled(raw, "newsltplong", 0);
  }

  lemma Command12(raw: string)
    ensures EqFold(raw, "closelongpct") ==> CommandFrom(raw) == CloseLongPct
    ensures EqFold(raw, "closelongvol") ==> CommandFrom(raw) == CloseLongVol
    ensures EqFold(raw, "newsltpshort") ==> CommandFrom(raw) == NewSltpShort
  {
    hide EqFold, LowerChar;
    Spelled(raw, "closelongpct", 9);
    Spelled(raw, "closelongvol", 9);
    Spelled(raw, "newsltpshort", 9);
  }

  lemma Command13(raw: string)
    ensures EqFold(raw, "closeshortpct") ==> CommandFrom(raw) == CloseShortPct
    ensures EqFold(raw, "closeshortvol") ==> CommandFrom(raw) == CloseShortVol
    ensures EqFold(raw, "closealleaoff") ==> CommandFrom(raw) == CloseAllEaOff
  {
    hide EqFold, LowerChar;
    Spelled(raw, "closeshortpct", 10);
    Spelled(raw, "closeshortvol", 10);
    Spelled(raw, "closealleaoff", 10);
  }

  lemma Command14(raw: string)
    ensures EqFold(raw, "closelongshort") ==> CommandFrom(raw) == CloseLongShort
    ensures EqFold(raw, "newsltpbuystop") ==> CommandFrom(raw) == NewSltpBuyStop
  {
    hide EqFold, LowerChar;
    Spelled(raw, "closelongshort", 0);
    Spelled(raw, "newsltpbuystop", 0);
  }

  lemma Command15(raw: string)
    ensures EqFold(raw, "newsltpbuylimit") ==> CommandFrom(raw) == NewSltpBuyLimit
    ensures EqFold(raw, "newsltpsellstop") ==> CommandFrom(raw) == NewSltpSellStop
  {
    hide EqFold, LowerChar;
    Spelled(raw, "newsltpbuylimit", 7);
    Spelled(raw, "newsltpsellstop", 7);
  }

  lemma Command16(raw: string)
    ensures EqFold(raw, "newsltpselllimit") ==> CommandFrom(raw) == NewSltpSellLimit
  {
    hide EqFold, LowerChar;
    Spelled(raw, "newsltpselllimit", 0);
  }

  lemma Command17(raw: string)
    ensures EqFold(raw, "closelongopenlong") ==> CommandFrom(raw) == CloseLongOpenLong
    ensures EqFold(raw, "cancellongbuystop") ==> CommandFrom(raw) == CancelLongBuyStop
  {
    hide EqFold, LowerChar;
    Spelled(raw, "closelongopenlong", 1);
    Spelled(raw, "cancellongbuystop", 1);
  }

  lemma Command18(raw: string)
    ensures EqFold(raw, "closelongopenshort") ==> CommandFrom(raw) == CloseLongOpenShort
    ensures EqFold(raw, "closeshortopenlong") ==> CommandFrom(raw) == CloseShortOpenLong
    ensures EqFold(raw, "cancellongbuylimit") ==> CommandFrom(raw) == CancelLongBuyLimit
  {
    hide EqFold, LowerChar;
    Spelled(raw, "closelongopenshort", 6);
    Spelled(raw, "closeshortopenlong", 6);
    Spelled(raw, "cancellongbuylimit", 6);
  }

  lemma Command19(raw: string)
    ensures EqFold(raw, "closeshortopenshort") ==> CommandFrom(raw) == CloseShortOpenShort
    ensures EqFold(raw, "cancelshortsellstop") ==> CommandFrom(raw) == CancelShortSellStop
  {
    hide EqFold, LowerChar;
    Spelled(raw, "closeshortopenshort", 1);
    Spelled(raw, "cancelshortsellstop", 1);
  }

  lemma Command20(raw: string)
    ensures EqFold(raw, "cancelshortselllimit") ==> CommandFrom(raw) == CancelShortSellLimit
  {
    hide EqFold, LowerChar;
    Spelled(raw, "cancelshortselllimit", 0);
  }

  lemma Command22(raw: string)
    ensures EqFold(raw, "closelongshortopenlong") ==> CommandFrom(raw) == CloseLongShortOpenLong
  {
    hide EqFold, LowerChar;
    Spelled(raw, "closelongshortopenlong", 0);
  }

  lemma Command23(raw: string)
    ensures EqFold(raw, "closelongshortopenshort") ==> CommandFrom(raw) == CloseLongShortOpenShort
  {
    hide EqFold, LowerChar;
    Spelled(raw, "closelongshortopenshort", 0);
  }

  lemma CommandFound(raw: string)
    ensures CommandFrom(raw) != Invalid ==> Aliased(raw, CommandFrom(raw))
  {
    hide EqFold;
  }

  lemma CommandNamed(raw: string, c: Command)
    requires Aliased(raw, c)
    ensures CommandFrom(raw) == c
  {
    hide EqFold, CommandFrom;
    match c
    case Buy => Command3(raw); Command4(raw); Command7(raw);
    case EaOn => Command4(raw);
    case Sell => Command4(raw); Command5(raw); Command7(raw);
    case EaOff => Command5(raw);
    case CloseLongOpenLong => Command5(raw); Command17(raw);
    case CloseLongOpenShort | CloseShortOpenLong => Command5(raw); Command18(raw);
    case CloseShortOpenShort => Command5(raw); Command19(raw);
    case CloseLongShortOpenLong => Command6(raw); Command22(raw);
    case CloseLongShortOpenShort => Command6(raw); Command23(raw);
    case BuyStop => Command7(raw);
    case BuyLimit | SellStop | CloseAll => Command8(raw);
    case SellLimit | CloseLong => Command9(raw);
    case CancelLong | CloseShort => Command10(raw);
    case CancelShort | NewSltpLong => Command11(raw);
    case CloseLongPct | CloseLongVol | NewSltpShort => Command12(raw);
    case CloseShortPct | CloseShortVol | CloseAllEaOff => Command13(raw);
    case CloseLongShort | NewSltpBuyStop => Command14(raw);
    case NewSltpBuyLimit | NewSltpSellStop => Command15(raw);
    case NewSltpSellLimit => Command16(raw);
    case CancelLongBuyStop => Command17(raw);
    case CancelLongBuyLimit => Command18(raw);
    case CancelShortSellStop => Command19(raw);
    case CancelShortSellLimit => Command20(raw);
  }

  /** A word is looked up as a command exactly when it is one of the command's words. */
  lemma CommandIff(raw: string, c: Command)
    requires c != Invalid
    ensures CommandFrom(raw) == c <==> Aliased(raw, c)
  {
    hide CommandFrom, Aliased;
    CommandFound(raw);
    if Aliased(raw, c) { CommandNamed(raw, c); }
  }

  // ---------------------------------------------------------------- keys

  lemma Key2(key: string)
    ensures EqFold(key, "sl") ==> KindFrom(key) == Sl
    ensures EqFold(key, "tp") ==> KindFrom(key) == Tp
  {
    hide EqFold, LowerChar;
    Spelled(key, "sl", 0);
    Spelled(key, "tp", 0);
  }

  lemma Key4(key: string)
    ensures EqFold(key, "risk") ==> KindFrom(key) == Risk
  {
    hide EqFold, LowerChar;
    Spelled(key, "risk", 0);
  }

  lemma Key5(key: string)
    ensures EqFold(key, "price") ==> KindFrom(key) == EntryPrice
  {
    hide EqFold, LowerChar;
    Spelled(key, "price", 0);
  }

  lemma Key6(key: string)
    ensures EqFold(key, "sl_pct") ==> KindFrom(key) == SlPct
    ensures EqFold(key, "tp_pct") ==> KindFrom(key) == TpPct
    ensures EqFold(key, "secret") ==> KindFrom(key) == Secret
    ensures EqFold(key, "spread") ==> KindFrom(key) == Spread
  {
    hide EqFold, LowerChar;
    Spelled(key, "sl_pct", 0); Spelled(key, "sl_pct", 1);
    Spelled(key, "tp_pct", 0); Spelled(key, "tp_pct", 1);
    Spelled(key, "secret", 0); Spelled(key, "secret", 1);
    Spelled(key, "spread", 0); Spelled(key, "spread", 1);
  }

  lemma Key7(key: string)
    ensures EqFold(key, "sl_pips") ==> KindFrom(key) == SlPips
    ensures EqFold(key, "tp_pips") ==> KindFrom(key) == TpPips
    ensures EqFold(key, "pending") ==> KindFrom(key) == Pending
    ensures EqFold(key, "comment") ==> KindFrom(key) == Comment
  {
    hide EqFold, LowerChar;
    Spelled(key, "sl_pips", 0);
    Spelled(key, "tp_pips", 0);
    Spelled(key, "pending", 0);
    Spelled(key, "comment", 0);
  }

  lemma Key8(key: string)
    ensures EqFold(key, "vol_lots") ==> KindFrom(key) == VolLots
    ensures EqFold(key, "sl_price") ==> KindFrom(key) == SlPrice
    ensures EqFold(key, "tp_price") ==> KindFrom(key) == TpPrice
    ensures EqFold(key, "atrshift") ==> KindFrom(key) == AtrShift
    ensures EqFold(key, "beoffset") ==> KindFrom(key) == BeOffset
  {
    hide EqFold, LowerChar;
    Spelled(key, "vol_lots", 0);
    Spelled(key, "sl_price", 0);
    Spelled(key, "tp_price", 0);
    Spelled(key, "atrshift", 0);
    Spelled(key, "beoffset", 0);
  }

  lemma Key9(key: string)
    ensures EqFold(key, "entry_pct") ==> KindFrom(key) == EntryPct
    ensures EqFold(key, "trailtrig") ==> KindFrom(key) == TrailTrigger
    ensures EqFold(key, "traildist") ==> KindFrom(key) == TrailDistance
    ensures EqFold(key, "trailstep") ==> KindFrom(key) == TrailStep
    ensures EqFold(key, "atrperiod") ==> KindFrom(key) == AtrPeriod
    ensures EqFold(key, "betrigger") ==> KindFrom(key) == BeTrigger
    ensures EqFold(key, "accfilter") ==> KindFrom(key) == AccountFilter
  {
    hide EqFold, LowerChar;
    Spelled(key, "entry_pct", 5);
    Spelled(key, "trailtrig", 5);
    Spelled(key, "traildist", 5);
    Spelled(key, "trailstep", 5);
    Spelled(key, "atrperiod", 5);
    Spelled(key, "betrigger", 5);
    Spelled(key, "accfilter", 5);
  }

  lemma Key10(key: string)
    ensures EqFold(key, "vol_dollar") ==> KindFrom(key) == VolDollar
    ensures EqFold(key, "entry_pips") ==> KindFrom(key) == EntryPips
    ensures EqFold(key, "atrtrigger") ==> KindFrom(key) == AtrTrigger
  {
    hide EqFold, LowerChar;
    Spelled(key, "vol_dollar", 0);
    Spelled(key, "entry_pips", 0);
    Spelled(key, "atrtrigger", 0);
  }

  lemma Key11(key: string)
    ensures EqFold(key, "entry_price") ==> KindFrom(key) == EntryPrice
  {
    hide EqFold, LowerChar;
    Spelled(key, "entry_price", 0);
  }

  lemma Key12(key: string)
    ensures EqFold(key, "atrtimeframe") ==> KindFrom(key) == AtrTimeframe
  {
    hide EqFold, LowerChar;
    Spelled(key, "atrtimeframe", 0);
  }

  lemma Key13(key: string)
    ensures EqFold(key, "atrmultiplier") ==> KindFrom(key) == AtrMultiplier
  {
    hide EqFold, LowerChar;
    Spelled(key, "atrmultiplier", 0);
  }

  lemma Key15(key: string)
    ensures EqFold(key, "vol_pct_eq_loss") ==> KindFrom(key) == VolPctEquityLoss
  {
    hide EqFold, LowerChar;
    Spelled(key, "vol_pct_eq_loss", 0);
  }

  lemma Key16(key: string)
    ensures EqFold(key, "vol_pct_bal_loss") ==> KindFrom(key) == VolPctBalanceLoss
  {
    hide EqFold, LowerChar;
    Spelled(key, "vol_pct_bal_loss", 0);
  }

  lemma Key18(key: string)
    ensures EqFold(key, "vol_pct_bal_margin") ==> KindFrom(key) == VolPctBalanceMargin
  {
    hide EqFold, LowerChar;
    Spelled(key, "vol_pct_bal_margin", 0);
  }

  lemma KeyFound(key: string)
    ensures KindFrom(key) != Unknown ==> Keyed(key, KindFrom(key))
  {
    hide EqFold;
  }

  lemma KeyNamed(key: string, k: ParamKind)
    requires Keyed(key, k)
    ensures KindFrom(key) == k
  {
    hide EqFold, KindFrom;
    match k
    case Sl | Tp => Key2(key);
    case Risk => Key4(key);
    case EntryPrice => Key5(key); Key11(key);
    case SlPct | TpPct | Secret | Spread => Key6(key);
    case SlPips | TpPips | Pending | Comment => Key7(key);
    case VolLots | SlPrice | TpPrice | AtrShift | BeOffset => Key8(key);
    case EntryPct | TrailTrigger | TrailDistance | TrailStep | AtrPeriod | BeTrigger | AccountFilter => Key9(key);
    case VolDollar | EntryPips | AtrTrigger => Key10(key);
    case AtrTimeframe => Key12(key);
    case AtrMultiplier => Key13(key);
    case VolPctEquityLoss => Key15(key);
    case VolPctBalanceLoss => Key16(key);
    case VolPctBalanceMargin => Key18(key);
  }

  /** A key is looked up as a parameter exactly when it is one of the parameter's keys. */
  lemma KeyIff(key: string, k: ParamKind)
    requires k != Unknown
    ensures KindFrom(key) == k <==> Keyed(key, k)
  {
    hide KindFrom, Keyed;
    KeyFound(key);
    if Keyed(key, k) { KeyNamed(key, k); }
  }
}

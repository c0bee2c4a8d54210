/**
 The "Option 1" rule: the predictor's decision (apps/ml-predictor/xgb_predictor.py)
 and ingress's choice of a command (apps/ingress/internal/ingress/ml.go). The
 model's score is any real.
 */
module Option1 {
  import opened Prelude
  import opened WebhookTables

  datatype Side = Long | Short

  function Opposite(s: Side): (r: Side) {
    if s == Long then Short else Long
  }

  // ---------------------------------------------------------------- predictor

  datatype Summary = OpenLong | OpenShort | FlipLong | FlipShort | CloseOnly | Nothing

  datatype Decision = Decision(shouldClose: bool, shouldOpen: bool, openDirection: Option<Side>, summary: Summary,
                               error: bool)

  const NO_DECISION := Decision(false, false, None, Nothing, true)

  function SideOf(direction: int): (s: Side) {
    if direction == 1 then Long else Short
  }

  /** What `predict` decides. `score` is absent when the features cannot be scored. */
  function Decide(direction: int, score: Option<real>, threshold: real, position: Option<Side>): (d: Decision) {
    if (direction != 1 && direction != -1) || score.None? then NO_DECISION
    else
      var side := SideOf(direction);
      var close := position == Some(Opposite(side));
      var open := position != Some(side) && score.value > threshold;
      Decision(close, open, if open then Some(side) else None,
               if close && open then (if side == Long then FlipLong else FlipShort)
               else if close then CloseOnly
               else if open then (if side == Long then OpenLong else OpenShort)
               else Nothing,
               false)
  }

  /** What the rule promises: a signal with a direction and a score opens its side exactly when that side is not
      held and the score passes, and closes exactly when the other side is held; any other decides nothing. */
  lemma DecisionRule(direction: int, score: Option<real>, threshold: real, position: Option<Side>)
    ensures var d := Decide(direction, score, threshold, position);
            var side, other := if direction == 1 then Long else Short, if direction == 1 then Short else Long;
            if (direction == 1 || direction == -1) && score.Some? then
              var passes := score.value > threshold;
              && !d.error
              && (d.shouldOpen <==> passes && position != Some(side))
              && (d.shouldClose <==> position == Some(other))
              && d.openDirection == (if d.shouldOpen then Some(side) else None)
              && (d.summary == CloseOnly <==> position == Some(other) && !passes)
              && (d.summary == FlipLong <==> position == Some(Short) && passes && side == Long)
              && (d.summary == FlipShort <==> position == Some(Long) && passes && side == Short)
              && (d.summary == OpenLong <==> position == None && passes && side == Long)
              && (d.summary == OpenShort <==> position == None && passes && side == Short)
            else
              d.error && !d.shouldOpen && !d.shouldClose && d.openDirection == None && d.summary == Nothing
  {
    if position.Some? {
      assert position.value == Long || position.value == Short;
    }
  }

  /** `XGBPredictor.predict`, filling its result branch by branch. */
  method Predict(direction: int, score: Option<real>, threshold: real, position: Option<Side>) returns (d: Decision)
    ensures d == Decide(direction, score, threshold, position)
    ensures (direction == 1 || direction == -1) && score.Some? ==>
              var side := if direction == 1 then Long else Short;
              (d.shouldOpen <==> score.value > threshold && position != Some(side)) && !d.error
              && (d.shouldClose <==> position.Some? && position.value != side)
              && (d.summary == CloseOnly <==> d.shouldClose && score.value <= threshold)
  {
    d := Decision(false, false, None, Nothing, false);
    if direction != 1 && direction != -1 { return d.(error := true); }
    var side := if direction == 1 then Long else Short;
    if score.None? { return d.(error := true); }
    var filterPass := score.value > threshold;
    if position == Some(Long) && side == Short {
      d := d.(shouldClose := true);
    } else if position == Some(Short) && side == Long {
      d := d.(shouldClose := true);
    }
    assert position.None? || position.value == side || position.value == Opposite(side);
    var willBeFlat := position == None || d.shouldClose;
    var sameDirection := position == Some(side);
    if sameDirection {
    } else if willBeFlat && filterPass {
      d := d.(shouldOpen := true, openDirection := Some(side));
    }
    if d.shouldClose && d.shouldOpen {
      d := d.(summary := if side == Long then FlipLong else FlipShort);
    } else if d.shouldClose {
      d := d.(summary := CloseOnly);
    } else if d.shouldOpen {
      d := d.(summary := if side == Long then OpenLong else OpenShort);
    }
  }

  // ---------------------------------------------------------------- ingress

  /** `mapDecisionToCommand`: no command means nothing is published. */
  function CommandFor(summary: Summary, position: Option<Side>): (c: Option<Command>) {
    match summary
    case OpenLong => Some(Buy)
    case OpenShort => Some(Sell)
    case FlipLong => Some(CloseShortOpenLong)
    case FlipShort => Some(CloseLongOpenShort)
    case CloseOnly =>
      (match position {
         case Some(Long) => Some(CloseLong)
         case Some(Short) => Some(CloseShort)
         case None => None
       })
    case Nothing => None
  }

  /** `mapActionToCommand`. */
  function OwnAction(side: Side): (c: Command) {
    if side == Short then Sell else Buy
  }

  /** What `webhookML` publishes: the model's command when enforcing, else the
      caller's own action; a predictor that fails is passed over. */
  function Published(enforce: bool, side: Side, d: Decision, position: Option<Side>): (c: Option<Command>) {
    if d.error || !enforce then Some(OwnAction(side)) else CommandFor(d.summary, position)
  }

  /** What is published. In shadow mode, and when no score could be had, the caller's own action. In enforce mode:
      from flat the side that passes; against the position a flip that passes, else its close; else nothing. */
  lemma PublishedRule(enforce: bool, direction: int, score: Option<real>, threshold: real, position: Option<Side>)
    requires direction == 1 || direction == -1
    ensures var side := if direction == 1 then Long else Short;
            var c := Published(enforce, side, Decide(direction, score, threshold, position), position);
            if !enforce || score.None? then c == Some(if direction == 1 then Buy else Sell)
            else
              var passes := score.value > threshold;
              && (position == None ==> c == if !passes then None else Some(if side == Long then Buy else Sell))
              && (position == Some(side) ==> c == None)
              && (position == Some(Long) && side == Short ==>
                c == Some(if passes then CloseLongOpenShort else CloseLong))
              && (position == Some(Short) && side == Long ==>
                c == Some(if passes then CloseShortOpenLong else CloseShort))
  {
  }
}

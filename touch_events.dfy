/** The semantic touch events that the touch handler raises towards the
    cross-platform view, the record of what the consumer was shown, and the
    set of touches that this record makes active. */
module TouchEvents {

  /** The four actions the handler reports (SKTouchAction). */
  datatype TouchAction = Pressed | Moved | Released | Cancelled

  /** The part of an SKTouchEventArgs that the model keeps: the touch id,
      the action and whether the finger is still in contact. The location is
      not modelled. */
  datatype TouchEvent = TouchEvent(id: int, action: TouchAction, inContact: bool)

  /** One call of the consumer: the event it was shown and the value of
      `Handled` it left in the arguments. */
  datatype Delivery = Delivery(event: TouchEvent, handled: bool)

  /** The consumer of touch events, seen as an oracle: for each event it
      decides whether to mark it handled. */
  type Consumer = TouchEvent -> bool

  predicate IsLift(action: TouchAction) {
    action == Released || action == Cancelled
  }

  function Deliver(e: TouchEvent, handled: Consumer): Delivery {
    Delivery(e, handled(e))
  }

  /** The deliveries made when every touch of `batch`, in order, is reported
      with the same action and contact flag. */
  function Deliveries(batch: seq<int>, action: TouchAction, inContact: bool, handled: Consumer): (r: seq<Delivery>)
    ensures |r| == |batch|
  {
    seq(|batch|, i requires 0 <= i < |batch| => Deliver(TouchEvent(batch[i], action, inContact), handled))
  }

  /** The touches of `batch` whose Pressed event the consumer accepts. */
  function AcceptedPresses(batch: seq<int>, handled: Consumer): set<int> {
    set t | t in batch && handled(TouchEvent(t, Pressed, true))
  }

  /** The touches a log of deliveries leaves active: an accepted press makes
      its touch active, a release or a cancellation makes it inactive, and
      moves and rejected presses change nothing. */
  function Active(log: seq<Delivery>): set<int> {
    if log == [] then {}
    else
      var before := Active(log[..|log| - 1]);
      var d := log[|log| - 1];
      if d.event.action == Pressed && d.handled then before + {d.event.id}
      else if IsLift(d.event.action) then before - {d.event.id}
      else before
  }

  predicate IsAcceptedPressOf(d: Delivery, t: int) {
    d.event.id == t && d.event.action == Pressed && d.handled
  }

  predicate IsLiftOf(d: Delivery, t: int) {
    d.event.id == t && IsLift(d.event.action)
  }

  /** Some accepted press of `t` in `log` is followed by no release or
      cancellation of `t`. */
  ghost predicate PressedSinceLift(log: seq<Delivery>, t: int) {
    exists i :: 0 <= i < |log| && IsAcceptedPressOf(log[i], t) && NotLiftedAfter(log, i, t)
  }

  ghost predicate NotLiftedAfter(log: seq<Delivery>, i: int, t: int) {
    forall j :: 0 <= j < |log| && i < j ==> !IsLiftOf(log[j], t)
  }

  /** A touch is active exactly between an accepted press and the next
      release or cancellation of it. */
  lemma {:induction false} ActiveIffPressedSinceLift(log: seq<Delivery>, t: int)
    ensures t in Active(log) <==> PressedSinceLift(log, t)
  {
    if log != [] {
      var p := log[..|log| - 1];
      var d := log[|log| - 1];
      ActiveIffPressedSinceLift(p, t);
      if IsAcceptedPressOf(d, t) {
        assert NotLiftedAfter(log, |log| - 1, t);
      } else if IsLiftOf(d, t) {
        forall i | 0 <= i < |log| && IsAcceptedPressOf(log[i], t) ensures !NotLiftedAfter(log, i, t) {
          assert IsLiftOf(log[|log| - 1], t);
        }
      } else {
        assert t in Active(log) <==> t in Active(p);
        if PressedSinceLift(p, t) {
          var i :| 0 <= i < |p| && IsAcceptedPressOf(p[i], t) && NotLiftedAfter(p, i, t);
          assert log[i] == p[i];
          forall j | i < j < |log| ensures !IsLiftOf(log[j], t) {
            if j < |p| { assert log[j] == p[j]; }
          }
          assert NotLiftedAfter(log, i, t);
        }
        if PressedSinceLift(log, t) {
          var i :| 0 <= i < |log| && IsAcceptedPressOf(log[i], t) && NotLiftedAfter(log, i, t);
          assert i < |p|;
          assert p[i] == log[i];
          forall j | i < j < |p| ensures !IsLiftOf(p[j], t) {
            assert p[j] == log[j];
          }
          assert NotLiftedAfter(p, i, t);
        }
      }
    }
  }

  /** Splitting the last touch off a batch splits its deliveries the same way. */
  lemma DeliveriesSnoc(log: seq<Delivery>, batch: seq<int>, action: TouchAction, inContact: bool, handled: Consumer)
    requires batch != []
    ensures var all := log + Deliveries(batch, action, inContact, handled);
            all[..|all| - 1] == log + Deliveries(batch[..|batch| - 1], action, inContact, handled)
            && all[|all| - 1] == Deliver(TouchEvent(batch[|batch| - 1], action, inContact), handled)
  {
  }

  /** Reporting one more touch appends one delivery. */
  lemma DeliveriesAppend(batch: seq<int>, t: int, action: TouchAction, inContact: bool, handled: Consumer)
    ensures Deliveries(batch + [t], action, inContact, handled)
            == Deliveries(batch, action, inContact, handled) + [Deliver(TouchEvent(t, action, inContact), handled)]
  {
    var e := Deliver(TouchEvent(t, action, inContact), handled);
    assert Deliveries(batch + [t], action, inContact, handled) == Deliveries(batch, action, inContact, handled) + [e];
  }

  /** One more touch in a batch is one more accepted press exactly when
      the consumer handles its press. */
  lemma AcceptedPressesAppend(batch: seq<int>, t: int, handled: Consumer)
    ensures AcceptedPresses(batch + [t], handled)
            == AcceptedPresses(batch, handled) + (if handled(TouchEvent(t, Pressed, true)) then {t} else {})
  {
  }

  /** Reporting a batch of presses activates exactly the accepted ones. */
  lemma {:induction false} ActiveAfterPresses(log: seq<Delivery>, batch: seq<int>, handled: Consumer)
    ensures Active(log + Deliveries(batch, Pressed, true, handled)) == Active(log) + AcceptedPresses(batch, handled)
  {
    if batch == [] {
      assert log + Deliveries(batch, Pressed, true, handled) == log;
    } else {
      var front := batch[..|batch| - 1];
      var t := batch[|batch| - 1];
      assert batch == front + [t];
      DeliveriesSnoc(log, batch, Pressed, true, handled);
      ActiveAfterPresses(log, front, handled);
      if handled(TouchEvent(t, Pressed, true)) {
        assert AcceptedPresses(batch, handled) == AcceptedPresses(front, handled) + {t};
      } else {
        assert AcceptedPresses(batch, handled) == AcceptedPresses(front, handled);
      }
    }
  }

  /** Reporting a batch of moves leaves the active touches as they were. */
  lemma {:induction false} ActiveAfterMoves(log: seq<Delivery>, batch: seq<int>, handled: Consumer)
    ensures Active(log + Deliveries(batch, Moved, true, handled)) == Active(log)
  {
    if batch == [] {
      assert log + Deliveries(batch, Moved, true, handled) == log;
    } else {
      DeliveriesSnoc(log, batch, Moved, true, handled);
      ActiveAfterMoves(log, batch[..|batch| - 1], handled);
    }
  }

  /** Reporting a batch of releases or cancellations deactivates exactly the
      touches of the batch. */
  lemma {:induction false} ActiveAfterLifts(log: seq<Delivery>, batch: seq<int>, action: TouchAction, handled: Consumer)
    requires IsLift(action)
    ensures Active(log + Deliveries(batch, action, false, handled)) == Active(log) - set t | t in batch
  {
    if batch == [] {
      assert log + Deliveries(batch, action, false, handled) == log;
    } else {
      var front := batch[..|batch| - 1];
      var t := batch[|batch| - 1];
      assert batch == front + [t];
      DeliveriesSnoc(log, batch, action, false, handled);
      ActiveAfterLifts(log, front, action, handled);
      assert (set u | u in batch) == (set u | u in front) + {t};
    }
  }
}

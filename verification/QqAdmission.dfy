/**
 QQ admission: at most `ratePerMinute` admissions per session in any 60 seconds, at most `maxConcurrent` events in
 flight. Both tables live in the router and are read and updated without an await in between.
 */
module QqAdmission {
  const WINDOW := 60

  datatype Limits = Limits(ratePerMinute: nat, maxConcurrent: nat)

  datatype Stamp = Stamp(session: string, at: int)

  type Recent = map<string, Stamp>

  function Pruned(recent: Recent, now: int): Recent {
    map event | event in recent && recent[event].at > now - WINDOW :: recent[event]
  }

  function OfSession(recent: Recent, session: string): set<string> {
    set event | event in recent && recent[event].session == session
  }

  predicate SlotFree(inflight: set<string>, event: string, limits: Limits) {
    event !in inflight && |inflight| < limits.maxConcurrent
  }

  datatype Decision = Decision(admitted: bool, counted: bool)

  /** The decision once old entries are gone; a known event is a replay and is not rated again. */
  function Decide(
    recent: Recent, inflight: set<string>, event: string, session: string, replay: bool, limits: Limits): Decision
  {
    var again := replay || event in recent;
    if !SlotFree(inflight, event, limits) || (!again && |OfSession(recent, session)| >= limits.ratePerMinute)
    then Decision(false, false)
    else Decision(true, !again)
  }

  datatype Entry = Entry(event: string, stamp: Stamp, refunded: bool)

  /** The tables, everything ever admitted and counted, and the last clock reading. */
  datatype State = State(recent: Recent, inflight: set<string>, history: seq<Entry>, last: int)

  datatype Action =
    | Check(event: string, session: string, replay: bool, now: int)
    | Reserve(event: string, session: string, replay: bool, now: int)
    | GiveBack(event: string)
    | Finish(event: string)

  function Refunded(history: seq<Entry>, event: string, stamp: Stamp): seq<Entry> {
    seq(|history|, i requires 0 <= i < |history| =>
      if history[i].event == event && history[i].stamp == stamp then history[i].(refunded := true) else history[i])
  }

  function Step(s: State, a: Action, limits: Limits): State
  {
    match a
    case Check(_, _, _, now) => s.(recent := Pruned(s.recent, now), last := now)
    case Reserve(event, session, replay, now) =>
      var recent := Pruned(s.recent, now);
      var d := Decide(recent, s.inflight, event, session, replay, limits);
      if !d.admitted then s.(recent := recent, last := now)
      else if !d.counted then s.(recent := recent, inflight := s.inflight + {event}, last := now)
      else State(recent[event := Stamp(session, now)], s.inflight + {event},
                 s.history + [Entry(event, Stamp(session, now), false)], now)
    case GiveBack(event) =>
      if event in s.recent
      then s.(recent := s.recent - {event}, history := Refunded(s.history, event, s.recent[event]))
      else s
    case Finish(event) => s.(inflight := s.inflight - {event})
  }

  ghost function SeenOf(recent: Recent, seen: set<string>, session: string): set<string> {
    set e | e in seen && e in recent && recent[e].session == session
  }

  lemma SeenOneMore(recent: Recent, seen: set<string>, e: string, session: string)
    requires e in recent && e !in seen
    ensures |SeenOf(recent, seen + {e}, session)|
         == |SeenOf(recent, seen, session)| + if recent[e].session == session then 1 else 0
  {
    var now, next := SeenOf(recent, seen, session), SeenOf(recent, seen + {e}, session);
    assert next == if recent[e].session == session then now + {e} else now;
  }

  /** The router's two tables. */
  class Admission {
    const limits: Limits
    var recent: Recent
    var inflight: set<string>
    ghost var history: seq<Entry>
    ghost var last: int

    ghost function View(): State
      reads this
    {
      State(recent, inflight, history, last)
    }

    constructor (limits: Limits, ghost now: int)
      ensures this.limits == limits && View() == State(map[], {}, [], now)
    {
      this.limits := limits;
      recent, inflight, history, last := map[], {}, [], now;
    }

    /** _admit_qq for a QQ message. */
    method AdmitQq(event: string, session: string, replay: bool, reserve: bool, now: int)
      returns (admitted: bool, counted: bool)
      modifies this
      ensures Decision(admitted, counted)
              == Decide(Pruned(old(recent), now), old(inflight), event, session, replay, limits)
      ensures View() == Step(old(View()), if reserve then Reserve(event, session, replay, now)
                                          else Check(event, session, replay, now), limits)
    {
      var todo := recent.Keys;
      while todo != {}
        invariant inflight == old(inflight) && history == old(history)
        invariant todo <= recent.Keys <= old(recent).Keys
        invariant forall e :: e in recent ==> recent[e] == old(recent)[e]
        invariant forall e :: e in old(recent) && (e in todo || old(recent)[e].at > now - WINDOW) ==> e in recent
        invariant forall e :: e in recent && e !in todo ==> recent[e].at > now - WINDOW
      {
        var e :| e in todo;
        todo := todo - {e};
        if recent[e].at <= now - WINDOW {
          recent := recent - {e};
        }
      }
      assert recent == Pruned(old(recent), now);
      last := now;
      var again := replay || event in recent;
      var count := CountSession(session);
      if event in inflight || |inflight| >= limits.maxConcurrent || (!again && count >= limits.ratePerMinute) {
        return false, false;
      }
      if reserve {
        inflight := inflight + {event};
        if !again {
          recent := recent[event := Stamp(session, now)];
          history := history + [Entry(event, Stamp(session, now), false)];
        }
      }
      return true, !again;
    }

    method CountSession(session: string) returns (count: nat)
      ensures count == |OfSession(recent, session)|
    {
      count := 0;
      var todo := recent.Keys;
      ghost var seen: set<string> := {};
      while todo != {}
        invariant seen == recent.Keys - todo && todo <= recent.Keys
        invariant count == |SeenOf(recent, seen, session)|
      {
        var e :| e in todo;
        SeenOneMore(recent, seen, e, session);
        if recent[e].session == session {
          count := count + 1;
        }
        todo, seen := todo - {e}, seen + {e};
      }
      assert SeenOf(recent, seen, session) == OfSession(recent, session);
    }

    /** The `finally` of a worker or retry, and the done callback. */
    method Release(event: string)
      modifies this
      ensures View() == Step(old(View()), Finish(event), limits)
    {
      inflight := inflight - {event};
    }

    /** A new process starts with empty tables. */
    method Clear()
      modifies this
      ensures View() == State(map[], {}, [], old(last))
    {
      recent, inflight, history := map[], {}, [];
    }

    /** A replayed turn, or an event that could not be enqueued, gives its rate entry back. */
    method Refund(event: string)
      modifies this
      ensures View() == Step(old(View()), GiveBack(event), limits)
    {
      if event in recent {
        history := Refunded(history, event, recent[event]);
      }
      recent := recent - {event};
    }
  }

  // ---------------------------------------------------------------- the sliding window, over every run

  /** The admissions of one session in the 60 seconds that end at `end`. */
  ghost function InWindow(history: seq<Entry>, session: string, end: int): set<nat> {
    set i: nat | i < |history| && !history[i].refunded && history[i].stamp.session == session
                 && end - WINDOW < history[i].stamp.at <= end
  }

  ghost predicate Current(e: Entry, last: int) {
    !e.refunded && e.stamp.at > last - WINDOW
  }

  ghost predicate Tracked(s: State) {
    && (forall i :: 0 <= i < |s.history| ==> s.history[i].stamp.at <= s.last)
    && (forall i :: 0 <= i < |s.history| && Current(s.history[i], s.last) ==>
          s.history[i].event in s.recent && s.recent[s.history[i].event] == s.history[i].stamp)
    && (forall i, j :: 0 <= i < j < |s.history| && Current(s.history[i], s.last) && Current(s.history[j], s.last) ==>
          s.history[i].event != s.history[j].event)
  }

  ghost predicate RateHolds(history: seq<Entry>, limits: Limits) {
    forall session, end :: |InWindow(history, session, end)| <= limits.ratePerMinute
  }

  ghost predicate Good(s: State, limits: Limits) {
    Tracked(s) && RateHolds(s.history, limits) && |s.inflight| <= limits.maxConcurrent
  }

  /** Entries with different events, all of them listed in `events`, are no more than the events. */
  lemma {:induction false} DistinctEvents(history: seq<Entry>, indices: set<nat>, events: set<string>)
    requires forall i :: i in indices ==> i < |history| && history[i].event in events
    requires forall i, j :: i in indices && j in indices && i != j ==> history[i].event != history[j].event
    ensures |indices| <= |events|
  {
    if indices != {} {
      var i :| i in indices;
      DistinctEvents(history, indices - {i}, events - {history[i].event});
    }
  }

  lemma FewerIsLess(a: set<nat>, b: set<nat>)
    requires a <= b
    ensures |a| <= |b|
  {
    assert b == a + (b - a);
  }

  /** A window that the new admission lies outside of holds what it held. */
  lemma OtherWindowsStay(history: seq<Entry>, e: Entry, who: string, end: int)
    requires who != e.stamp.session || end < e.stamp.at
    ensures InWindow(history + [e], who, end) == InWindow(history, who, end)
  {
  }

  /** Every admission still in the window has its entry in the table. */
  lemma WindowIsTracked(s: State, session: string, now: int)
    requires Tracked(s) && now >= s.last
    ensures |InWindow(s.history, session, now)| <= |OfSession(Pruned(s.recent, now), session)|
  {
    var earlier, kept := InWindow(s.history, session, now), OfSession(Pruned(s.recent, now), session);
    forall i | i in earlier ensures Current(s.history[i], s.last) && s.history[i].event in kept {}
    DistinctEvents(s.history, earlier, kept);
  }

  lemma OwnWindowGrows(history: seq<Entry>, e: Entry, end: int)
    requires end >= e.stamp.at
    ensures |InWindow(history + [e], e.stamp.session, end)| <= |InWindow(history, e.stamp.session, end)| + 1
  {
    var before, after := InWindow(history, e.stamp.session, end), InWindow(history + [e], e.stamp.session, end);
    assert after <= before + {|history|};
    FewerIsLess(after, before + {|history|});
  }

  /** Nothing is stamped later than the last reading, so a later window holds no more of the history. */
  lemma LaterWindowIsSmaller(s: State, session: string, now: int, end: int)
    requires Tracked(s) && s.last <= now <= end
    ensures |InWindow(s.history, session, end)| <= |InWindow(s.history, session, now)|
  {
    FewerIsLess(InWindow(s.history, session, end), InWindow(s.history, session, now));
  }

  lemma CountedKeepsRate(s: State, event: string, session: string, now: int, limits: Limits)
    requires Good(s, limits) && now >= s.last
    requires |OfSession(Pruned(s.recent, now), session)| < limits.ratePerMinute
    ensures RateHolds(s.history + [Entry(event, Stamp(session, now), false)], limits)
  {
    var e := Entry(event, Stamp(session, now), false);
    forall who, end ensures |InWindow(s.history + [e], who, end)| <= limits.ratePerMinute {
      if who != session || end < now {
        OtherWindowsStay(s.history, e, who, end);
      } else {
        OwnWindowGrows(s.history, e, end);
        LaterWindowIsSmaller(s, session, now, end);
        WindowIsTracked(s, session, now);
      }
    }
  }

  lemma RefundKeepsRate(s: State, event: string, limits: Limits)
    requires Good(s, limits) && event in s.recent
    ensures RateHolds(Refunded(s.history, event, s.recent[event]), limits)
  {
    var after := Refunded(s.history, event, s.recent[event]);
    forall session, end ensures |InWindow(after, session, end)| <= limits.ratePerMinute {
      FewerIsLess(InWindow(after, session, end), InWindow(s.history, session, end));
    }
  }

  lemma PruneKeepsTracked(s: State, now: int)
    requires Tracked(s) && now >= s.last
    ensures Tracked(s.(recent := Pruned(s.recent, now), last := now))
  {
  }

  lemma CountKeepsTracked(s: State, event: string, session: string)
    requires Tracked(s) && event !in s.recent
    ensures Tracked(s.(recent := s.recent[event := Stamp(session, s.last)],
                       history := s.history + [Entry(event, Stamp(session, s.last), false)]))
  {
  }

  lemma RefundKeepsTracked(s: State, event: string)
    requires Tracked(s) && event in s.recent
    ensures Tracked(s.(recent := s.recent - {event}, history := Refunded(s.history, event, s.recent[event])))
  {
  }

  lemma StepKeepsGood(s: State, a: Action, limits: Limits)
    requires Good(s, limits)
    requires a.Check? || a.Reserve? ==> a.now >= s.last
    ensures Good(Step(s, a, limits), limits)
  {
    match a
    case Check(_, _, _, now) => PruneKeepsTracked(s, now);
    case Reserve(event, session, replay, now) => ReserveKeepsGood(s, event, session, replay, now, limits);
    case GiveBack(event) =>
      if event in s.recent {
        RefundKeepsRate(s, event, limits);
        RefundKeepsTracked(s, event);
      }
    case Finish(event) => FinishKeepsGood(s, event, limits);
  }

  lemma FinishKeepsGood(s: State, event: string, limits: Limits)
    requires Good(s, limits)
    ensures Good(s.(inflight := s.inflight - {event}), limits)
  {
    assert s.inflight == (s.inflight - {event}) + (s.inflight * {event});
  }

  lemma ReserveKeepsGood(s: State, event: string, session: string, replay: bool, now: int, limits: Limits)
    requires Good(s, limits) && now >= s.last
    ensures Good(Step(s, Reserve(event, session, replay, now), limits), limits)
  {
    PruneKeepsTracked(s, now);
    var pruned := s.(recent := Pruned(s.recent, now), last := now);
    if Decide(pruned.recent, s.inflight, event, session, replay, limits).counted {
      CountedKeepsRate(s, event, session, now, limits);
      CountKeepsTracked(pruned, event, session);
    }
  }

  /** The clock readings of a run never fall. */
  predicate Ordered(actions: seq<Action>, last: int) {
    actions == []
    || (var a := actions[0];
        if a.Check? || a.Reserve? then a.now >= last && Ordered(actions[1..], a.now) else Ordered(actions[1..], last))
  }

  function Run(s: State, actions: seq<Action>, limits: Limits): State
    requires Ordered(actions, s.last)
    decreases |actions|
  {
    if actions == [] then s else Run(Step(s, actions[0], limits), actions[1..], limits)
  }

  /**
   Main result. In every run with a non-decreasing clock, every 60-second window of every session holds at most
   `ratePerMinute` counted and not refunded admissions, and at most `maxConcurrent` events are in flight.
   */
  lemma {:induction false} EveryWindowIsBounded(s: State, actions: seq<Action>, limits: Limits)
    requires Good(s, limits) && Ordered(actions, s.last)
    ensures Good(Run(s, actions, limits), limits)
    decreases |actions|
  {
    if actions != [] {
      StepKeepsGood(s, actions[0], limits);
      EveryWindowIsBounded(Step(s, actions[0], limits), actions[1..], limits);
    }
  }

  lemma StartIsGood(limits: Limits, now: int)
    ensures Good(State(map[], {}, [], now), limits)
  {
    forall session, end ensures |InWindow([], session, end)| <= limits.ratePerMinute {
      assert InWindow([], session, end) == {};
    }
  }

  /** The webhook asks twice and acts only on the first answer. At one clock reading the second answer is the same. */
  lemma CheckThenReserveAgree(s: State, event: string, session: string, replay: bool, now: int, limits: Limits)
    requires now >= s.last
    ensures var checked := Step(s, Check(event, session, replay, now), limits);
            Decide(Pruned(checked.recent, now), checked.inflight, event, session, replay, limits)
            == Decide(Pruned(s.recent, now), s.inflight, event, session, replay, limits)
  {
    assert Pruned(Pruned(s.recent, now), now) == Pruned(s.recent, now);
  }

  /** At two readings it need not be: the second answer is no exactly when a rated event was forgotten in between. */
  lemma LaterReserveRefusedIff(
    s: State, event: string, session: string, replay: bool, now: int, later: int, limits: Limits)
    requires now <= later && Decide(Pruned(s.recent, now), s.inflight, event, session, replay, limits).admitted
    ensures var checked := Step(s, Check(event, session, replay, now), limits);
            !Decide(Pruned(checked.recent, later), checked.inflight, event, session, replay, limits).admitted
            <==> && !replay && event in Pruned(s.recent, now) && event !in Pruned(s.recent, later)
                 && |OfSession(Pruned(s.recent, later), session)| >= limits.ratePerMinute
  {
    assert Pruned(Pruned(s.recent, now), later) == Pruned(s.recent, later);
    var more, fewer := OfSession(Pruned(s.recent, now), session), OfSession(Pruned(s.recent, later), session);
    assert more == fewer + (more - fewer);
  }

  /** Such an event: known at the first reading, and refused at the second. */
  lemma LaterReserveMayDisagree()
    ensures var limits := Limits(1, 9);
            var s := State(map["e" := Stamp("u", 0), "f" := Stamp("u", 30)], {}, [], 30);
            var checked := Step(s, Check("e", "u", false, 59), limits);
            && Decide(Pruned(s.recent, 59), {}, "e", "u", false, limits).admitted
            && !Decide(Pruned(checked.recent, 60), {}, "e", "u", false, limits).admitted
  {
    var recent: Recent := map["e" := Stamp("u", 0), "f" := Stamp("u", 30)];
    assert "e" in Pruned(recent, 59);
    assert Pruned(recent, 60) == map["f" := Stamp("u", 30)];
    assert OfSession(Pruned(Pruned(recent, 59), 60), "u") == {"f"} by {
      assert Pruned(Pruned(recent, 59), 60) == map["f" := Stamp("u", 30)];
    }
  }
}

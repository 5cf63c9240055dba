/** Privacy-preserving product metrics: the allowlisted envelope of an event and the aggregation over a list of them. */
module ProductMetrics {
  import opened Text
  import opened Wrappers

  /** An event as it arrives. Days are integers; `content` stands for every field that is not allowlisted. */
  datatype RawEvent = RawEvent(
    user: Option<string>,
    day: Option<int>,
    kind: string,
    action: Option<string>,
    success: Option<bool>,
    content: string)

  datatype Event = Event(user: string, day: int, kind: string, action: Option<string>, success: Option<bool>)

  const CONVERSATION := "conversation"
  const VOICE := "voice"
  const MEMORY := "memory"
  const PROACTIVE := "proactive"
  const RECOVERY := "recovery"

  // ---------------------------------------------------------------- normalisation

  predicate IsAlphanumeric(c: char) {
    'A' <= c <= 'Z' || 'a' <= c <= 'z' || '0' <= c <= '9'
  }

  predicate IsIdChar(c: char) {
    IsAlphanumeric(c) || c == '.' || c == '_' || c == ':' || c == '-'
  }

  predicate IsPseudonym(id: string) {
    && 1 <= |id| <= 128
    && IsAlphanumeric(id[0])
    && forall i :: 0 <= i < |id| ==> IsIdChar(id[i])
  }

  predicate IsAllowedAction(kind: string, action: Option<string>) {
    if kind == VOICE then action == Some("turn")
    else if kind == MEMORY then action == Some("write") || action == Some("correction")
    else if kind == PROACTIVE then action == Some("prompt") || action == Some("accepted")
    else if kind == RECOVERY then action == Some("attempt")
    else kind == CONVERSATION
  }

  /** The allowlisted envelope, or nothing for an unknown or malformed event. */
  function Normalize(e: RawEvent): Option<Event> {
    if e.user.None? || !IsPseudonym(Strip(e.user.value)) || e.day.None? || !IsAllowedAction(e.kind, e.action)
    then None
    else Some(Event(
      Strip(e.user.value),
      e.day.value,
      e.kind,
      if e.kind == CONVERSATION then None else e.action,
      if e.kind == CONVERSATION || e.kind == RECOVERY then e.success else None))
  }

  /** A stored line, read back as an event. */
  function AsRaw(e: Event): RawEvent {
    RawEvent(Some(e.user), Some(e.day), e.kind, e.action, e.success, "")
  }

  /** Normalising is idempotent: what was accepted is accepted again, unchanged. */
  lemma NormalizeAgain(e: RawEvent)
    requires Normalize(e).Some?
    ensures Normalize(AsRaw(Normalize(e).value)) == Normalize(e)
  {
    var id := Strip(e.user.value);
    assert IsIdChar(id[0]) && IsIdChar(id[|id| - 1]);
  }

  // ---------------------------------------------------------------- what is counted, declared

  datatype Fate = Dropped | Outside | Counted

  function FateOf(e: RawEvent, end: Option<int>): Fate {
    var n := Normalize(e);
    if n.None? then Dropped
    else if end.Some? && n.value.day > end.value then Outside
    else Counted
  }

  function Meeting(events: seq<RawEvent>, end: Option<int>, fate: Fate): set<nat> {
    set i | 0 <= i < |events| && FateOf(events[i], end) == fate
  }

  function Kept(events: seq<RawEvent>, end: Option<int>): seq<Event> {
    if events == [] then []
    else
      var last := events[|events| - 1];
      var front := Kept(events[..|events| - 1], end);
      if FateOf(last, end) == Counted then front + [Normalize(last).value] else front
  }

  datatype Tally = Writes | Corrections | Prompts | Accepts | Attempts | Successes

  predicate Tallies(t: Tally, e: Event) {
    match t
    case Writes => e.kind == MEMORY && e.action == Some("write")
    case Corrections => e.kind == MEMORY && e.action == Some("correction")
    case Prompts => e.kind == PROACTIVE && e.action == Some("prompt")
    case Accepts => e.kind == PROACTIVE && e.action == Some("accepted")
    case Attempts => e.kind == RECOVERY && e.action == Some("attempt")
    case Successes => e.kind == RECOVERY && e.action == Some("attempt") && e.success == Some(true)
  }

  /** The positions of the events a tally counts. */
  function Tallied(t: Tally, valid: seq<Event>): set<nat> {
    set i | 0 <= i < |valid| && Tallies(t, valid[i])
  }

  function ActiveUsers(valid: seq<Event>): set<string> {
    set e | e in valid :: e.user
  }

  function DaysOf(valid: seq<Event>, user: string): set<int> {
    set e | e in valid && e.user == user :: e.day
  }

  function UsersOf(valid: seq<Event>, kind: string): set<string> {
    set e | e in valid && e.kind == kind :: e.user
  }

  function Talks(valid: seq<Event>, user: string): seq<Event> {
    if valid == [] then []
    else
      var last := valid[|valid| - 1];
      var front := Talks(valid[..|valid| - 1], user);
      if last.kind == CONVERSATION && last.user == user then front + [last] else front
  }

  /** Position `i` holds the conversation of the earliest day, and of that day the one listed first. */
  ghost predicate IsFirstTalk(talks: seq<Event>, i: nat) {
    && i < |talks|
    && (forall j :: 0 <= j < i ==> talks[j].day > talks[i].day)
    && (forall j :: i < j < |talks| ==> talks[j].day >= talks[i].day)
  }

  /** The list's minimum by day, keeping the earlier position on a tie. */
  function FirstTalk(talks: seq<Event>): (i: nat)
    requires talks != []
    ensures i < |talks|
  {
    if |talks| == 1 then 0
    else
      var best := FirstTalk(talks[..|talks| - 1]);
      if talks[|talks| - 1].day < talks[best].day then |talks| - 1 else best
  }

  lemma {:induction false} FirstTalkIsFirst(talks: seq<Event>)
    requires talks != []
    ensures IsFirstTalk(talks, FirstTalk(talks))
  {
    if |talks| > 1 {
      var front, best := talks[..|talks| - 1], FirstTalk(talks[..|talks| - 1]);
      FirstTalkIsFirst(front);
      forall j | 0 <= j < |front| ensures talks[j].day >= talks[best].day {
        assert front[j] == talks[j];
      }
      forall j | 0 <= j < best ensures talks[j].day > talks[best].day {
        assert front[j] == talks[j];
      }
    }
  }

  predicate StartedWell(talks: seq<Event>) {
    talks != [] && talks[FirstTalk(talks)].success == Some(true)
  }

  predicate IsFirstDay(days: set<int>, d: int) {
    d in days && forall x :: x in days ==> d <= x
  }

  function LastDay(valid: seq<Event>): Option<int> {
    if valid == [] then None
    else
      var front, day := LastDay(valid[..|valid| - 1]), valid[|valid| - 1].day;
      if front.Some? && front.value >= day then front else Some(day)
  }

  function EffectiveEnd(valid: seq<Event>, end: Option<int>): Option<int> {
    if end.Some? then end else LastDay(valid)
  }

  /** The first active day lies at least the retention period before the end of the observation. */
  ghost predicate IsMature(days: set<int>, retention: int, end: Option<int>) {
    end.Some? && exists d :: IsFirstDay(days, d) && d + retention <= end.value
  }

  ghost predicate CameBack(days: set<int>, retention: int) {
    exists d :: IsFirstDay(days, d) && d + retention in days
  }

  ghost function Eligible(valid: seq<Event>, retention: int, end: Option<int>): set<string> {
    set u | u in ActiveUsers(valid) && IsMature(DaysOf(valid, u), retention, end)
  }

  ghost function Retained(valid: seq<Event>, retention: int, end: Option<int>): set<string> {
    set u | u in Eligible(valid, retention, end) && CameBack(DaysOf(valid, u), retention)
  }

  function FirstSuccesses(valid: seq<Event>): set<string> {
    set u | u in UsersOf(valid, CONVERSATION) && StartedWell(Talks(valid, u))
  }

  /** A rate as its two counters; a rate over an empty denominator is absent. */
  datatype Rate = Rate(numerator: nat, denominator: nat)

  datatype Report = Report(
    eventCount: nat,
    dropped: nat,
    outside: nat,
    activeUsers: nat,
    firstSuccess: Rate,
    retention: Rate,
    immature: int,
    observationEnd: Option<int>,
    voice: Rate,
    corrections: Rate,
    acceptance: Rate,
    recovery: Rate,
    retentionDays: int)

  ghost function Declared(events: seq<RawEvent>, retention: int, end: Option<int>): Report {
    var valid := Kept(events, end);
    var last := EffectiveEnd(valid, end);
    var talkers := |UsersOf(valid, CONVERSATION)|;
    Report(
      |valid|,
      |Meeting(events, end, Dropped)|,
      |Meeting(events, end, Outside)|,
      |ActiveUsers(valid)|,
      Rate(|FirstSuccesses(valid)|, talkers),
      Rate(|Retained(valid, retention, last)|, |Eligible(valid, retention, last)|),
      |ActiveUsers(valid)| - |Eligible(valid, retention, last)|,
      last,
      Rate(|UsersOf(valid, VOICE)|, talkers),
      Rate(|Tallied(Corrections, valid)|, |Tallied(Writes, valid)|),
      Rate(|Tallied(Accepts, valid)|, |Tallied(Prompts, valid)|),
      Rate(|Tallied(Successes, valid)|, |Tallied(Attempts, valid)|),
      retention)
  }

  // ---------------------------------------------------------------- the loops

  lemma MeetingStep(events: seq<RawEvent>, end: Option<int>, fate: Fate, i: nat)
    requires i < |events|
    ensures |Meeting(events[..i + 1], end, fate)|
         == |Meeting(events[..i], end, fate)| + if FateOf(events[i], end) == fate then 1 else 0
  {
    var before, after := Meeting(events[..i], end, fate), Meeting(events[..i + 1], end, fate);
    assert after == if FateOf(events[i], end) == fate then before + {i} else before;
  }

  lemma TalliedStep(t: Tally, valid: seq<Event>, i: nat)
    requires i < |valid|
    ensures |Tallied(t, valid[..i + 1])| == |Tallied(t, valid[..i])| + if Tallies(t, valid[i]) then 1 else 0
  {
    var before, after := Tallied(t, valid[..i]), Tallied(t, valid[..i + 1]);
    assert after == if Tallies(t, valid[i]) then before + {i} else before;
  }

  method Classify(events: seq<RawEvent>, end: Option<int>) returns (valid: seq<Event>, dropped: nat, outside: nat)
    ensures valid == Kept(events, end)
    ensures dropped == |Meeting(events, end, Dropped)| && outside == |Meeting(events, end, Outside)|
  {
    valid, dropped, outside := [], 0, 0;
    for i := 0 to |events|
      invariant valid == Kept(events[..i], end)
      invariant dropped == |Meeting(events[..i], end, Dropped)| && outside == |Meeting(events[..i], end, Outside)|
    {
      MeetingStep(events, end, Dropped, i);
      MeetingStep(events, end, Outside, i);
      assert events[..i + 1][..i] == events[..i];
      var normalized := Normalize(events[i]);
      if normalized.None? {
        dropped := dropped + 1;
      } else if end.Some? && normalized.value.day > end.value {
        outside := outside + 1;
      } else {
        valid := valid + [normalized.value];
      }
    }
    assert events[..|events|] == events;
  }

  datatype Counters = Counters(
    writes: nat, corrections: nat, prompts: nat, accepts: nat, attempts: nat, successes: nat)

  function CountersOf(valid: seq<Event>): Counters {
    Counters(|Tallied(Writes, valid)|, |Tallied(Corrections, valid)|, |Tallied(Prompts, valid)|,
             |Tallied(Accepts, valid)|, |Tallied(Attempts, valid)|, |Tallied(Successes, valid)|)
  }

  lemma CountersStep(valid: seq<Event>, i: nat)
    requires i < |valid|
    ensures var c, e := CountersOf(valid[..i]), valid[i];
            CountersOf(valid[..i + 1]) == Counters(
              c.writes + (if Tallies(Writes, e) then 1 else 0),
              c.corrections + (if Tallies(Corrections, e) then 1 else 0),
              c.prompts + (if Tallies(Prompts, e) then 1 else 0),
              c.accepts + (if Tallies(Accepts, e) then 1 else 0),
              c.attempts + (if Tallies(Attempts, e) then 1 else 0),
              c.successes + (if Tallies(Successes, e) then 1 else 0))
  {
    TalliedStep(Writes, valid, i);
    TalliedStep(Corrections, valid, i);
    TalliedStep(Prompts, valid, i);
    TalliedStep(Accepts, valid, i);
    TalliedStep(Attempts, valid, i);
    TalliedStep(Successes, valid, i);
  }

  method CountActions(valid: seq<Event>) returns (c: Counters)
    ensures c == CountersOf(valid)
  {
    c := Counters(0, 0, 0, 0, 0, 0);
    for i := 0 to |valid|
      invariant c == CountersOf(valid[..i])
    {
      CountersStep(valid, i);
      var event := valid[i];
      if event.kind == MEMORY {
        if event.action == Some("write") {
          c := c.(writes := c.writes + 1);
        } else if event.action == Some("correction") {
          c := c.(corrections := c.corrections + 1);
        }
      } else if event.kind == PROACTIVE {
        if event.action == Some("prompt") {
          c := c.(prompts := c.prompts + 1);
        } else if event.action == Some("accepted") {
          c := c.(accepts := c.accepts + 1);
        }
      } else if event.kind == RECOVERY && event.action == Some("attempt") {
        c := c.(attempts := c.attempts + 1);
        if event.success == Some(true) {
          c := c.(successes := c.successes + 1);
        }
      }
    }
    assert valid[..|valid|] == valid;
  }

  ghost predicate GroupsDays(valid: seq<Event>, days: map<string, set<int>>) {
    days.Keys == ActiveUsers(valid) && forall u :: u in days ==> days[u] == DaysOf(valid, u)
  }

  ghost predicate GroupsTalks(valid: seq<Event>, talks: map<string, seq<Event>>) {
    talks.Keys == UsersOf(valid, CONVERSATION) && forall u :: u in talks ==> talks[u] == Talks(valid, u)
  }

  lemma {:induction false} SilentHasNoTalks(valid: seq<Event>, user: string)
    ensures Talks(valid, user) != [] <==> user in UsersOf(valid, CONVERSATION)
  {
    if valid != [] {
      SilentHasNoTalks(valid[..|valid| - 1], user);
    }
  }

  lemma DaysStep(valid: seq<Event>, i: nat, days: map<string, set<int>>)
    requires i < |valid| && GroupsDays(valid[..i], days)
    ensures var e := valid[i];
            GroupsDays(valid[..i + 1], days[e.user := (if e.user in days then days[e.user] else {}) + {e.day}])
  {
    var e := valid[i];
    assert valid[..i + 1] == valid[..i] + [e];
    assert ActiveUsers(valid[..i + 1]) == ActiveUsers(valid[..i]) + {e.user};
    forall u
      ensures DaysOf(valid[..i + 1], u) == DaysOf(valid[..i], u) + if u == e.user then {e.day} else {}
    {
    }
    if e.user !in days {
      assert DaysOf(valid[..i], e.user) == {};
    }
  }

  lemma TalksStep(valid: seq<Event>, i: nat, talks: map<string, seq<Event>>)
    requires i < |valid| && GroupsTalks(valid[..i], talks)
    ensures var e := valid[i];
            GroupsTalks(valid[..i + 1],
              if e.kind == CONVERSATION
              then talks[e.user := (if e.user in talks then talks[e.user] else []) + [e]] else talks)
  {
    var e := valid[i];
    assert valid[..i + 1][..i] == valid[..i];
    assert valid[..i + 1] == valid[..i] + [e];
    assert UsersOf(valid[..i + 1], CONVERSATION)
        == UsersOf(valid[..i], CONVERSATION) + if e.kind == CONVERSATION then {e.user} else {};
    SilentHasNoTalks(valid[..i], e.user);
  }

  method GroupByUser(valid: seq<Event>)
    returns (days: map<string, set<int>>, talks: map<string, seq<Event>>, voiceUsers: set<string>)
    ensures GroupsDays(valid, days) && GroupsTalks(valid, talks) && voiceUsers == UsersOf(valid, VOICE)
  {
    days, talks, voiceUsers := map[], map[], {};
    for i := 0 to |valid|
      invariant GroupsDays(valid[..i], days)
      invariant GroupsTalks(valid[..i], talks)
      invariant voiceUsers == UsersOf(valid[..i], VOICE)
    {
      DaysStep(valid, i, days);
      TalksStep(valid, i, talks);
      var event := valid[i];
      assert valid[..i + 1] == valid[..i] + [event];
      days := days[event.user := (if event.user in days then days[event.user] else {}) + {event.day}];
      if event.kind == CONVERSATION {
        talks := talks[event.user := (if event.user in talks then talks[event.user] else []) + [event]];
      } else if event.kind == VOICE {
        voiceUsers := voiceUsers + {event.user};
      }
    }
    assert valid[..|valid|] == valid;
  }

  lemma OneMore<T>(a: set<T>, x: T)
    requires x !in a
    ensures |a + {x}| == |a| + 1
  {
  }

  method CountFirstSuccesses(valid: seq<Event>, talks: map<string, seq<Event>>) returns (n: nat)
    requires GroupsTalks(valid, talks)
    ensures n == |FirstSuccesses(valid)|
  {
    var todo := talks.Keys;
    n := 0;
    ghost var found: set<string> := {};
    while todo != {}
      invariant todo <= talks.Keys
      invariant forall u :: u in found <==> u in talks && u !in todo && StartedWell(talks[u])
      invariant n == |found|
    {
      var user :| user in todo;
      if StartedWell(talks[user]) {
        OneMore(found, user);
        found, n := found + {user}, n + 1;
      }
      todo := todo - {user};
    }
    assert found == FirstSuccesses(valid);
  }

  lemma SomeDay(days: set<int>)
    ensures days == {} || exists d :: d in days
  {
    if forall d :: d !in days {
      assert days == {};
    }
  }

  method FirstDay(days: set<int>) returns (first: int)
    requires days != {}
    ensures IsFirstDay(days, first)
  {
    SomeDay(days);
    first :| first in days;
    var todo := days - {first};
    while todo != {}
      invariant first in days && todo <= days
      invariant forall x :: x in days && x !in todo ==> first <= x
    {
      SomeDay(todo);
      var day :| day in todo;
      if day < first {
        first := day;
      }
      todo := todo - {day};
    }
  }

  lemma ActiveHasDays(valid: seq<Event>, user: string)
    requires user in ActiveUsers(valid)
    ensures DaysOf(valid, user) != {}
  {
    var e :| e in valid && e.user == user;
    assert e.day in DaysOf(valid, user);
  }

  lemma FirstDayDecides(days: set<int>, first: int, retention: int, end: Option<int>)
    requires IsFirstDay(days, first)
    ensures IsMature(days, retention, end) <==> end.Some? && first + retention <= end.value
    ensures CameBack(days, retention) <==> first + retention in days
  {
  }

  method FindCohort(valid: seq<Event>, days: map<string, set<int>>, retention: int, end: Option<int>)
    returns (eligible: set<string>, retained: set<string>)
    requires GroupsDays(valid, days)
    ensures eligible == Eligible(valid, retention, end) && retained == Retained(valid, retention, end)
  {
    eligible, retained := {}, {};
    var todo := days.Keys;
    while todo != {}
      invariant todo <= days.Keys
      invariant forall u :: u in eligible <==> u in days && u !in todo && IsMature(days[u], retention, end)
      invariant forall u :: u in retained <==> u in eligible && CameBack(days[u], retention)
    {
      var user :| user in todo;
      ActiveHasDays(valid, user);
      var first := FirstDay(days[user]);
      FirstDayDecides(days[user], first, retention, end);
      if end.Some? && first + retention <= end.value {
        eligible := eligible + {user};
        if first + retention in days[user] {
          retained := retained + {user};
        }
      }
      todo := todo - {user};
    }
  }

  datatype Outcome = Ok(report: Report) | InvalidRetention

  /** Every counter the loops produce is the declared one. */
  method ComputeProductMetrics(events: seq<RawEvent>, retentionDays: int, end: Option<int>) returns (r: Outcome)
    ensures r == if retentionDays < 1 then InvalidRetention else Ok(Declared(events, retentionDays, end))
  {
    if retentionDays < 1 {
      return InvalidRetention;
    }
    var valid, dropped, outside := Classify(events, end);
    var days, talks, voiceUsers := GroupByUser(valid);
    var c := CountActions(valid);
    var firstSuccesses := CountFirstSuccesses(valid, talks);
    var last := EffectiveEnd(valid, end);
    var eligible, retained := FindCohort(valid, days, retentionDays, last);
    r := Ok(Report(
      |valid|, dropped, outside, |days.Keys|,
      Rate(firstSuccesses, |talks.Keys|),
      Rate(|retained|, |eligible|),
      |days.Keys| - |eligible|,
      last,
      Rate(|voiceUsers|, |talks.Keys|),
      Rate(c.corrections, c.writes),
      Rate(c.accepts, c.prompts),
      Rate(c.successes, c.attempts),
      retentionDays));
  }

  // ---------------------------------------------------------------- what the numbers promise

  lemma SubsetIsNoLarger<T>(a: set<T>, b: set<T>)
    requires a <= b
    ensures |a| <= |b|
  {
    assert b == a + (b - a);
    assert |b| == |a| + |b - a|;
  }

  lemma {:induction false} KeptCounts(events: seq<RawEvent>, end: Option<int>)
    ensures |Kept(events, end)| + |Meeting(events, end, Dropped)| + |Meeting(events, end, Outside)| == |events|
  {
    if events != [] {
      var n := |events| - 1;
      KeptCounts(events[..n], end);
      MeetingStep(events, end, Dropped, n);
      MeetingStep(events, end, Outside, n);
      assert events[..n + 1] == events;
    }
  }

  /**
   No event is lost or counted twice; retained users are eligible, eligible users active and first-success users
   talkers; and no success rate exceeds one.
   */
  lemma ReportIsSound(events: seq<RawEvent>, retention: int, end: Option<int>)
    ensures var r := Declared(events, retention, end);
            && r.eventCount + r.dropped + r.outside == |events|
            && r.retention.numerator <= r.retention.denominator <= r.activeUsers
            && r.immature >= 0
            && r.recovery.numerator <= r.recovery.denominator
            && r.firstSuccess.numerator <= r.firstSuccess.denominator <= r.activeUsers
            && r.voice.numerator <= r.activeUsers
  {
    var valid := Kept(events, end);
    var last := EffectiveEnd(valid, end);
    KeptCounts(events, end);
    SubsetIsNoLarger(Retained(valid, retention, last), Eligible(valid, retention, last));
    SubsetIsNoLarger(Eligible(valid, retention, last), ActiveUsers(valid));
    SubsetIsNoLarger(Tallied(Successes, valid), Tallied(Attempts, valid));
    SubsetIsNoLarger(FirstSuccesses(valid), UsersOf(valid, CONVERSATION));
    SubsetIsNoLarger(UsersOf(valid, CONVERSATION), ActiveUsers(valid));
    SubsetIsNoLarger(UsersOf(valid, VOICE), ActiveUsers(valid));
  }

  function AsRaws(valid: seq<Event>): seq<RawEvent> {
    seq(|valid|, i requires 0 <= i < |valid| => AsRaw(valid[i]))
  }

  lemma MeetingSnoc(events: seq<RawEvent>, e: RawEvent, end: Option<int>, fate: Fate)
    ensures |Meeting(events + [e], end, fate)|
         == |Meeting(events, end, fate)| + if FateOf(e, end) == fate then 1 else 0
  {
    var all := events + [e];
    MeetingStep(all, end, fate, |events|);
    assert all[..|events|] == events && all[..|events| + 1] == all;
  }

  lemma KeptSnoc(events: seq<RawEvent>, e: RawEvent, end: Option<int>)
    ensures Kept(events + [e], end)
         == if FateOf(e, end) == Counted then Kept(events, end) + [Normalize(e).value] else Kept(events, end)
  {
    assert (events + [e])[..|events|] == events;
  }

  /** What the log holds of an accepted event meets the same fate as the event itself. */
  lemma SameFate(e: RawEvent, end: Option<int>)
    requires Normalize(e).Some?
    ensures FateOf(AsRaw(Normalize(e).value), end) == FateOf(e, end) != Dropped
  {
    NormalizeAgain(e);
  }

  lemma LogSnoc(events: seq<RawEvent>, e: RawEvent)
    ensures AsRaws(Kept(events + [e], None))
         == if Normalize(e).None? then AsRaws(Kept(events, None))
            else AsRaws(Kept(events, None)) + [AsRaw(Normalize(e).value)]
  {
    KeptSnoc(events, e, None);
  }

  /** Reading a log of accepted events normalises every line again; what comes out is what went in. */
  lemma {:induction false} ReadBackKeeps(events: seq<RawEvent>, end: Option<int>)
    ensures Kept(AsRaws(Kept(events, None)), end) == Kept(events, end)
    ensures |Meeting(AsRaws(Kept(events, None)), end, Dropped)| == 0
    ensures |Meeting(AsRaws(Kept(events, None)), end, Outside)| == |Meeting(events, end, Outside)|
  {
    if events != [] {
      var front, last := events[..|events| - 1], events[|events| - 1];
      assert events == front + [last];
      ReadBackKeeps(front, end);
      LogSnoc(front, last);
      KeptSnoc(front, last, end);
      MeetingSnoc(front, last, end, Outside);
      if Normalize(last).Some? {
        var lines, line := AsRaws(Kept(front, None)), AsRaw(Normalize(last).value);
        SameFate(last, end);
        NormalizeAgain(last);
        KeptSnoc(lines, line, end);
        MeetingSnoc(lines, line, end, Outside);
        MeetingSnoc(lines, line, end, Dropped);
      }
    }
  }

  /** The metrics of the log are those of the raw events, with nothing left to drop. */
  lemma LogMetricsAgree(events: seq<RawEvent>, retention: int, end: Option<int>)
    ensures Declared(AsRaws(Kept(events, None)), retention, end)
         == Declared(events, retention, end).(dropped := 0)
  {
    ReadBackKeeps(events, end);
  }
}

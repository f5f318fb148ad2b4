/** What every run of the router keeps, whatever order the dispatches of a stage move in. */
module AlertRoutingRuns {
  import opened Common
  import opened AlertRouting

  /** Channels an alert has an audit row for, by stage. */
  function Tried(rows: seq<Row>, number: nat, stage: Stage): set<Channel> {
    set i | 0 <= i < |rows| && rows[i].number == number && rows[i].stage == stage :: rows[i].channel
  }

  /** A send that got through: neither failed nor suppressed. */
  predicate Reached(r: Row) { r.status != Failed && r.status != Suppressed }

  ghost predicate PrimarySucceeded(rows: seq<Row>, number: nat) {
    exists i :: 0 <= i < |rows| && rows[i].number == number && rows[i].stage == Primary && Reached(rows[i])
  }

  ghost predicate PrimaryFailed(rows: seq<Row>, number: nat) {
    exists i :: 0 <= i < |rows| && rows[i].number == number && rows[i].stage == Primary && rows[i].status == Failed
  }

  ghost predicate FallbackDue(rows: seq<Row>, number: nat)
  { !PrimarySucceeded(rows, number) && PrimaryFailed(rows, number) }

  // ---------------------------------------------------------------- the invariant

  predicate RowsClocked(rows: seq<Row>, clock: int) {
    && (forall i, j :: 0 <= i < j < |rows| ==> rows[i].createdAt <= rows[j].createdAt)
    && (forall i :: 0 <= i < |rows| ==> rows[i].checkedAt <= rows[i].createdAt <= clock)
  }

  predicate Clocked(s: State) {
    && RowsClocked(s.rows, s.clock)
    && (s.flight.Some? ==> forall c <- s.flight.value.sent :: s.flight.value.sent[c].checkedAt <= s.clock)
  }

  function RuleIdOf(st: Story): Option<string> {
    match st.rule
    case Some(rule) => Some(rule.id)
    case None => None
  }

  /** The window of the story's rule for a primary send, none for a fallback. */
  predicate Windowed(r: Row, st: Story) {
    match st.rule
    case Some(rule) => r.window == if r.stage == Primary then rule.window else 0
    case None => r.window == 0
  }

  predicate RowOk(r: Row, stories: seq<Story>) {
    && r.number < |stories| && r.alert == stories[r.number].alert && Windowed(r, stories[r.number])
    && match r.stage
       case Gate =>
         && r.status == Suppressed && r.channel == ALL && r.ruleId == None && r.attempts == 0
         && r.reason.Some? && r.reason == Gated(stories[r.number])
       case _ =>
         && r.ruleId == RuleIdOf(stories[r.number])
         && (r.stage == Primary ==> r.status != Fallback)
         && (r.stage == Second ==> r.status == Fallback || r.status == Failed)
         && (r.status == Suppressed ==> r.reason == Some(WINDOW_ACTIVE) && r.attempts == 0)
  }

  predicate Belongs(s: State) { forall i :: 0 <= i < |s.rows| ==> RowOk(s.rows[i], s.stories) }

  /** Rows past the gate are suppressed exactly when an earlier row blocked them at their check. */
  predicate Justified(rows: seq<Row>, j: nat)
    requires j < |rows|
  {
    var r := rows[j];
    r.stage != Gate ==> (r.status == Suppressed <==> IsSuppressed(rows[..j], r.alert, r.channel, r.window, r.checkedAt))
  }

  predicate SentOk(s: State, c: Channel)
    requires s.flight.Some? && s.stories != [] && c in s.flight.value.sent
  {
    var st, f := s.stories[|s.stories| - 1], s.flight.value;
    var sent := f.sent[c];
    && sent.answer.status != Fallback
    && (sent.answer.status == Suppressed ==> sent.answer.reason == Some(WINDOW_ACTIVE) && sent.answer.attempts == 0)
    && (sent.answer.status == Suppressed <==> IsSuppressed(s.rows, st.alert, c, WindowOf(st, f.stage), sent.checkedAt))
  }

  predicate Judged(s: State) {
    && (forall j :: 0 <= j < |s.rows| ==> Justified(s.rows, j))
    && (s.flight.Some? ==> s.stories != [] && forall c <- s.flight.value.sent :: SentOk(s, c))
  }

  /** No alert has two rows for one channel. */
  predicate RowsDiffer(rows: seq<Row>) {
    forall i, j :: 0 <= i < j < |rows| && rows[i].number == rows[j].number ==> rows[i].channel != rows[j].channel
  }

  predicate Untouched(rows: seq<Row>, k: nat, c: Channel) {
    forall i :: 0 <= i < |rows| && rows[i].number == k ==> rows[i].channel != c
  }

  /** What is still to record has no row. */
  ghost predicate OneTry(s: State) {
    && RowsDiffer(s.rows)
    && (s.flight.Some? ==>
          s.stories != [] && forall c :: c in s.flight.value.waiting || c in s.flight.value.sent ==>
            Untouched(s.rows, |s.stories| - 1, c))
  }

  /** The rows of an alert that is done: exactly what its story calls for. */
  ghost predicate Settled(rows: seq<Row>, st: Story, k: nat) {
    if Gated(st).Some? then
      Tried(rows, k, Gate) == {ALL} && Tried(rows, k, Primary) == {} && Tried(rows, k, Second) == {}
    else
      && Tried(rows, k, Gate) == {} && Tried(rows, k, Primary) == Elements(PrimaryOf(st))
      && Tried(rows, k, Second) == if FallbackDue(rows, k) then Elements(FallbackOf(st)) else {}
  }

  function Done(s: State): int { if s.flight.Some? then |s.stories| - 1 else |s.stories| }

  ghost predicate SettledUpTo(rows: seq<Row>, stories: seq<Story>, n: int) {
    forall k :: 0 <= k < n && k < |stories| ==> Settled(rows, stories[k], k)
  }

  ghost predicate Told(s: State) {
    && SettledUpTo(s.rows, s.stories, Done(s))
    && (forall i :: 0 <= i < |s.rows| ==> s.rows[i].number < |s.stories|)
  }

  predicate Matching(rows: seq<Row>, k: nat, results: map<Channel, Status>) {
    forall i :: 0 <= i < |rows| && rows[i].number == k && rows[i].stage == Primary ==>
      rows[i].channel in results && results[rows[i].channel] == rows[i].status
  }

  /** The channels of a stage: not checked yet, checked but not recorded, recorded. */
  predicate Split(f: Flight, all: set<Channel>) {
    && f.waiting !! f.sent.Keys && f.waiting !! f.results.Keys && f.sent.Keys !! f.results.Keys
    && f.waiting + f.sent.Keys + f.results.Keys == all
  }

  function ChannelsOf(st: Story, stage: Stage): set<Channel> {
    if stage == Primary then Elements(PrimaryOf(st)) else Elements(FallbackOf(st))
  }

  /** The rows written so far for the alert in flight. */
  ghost predicate Progress(rows: seq<Row>, st: Story, k: nat, stage: Stage, results: map<Channel, Status>) {
    match stage
    case Primary =>
      Tried(rows, k, Primary) == results.Keys && Tried(rows, k, Second) == {} && Matching(rows, k, results)
    case Second =>
      Tried(rows, k, Primary) == Elements(PrimaryOf(st)) && Tried(rows, k, Second) == results.Keys
      && FallbackDue(rows, k)
    case Gate => false
  }

  /** Where the alert in flight stands. */
  ghost predicate InFlight(rows: seq<Row>, st: Story, k: nat, f: Flight) {
    && Gated(st).None? && Tried(rows, k, Gate) == {}
    && Split(f, ChannelsOf(st, f.stage))
    && (forall c <- f.results :: f.results[c] != Fallback)
    && Progress(rows, st, k, f.stage, f.results)
  }

  ghost predicate Flying(s: State) {
    s.flight.Some? ==> s.stories != [] && InFlight(s.rows, s.stories[|s.stories| - 1], |s.stories| - 1, s.flight.value)
  }

  ghost predicate Inv(s: State) {
    Clocked(s) && Belongs(s) && Judged(s) && OneTry(s) && Told(s) && Flying(s)
  }

  const EMPTY := State([], [], None, 0)

  // ---------------------------------------------------------------- appending a row

  lemma TriedSnoc(rows: seq<Row>, r: Row, k: nat, stage: Stage)
    ensures Tried(rows + [r], k, stage) ==
      Tried(rows, k, stage) + if r.number == k && r.stage == stage then {r.channel} else {}
  {
    var all := rows + [r];
    forall c
      ensures c in Tried(all, k, stage) <==>
        c in Tried(rows, k, stage) || (r.number == k && r.stage == stage && c == r.channel)
    {
      if i :| 0 <= i < |rows| && rows[i].number == k && rows[i].stage == stage && rows[i].channel == c {
        assert all[i] == rows[i];
      }
      assert all[|rows|] == r;
    }
  }

  lemma DueSnoc(rows: seq<Row>, r: Row, k: nat)
    requires r.number != k || r.stage != Primary
    ensures FallbackDue(rows + [r], k) <==> FallbackDue(rows, k)
  {
    var all := rows + [r];
    if i :| 0 <= i < |rows| && rows[i].number == k && rows[i].stage == Primary && Reached(rows[i]) {
      assert all[i] == rows[i];
    }
    if i :| 0 <= i < |rows| && rows[i].number == k && rows[i].stage == Primary && rows[i].status == Failed {
      assert all[i] == rows[i];
    }
  }

  lemma SettledSnoc(rows: seq<Row>, r: Row, st: Story, k: nat)
    requires Settled(rows, st, k) && r.number != k
    ensures Settled(rows + [r], st, k)
  {
    TriedSnoc(rows, r, k, Gate);
    TriedSnoc(rows, r, k, Primary);
    TriedSnoc(rows, r, k, Second);
    DueSnoc(rows, r, k);
  }

  lemma JustifiedSnoc(rows: seq<Row>, r: Row)
    requires forall j :: 0 <= j < |rows| ==> Justified(rows, j)
    requires r.stage != Gate ==> (r.status == Suppressed <==>
      IsSuppressed(rows, r.alert, r.channel, r.window, r.checkedAt))
    ensures forall j :: 0 <= j < |rows| + 1 ==> Justified(rows + [r], j)
  {
    forall j | 0 <= j < |rows| + 1
      ensures Justified(rows + [r], j)
    {
      if j < |rows| {
        assert Justified(rows, j);
        assert (rows + [r])[..j] == rows[..j];
      } else {
        assert (rows + [r])[..j] == rows;
      }
    }
  }

  /** A row for another channel does not change what suppresses a channel. */
  lemma SuppressedSnoc(rows: seq<Row>, r: Row, a: Alert, c: Channel, window: int, now: int)
    requires r.channel != c
    ensures IsSuppressed(rows + [r], a, c, window, now) <==> IsSuppressed(rows, a, c, window, now)
  {
    var all := rows + [r];
    if i :| 0 <= i < |rows| && Blocks(rows[i], a, c, window, now) { assert all[i] == rows[i]; }
  }

  lemma NoneTried(rows: seq<Row>, k: nat, stage: Stage)
    requires forall i :: 0 <= i < |rows| ==> rows[i].number < k
    ensures Tried(rows, k, stage) == {}
  {
  }

  lemma InTried(rows: seq<Row>, i: nat)
    requires i < |rows|
    ensures rows[i].channel in Tried(rows, rows[i].number, rows[i].stage)
  {
  }

  // ---------------------------------------------------------------- an alert arrives

  lemma GateSettles(rows: seq<Row>, st: Story, n: nat, now: int)
    requires Gated(st).Some? && forall i :: 0 <= i < |rows| ==> rows[i].number < n
    ensures Settled(rows + [GateRow(st, Gated(st).value, n, now)], st, n)
  {
    var r := GateRow(st, Gated(st).value, n, now);
    NoneTried(rows, n, Gate);
    NoneTried(rows, n, Primary);
    NoneTried(rows, n, Second);
    TriedSnoc(rows, r, n, Gate);
    TriedSnoc(rows, r, n, Primary);
    TriedSnoc(rows, r, n, Second);
  }

  lemma ArriveTold(s: State, alert: Alert, loaded: Option<Stored>, rules: seq<Rule>, now: int)
    requires Told(s) && s.flight.None?
    ensures Told(Next(s, Arrive(alert, loaded, rules), now))
  {
    var st, n := Story(alert, loaded, MatchedRule(rules, alert)), |s.stories|;
    var s' := Next(s, Arrive(alert, loaded, rules), now);
    if Gated(st).Some? {
      forall k | 0 <= k < n
        ensures Settled(s'.rows, s'.stories[k], k)
      {
        assert Settled(s.rows, s.stories[k], k);
        SettledSnoc(s.rows, GateRow(st, Gated(st).value, n, now), s.stories[k], k);
      }
      GateSettles(s.rows, st, n, now);
    }
  }

  lemma ArriveFlying(s: State, alert: Alert, loaded: Option<Stored>, rules: seq<Rule>, now: int)
    requires Told(s) && s.flight.None?
    ensures Flying(Next(s, Arrive(alert, loaded, rules), now))
  {
  }

  lemma ArriveBelongs(s: State, alert: Alert, loaded: Option<Stored>, rules: seq<Rule>, now: int)
    requires Belongs(s) && s.flight.None?
    ensures Belongs(Next(s, Arrive(alert, loaded, rules), now))
  {
  }

  lemma ArriveJudged(s: State, alert: Alert, loaded: Option<Stored>, rules: seq<Rule>, now: int)
    requires Judged(s) && s.flight.None?
    ensures Judged(Next(s, Arrive(alert, loaded, rules), now))
  {
    var st := Story(alert, loaded, MatchedRule(rules, alert));
    if Gated(st).Some? { JustifiedSnoc(s.rows, GateRow(st, Gated(st).value, |s.stories|, now)); }
  }

  lemma ArriveOneTry(s: State, alert: Alert, loaded: Option<Stored>, rules: seq<Rule>, now: int)
    requires OneTry(s) && Told(s) && s.flight.None?
    ensures OneTry(Next(s, Arrive(alert, loaded, rules), now))
  {
  }

  // ---------------------------------------------------------------- a channel is checked

  lemma CheckJudged(s: State, c: Channel, answer: Answer, now: int)
    requires Judged(s) && Enabled(s, Check(c, answer), now)
    ensures Judged(Next(s, Check(c, answer), now))
  {
  }

  lemma CheckKeeps(s: State, c: Channel, answer: Answer, now: int)
    requires Inv(s) && Enabled(s, Check(c, answer), now)
    ensures Inv(Next(s, Check(c, answer), now))
  {
    CheckJudged(s, c, answer, now);
    CheckFlying(s, c, answer, now);
    CheckTold(s, c, answer, now);
  }

  lemma CheckTold(s: State, c: Channel, answer: Answer, now: int)
    requires Told(s) && s.flight.Some? && s.stories != []
    ensures Told(Next(s, Check(c, answer), now))
  {
  }

  lemma CheckSplit(f: Flight, c: Channel, sent: Sent, all: set<Channel>)
    requires Split(f, all) && c in f.waiting
    ensures Split(f.(waiting := f.waiting - {c}, sent := f.sent[c := sent]), all)
  {
  }

  lemma CheckFlying(s: State, c: Channel, answer: Answer, now: int)
    requires Flying(s) && Enabled(s, Check(c, answer), now) && s.stories != []
    ensures Flying(Next(s, Check(c, answer), now))
  {
    var st, f, f' := s.stories[|s.stories| - 1], s.flight.value, Next(s, Check(c, answer), now).flight.value;
    CheckSplit(f, c, f'.sent[c], ChannelsOf(st, f.stage));
  }

  // ---------------------------------------------------------------- a channel is recorded

  lemma RecordRow(s: State, c: Channel, now: int)
    requires Judged(s) && Enabled(s, Record(c), now)
    ensures var st, f := s.stories[|s.stories| - 1], s.flight.value;
      var r := RowOf(st, f.stage, c, f.sent[c], |s.stories| - 1, now);
      && Next(s, Record(c), now).rows == s.rows + [r]
      && (f.stage != Gate ==> RowOk(r, s.stories))
      && (f.stage != Gate ==> (r.status == Suppressed <==>
            IsSuppressed(s.rows, r.alert, r.channel, r.window, r.checkedAt)))
  {
  }

  lemma RecordJudged(s: State, c: Channel, now: int)
    requires Judged(s) && Flying(s) && Enabled(s, Record(c), now)
    ensures Judged(Next(s, Record(c), now))
  {
    var st, f, s' := s.stories[|s.stories| - 1], s.flight.value, Next(s, Record(c), now);
    var r := RowOf(st, f.stage, c, f.sent[c], |s.stories| - 1, now);
    RecordRow(s, c, now);
    JustifiedSnoc(s.rows, r);
    forall d | d in s'.flight.value.sent
      ensures SentOk(s', d)
    {
      RecordSentOk(s, c, now, d);
    }
  }

  lemma RecordSentOk(s: State, c: Channel, now: int, d: Channel)
    requires Enabled(s, Record(c), now) && s.stories != [] && d in s.flight.value.sent && d != c && SentOk(s, d)
    ensures SentOk(Next(s, Record(c), now), d)
  {
    var st, f := s.stories[|s.stories| - 1], s.flight.value;
    var r := RowOf(st, f.stage, c, f.sent[c], |s.stories| - 1, now);
    SuppressedSnoc(s.rows, r, st.alert, d, WindowOf(st, f.stage), f.sent[d].checkedAt);
  }

  lemma RecordOneTry(s: State, c: Channel, now: int)
    requires OneTry(s) && Enabled(s, Record(c), now)
    requires c !in s.flight.value.waiting
    ensures OneTry(Next(s, Record(c), now))
  {
  }

  lemma RecordClocked(s: State, c: Channel, now: int)
    requires Clocked(s) && Enabled(s, Record(c), now) && s.stories != []
    ensures Clocked(Next(s, Record(c), now))
  {
  }

  lemma RecordTold(s: State, c: Channel, now: int)
    requires Told(s) && Flying(s) && Enabled(s, Record(c), now)
    ensures Told(Next(s, Record(c), now))
  {
    var st, f, s' := s.stories[|s.stories| - 1], s.flight.value, Next(s, Record(c), now);
    var r := RowOf(st, f.stage, c, f.sent[c], |s.stories| - 1, now);
    forall k | 0 <= k < Done(s')
      ensures Settled(s'.rows, s'.stories[k], k)
    {
      assert Settled(s.rows, s.stories[k], k);
      SettledSnoc(s.rows, r, s.stories[k], k);
    }
  }

  lemma RecordSplit(f: Flight, c: Channel, status: Status, all: set<Channel>)
    requires Split(f, all) && c in f.sent
    ensures c !in f.results
    ensures Split(f.(sent := f.sent - {c}, results := f.results[c := status]), all)
  {
  }

  lemma RecordProgress(rows: seq<Row>, st: Story, r: Row, k: nat, stage: Stage, results: map<Channel, Status>,
                       status: Status)
    requires Progress(rows, st, k, stage, results) && r.number == k && r.stage == stage && r.channel !in results
    requires stage == Primary ==> r.status == status
    ensures Progress(rows + [r], st, k, stage, results[r.channel := status])
    ensures Tried(rows + [r], k, Gate) == Tried(rows, k, Gate)
  {
    TriedSnoc(rows, r, k, Gate);
    TriedSnoc(rows, r, k, Primary);
    TriedSnoc(rows, r, k, Second);
    assert results[r.channel := status].Keys == results.Keys + {r.channel};
    if stage == Primary {
    } else {
      DueSnoc(rows, r, k);
    }
  }

  lemma RecordFlying(s: State, c: Channel, now: int)
    requires Flying(s) && Judged(s) && Enabled(s, Record(c), now)
    ensures Flying(Next(s, Record(c), now))
  {
    var k := |s.stories| - 1;
    var st, f := s.stories[k], s.flight.value;
    assert SentOk(s, c);
    RecordSplit(f, c, f.sent[c].answer.status, ChannelsOf(st, f.stage));
    RecordProgress(s.rows, st, RowOf(st, f.stage, c, f.sent[c], k, now), k, f.stage, f.results,
                   f.sent[c].answer.status);
  }

  lemma RecordKeeps(s: State, c: Channel, now: int)
    requires Inv(s) && Enabled(s, Record(c), now)
    ensures Inv(Next(s, Record(c), now))
  {
    RecordRow(s, c, now);
    RecordJudged(s, c, now);
    RecordOneTry(s, c, now);
    RecordClocked(s, c, now);
    RecordTold(s, c, now);
    RecordFlying(s, c, now);
  }

  // ---------------------------------------------------------------- a stage concludes

  /** Falling back is due exactly when the primary results were not satisfying. */
  lemma DueIff(rows: seq<Row>, k: nat, results: map<Channel, Status>)
    requires Matching(rows, k, results) && Tried(rows, k, Primary) == results.Keys
    requires forall c <- results :: results[c] != Fallback
    ensures FallbackDue(rows, k) <==> !Satisfied(results)
  {
  }

  /** A stage with nothing left to record either settles its alert or starts the fallbacks. */
  lemma ConcludedOk(rows: seq<Row>, st: Story, k: nat, f: Flight)
    requires InFlight(rows, st, k, f) && f.waiting == {} && f.sent == map[]
    ensures Concluded(st, f).None? ==> Settled(rows, st, k)
    ensures Concluded(st, f).Some? ==> InFlight(rows, st, k, Concluded(st, f).value)
  {
    if f.stage == Primary { DueIff(rows, k, f.results); }
    assert f.results.Keys == ChannelsOf(st, f.stage);
  }

  lemma ConcludeFlying(s: State, now: int)
    requires Flying(s) && Enabled(s, Conclude, now)
    ensures Flying(Next(s, Conclude, now))
  {
    var k := |s.stories| - 1;
    ConcludedOk(s.rows, s.stories[k], k, s.flight.value);
  }

  lemma ConcludeRest(s: State, now: int)
    requires Clocked(s) && Belongs(s) && Judged(s) && Enabled(s, Conclude, now)
    ensures var s' := Next(s, Conclude, now); Clocked(s') && Belongs(s') && Judged(s')
  {
  }

  lemma ConcludeIs(s: State, now: int)
    requires Enabled(s, Conclude, now) && s.stories != []
    ensures var s' := Next(s, Conclude, now);
      s'.rows == s.rows && s'.stories == s.stories && s'.flight == Concluded(s.stories[|s.stories| - 1], s.flight.value)
  {
  }

  lemma OneMoreSettled(rows: seq<Row>, stories: seq<Story>, n: nat)
    requires SettledUpTo(rows, stories, n) && n < |stories| && Settled(rows, stories[n], n)
    ensures SettledUpTo(rows, stories, n + 1)
  {
    forall k | 0 <= k < n + 1 && k < |stories|
      ensures Settled(rows, stories[k], k)
    {
      assert k < n || k == n;
    }
  }

  lemma ConcludeTold(s: State, now: int)
    requires Told(s) && Flying(s) && Enabled(s, Conclude, now)
    ensures Told(Next(s, Conclude, now))
  {
    var last := |s.stories| - 1;
    ConcludeIs(s, now);
    ConcludedOk(s.rows, s.stories[last], last, s.flight.value);
    if Concluded(s.stories[last], s.flight.value).None? { OneMoreSettled(s.rows, s.stories, last); }
  }

  lemma ConcludeKeeps(s: State, now: int)
    requires Inv(s) && Enabled(s, Conclude, now)
    ensures Inv(Next(s, Conclude, now))
  {
    ConcludeRest(s, now);
    ConcludeFlying(s, now);
    ConcludeTold(s, now);
    ConcludeOneTry(s, now);
  }

  lemma ConcludeOneTry(s: State, now: int)
    requires OneTry(s) && Belongs(s) && Flying(s) && Enabled(s, Conclude, now)
    ensures OneTry(Next(s, Conclude, now))
  {
    var k, s' := |s.stories| - 1, Next(s, Conclude, now);
    var st := s.stories[k];
    if s'.flight.Some? {
      forall c | c in s'.flight.value.waiting
        ensures Untouched(s.rows, k, c)
      {
        NotYetTried(s.rows, st, k, c);
      }
    }
  }

  lemma NotYetTried(rows: seq<Row>, st: Story, k: nat, c: Channel)
    requires Tried(rows, k, Gate) == {} && Tried(rows, k, Second) == {}
    requires Tried(rows, k, Primary) <= Elements(PrimaryOf(st))
    requires c in FallbackOf(st)
    ensures Untouched(rows, k, c)
  {
    forall i | 0 <= i < |rows| && rows[i].number == k
      ensures rows[i].channel != c
    {
      InTried(rows, i);
    }
  }

  // ---------------------------------------------------------------- runs

  lemma NextKeeps(s: State, step: Step, now: int)
    requires Inv(s) && Enabled(s, step, now)
    ensures Inv(Next(s, step, now))
  {
    match step {
      case Arrive(alert, loaded, rules) =>
        ArriveTold(s, alert, loaded, rules, now);
        ArriveFlying(s, alert, loaded, rules, now);
        ArriveBelongs(s, alert, loaded, rules, now);
        ArriveJudged(s, alert, loaded, rules, now);
        ArriveOneTry(s, alert, loaded, rules, now);
      case Check(c, answer) => CheckKeeps(s, c, answer, now);
      case Record(c) => RecordKeeps(s, c, now);
      case Conclude => ConcludeKeeps(s, now);
    }
  }

  ghost predicate Legal(s: State, run: seq<(Step, int)>)
    requires s.flight.Some? ==> s.stories != []
    decreases |run|
  {
    run == [] || (Enabled(s, run[0].0, run[0].1) && Legal(Next(s, run[0].0, run[0].1), run[1..]))
  }

  function After(s: State, run: seq<(Step, int)>): State
    requires s.flight.Some? ==> s.stories != []
    decreases |run|
  {
    if run == [] then s else After(Next(s, run[0].0, run[0].1), run[1..])
  }

  lemma {:induction false} RunKeeps(s: State, run: seq<(Step, int)>)
    requires Inv(s) && Legal(s, run)
    ensures Inv(After(s, run))
    decreases |run|
  {
    if run != [] {
      NextKeeps(s, run[0].0, run[0].1);
      RunKeeps(Next(s, run[0].0, run[0].1), run[1..]);
    }
  }

  predicate SameTarget(r: Row, q: Row) {
    && r.alert.owner == q.alert.owner && r.alert.asset == q.alert.asset && r.alert.source == q.alert.source
    && r.channel == q.channel
  }

  /**
   * A primary send under a rule with a window gets through only if more than the window has passed since
   * the last one for its owner, asset, source and channel that did.
   */
  lemma SuccessesAreSpaced(s: State, i: nat, j: nat)
    requires Inv(s) && i < j < |s.rows| && SameTarget(s.rows[i], s.rows[j])
    requires s.rows[j].stage == Primary && Reached(s.rows[j]) && Reached(s.rows[i])
    ensures s.rows[j].number < |s.stories|
    ensures var rule := s.stories[s.rows[j].number].rule;
      rule.Some? && rule.value.window > 0 ==> s.rows[j].createdAt - s.rows[i].createdAt > rule.value.window * 1000
  {
    var r := s.rows[j];
    assert Justified(s.rows, j) && RowOk(r, s.stories);
    assert s.rows[..j][i] == s.rows[i];
    if r.window > 0 && s.rows[i].createdAt >= r.createdAt - r.window * 1000 {
      assert Blocks(s.rows[..j][i], r.alert, r.channel, r.window, r.checkedAt);
    }
  }

  /** The earlier row got through to the same target within the window, counted back from the check of the later one. */
  predicate Suppresses(q: Row, r: Row, window: int) {
    Reached(q) && SameTarget(q, r) && q.createdAt >= r.checkedAt - window * 1000
  }

  /** A send is suppressed exactly when it is primary, its rule has a window and an earlier row lies within it. */
  lemma SuppressedIff(s: State, j: nat)
    requires Inv(s) && j < |s.rows| && s.rows[j].stage != Gate
    ensures s.rows[j].number < |s.stories|
    ensures var rule := s.stories[s.rows[j].number].rule;
      s.rows[j].status == Suppressed <==>
        && s.rows[j].stage == Primary && rule.Some? && rule.value.window > 0
        && exists i :: 0 <= i < j && Suppresses(s.rows[i], s.rows[j], rule.value.window)
  {
    var r := s.rows[j];
    assert Justified(s.rows, j) && RowOk(r, s.stories);
    forall i | 0 <= i < j
      ensures Blocks(s.rows[..j][i], r.alert, r.channel, r.window, r.checkedAt) <==> Suppresses(s.rows[i], r, r.window)
    {
      assert s.rows[..j][i] == s.rows[i];
    }
  }

  /** What the row of a stopped, or of a suppressed, alert says, and under which rule a row was written. */
  lemma RowsSay(s: State, i: nat)
    requires Inv(s) && i < |s.rows|
    ensures var r := s.rows[i];
      && r.number < |s.stories| && r.alert == s.stories[r.number].alert
      && (r.stage == Gate ==>
            r == Row(r.alert, None, "all", Suppressed, Some(if Muted(s.stories[r.number]) then MUTED else BELOW), 0,
                     r.createdAt, r.number, Gate, 0, r.checkedAt))
      && (r.stage != Gate ==> r.ruleId == RuleIdOf(s.stories[r.number]))
      && (r.stage != Gate && r.status == Suppressed ==> r.reason == Some(WINDOW_ACTIVE) && r.attempts == 0)
  {
    assert RowOk(s.rows[i], s.stories);
    GateDecides(s.stories[s.rows[i].number]);
  }

  /** The rows an alert that is done has, read off the alert, the stored preferences and the rule. */
  ghost predicate ToldAsConfigured(rows: seq<Row>, st: Story, k: nat) {
    if Muted(st) || !SevereEnough(st) then
      Tried(rows, k, Gate) == {ALL} && Tried(rows, k, Primary) == {} && Tried(rows, k, Second) == {}
    else
      && Tried(rows, k, Gate) == {}
      && (forall c :: c in Tried(rows, k, Primary) <==> PrimaryTo(st.rule, st.loaded, c))
      && (forall c :: c in Tried(rows, k, Second) <==>
            FallbackDue(rows, k) && FallbackTo(st.rule, c) && !PrimaryTo(st.rule, st.loaded, c))
  }

  lemma SettledAsConfigured(rows: seq<Row>, st: Story, k: nat)
    requires Settled(rows, st, k)
    ensures ToldAsConfigured(rows, st, k)
  {
    GateDecides(st);
    PrimaryLaws(st.rule, st.loaded);
    FallbackOfLaws(st);
  }

  /**
   * The rows of a finished alert: one for the gate that stopped it, or one for each primary
   * channel and, exactly when none of these got through and some failed, one for each fallback
   * channel not tried before. No channel has two, and there is at least one.
   */
  lemma EachAlertTold(s: State, k: nat)
    requires Inv(s) && k < Done(s)
    ensures ToldAsConfigured(s.rows, s.stories[k], k)
    ensures exists i :: 0 <= i < |s.rows| && s.rows[i].number == k
    ensures forall i, j :: 0 <= i < j < |s.rows| && s.rows[i].number == k && s.rows[j].number == k ==>
      s.rows[i].channel != s.rows[j].channel
  {
    var st := s.stories[k];
    assert Settled(s.rows, st, k);
    SettledAsConfigured(s.rows, st, k);
    if Gated(st).Some? {
      assert ALL in Tried(s.rows, k, Gate);
    } else {
      PrimaryLaws(st.rule, st.loaded);
      assert PrimaryOf(st)[0] in Tried(s.rows, k, Primary);
    }
  }

  /** From an empty audit table every run keeps the invariant the results above rest on. */
  lemma EveryRun(run: seq<(Step, int)>)
    requires Legal(EMPTY, run)
    ensures Inv(After(EMPTY, run))
  {
    RunKeeps(EMPTY, run);
  }

  ghost predicate Reachable(s: State) {
    exists run :: Legal(EMPTY, run) && s == After(EMPTY, run)
  }

  lemma {:induction false} RunSnoc(s: State, run: seq<(Step, int)>, step: Step, now: int)
    requires Inv(s) && Legal(s, run) && Enabled(After(s, run), step, now)
    ensures After(s, run).flight.Some? ==> After(s, run).stories != []
    ensures Legal(s, run + [(step, now)]) && After(s, run + [(step, now)]) == Next(After(s, run), step, now)
    decreases |run|
  {
    var longer := run + [(step, now)];
    if run == [] {
      assert longer[1..] == [];
    } else {
      assert longer[0] == run[0] && longer[1..] == run[1..] + [(step, now)];
      NextKeeps(s, run[0].0, run[0].1);
      RunSnoc(Next(s, run[0].0, run[0].1), run[1..], step, now);
    }
  }

  lemma ReachableNext(s: State, step: Step, now: int)
    requires Reachable(s) && Enabled(s, step, now)
    ensures s.flight.Some? ==> s.stories != []
    ensures Reachable(Next(s, step, now))
  {
    var run :| Legal(EMPTY, run) && s == After(EMPTY, run);
    RunSnoc(EMPTY, run, step, now);
  }

  lemma ReachableFlight(s: State)
    requires Reachable(s) && s.flight.Some?
    ensures s.stories != []
  {
    ReachableInv(s);
  }

  lemma ReachableInv(s: State)
    requires Reachable(s)
    ensures Inv(s)
  {
    var run :| Legal(EMPTY, run) && s == After(EMPTY, run);
    EveryRun(run);
  }

  // ---------------------------------------------------------------- every alert finishes

  /** Steps the stage in flight can still take, its conclusion included. */
  function StageLeft(f: Flight): nat { 1 + 2 * |f.waiting| + |f.sent| }

  /** Steps of the stage that may follow. */
  function LaterLeft(stage: Stage, stories: seq<Story>): nat {
    if stage == Primary && stories != [] then 1 + 2 * |Elements(FallbackOf(stories[|stories| - 1]))| else 0
  }

  function Left(s: State): nat {
    if s.flight.None? then 0 else StageLeft(s.flight.value) + LaterLeft(s.flight.value.stage, s.stories)
  }

  lemma MapPlus(m: map<Channel, Sent>, c: Channel, sent: Sent)
    ensures |m[c := sent]| <= |m| + 1
  {
  }

  lemma CheckLeft(f: Flight, c: Channel, sent: Sent)
    requires c in f.waiting
    ensures StageLeft(f.(waiting := f.waiting - {c}, sent := f.sent[c := sent])) < StageLeft(f)
  {
    assert |f.waiting - {c}| == |f.waiting| - 1;
    MapPlus(f.sent, c, sent);
  }

  lemma RecordLeft(f: Flight, c: Channel, results: map<Channel, Status>)
    requires c in f.sent
    ensures StageLeft(f.(sent := f.sent - {c}, results := results)) < StageLeft(f)
  {
  }

  lemma CheckRunsOut(s: State, c: Channel, answer: Answer, now: int)
    requires s.flight.Some? && s.stories != [] && Enabled(s, Check(c, answer), now)
    ensures Left(Next(s, Check(c, answer), now)) < Left(s)
  {
    CheckLeft(s.flight.value, c, Next(s, Check(c, answer), now).flight.value.sent[c]);
  }

  lemma RecordRunsOut(s: State, c: Channel, now: int)
    requires s.flight.Some? && s.stories != [] && Enabled(s, Record(c), now)
    ensures Left(Next(s, Record(c), now)) < Left(s)
  {
    RecordLeft(s.flight.value, c, Next(s, Record(c), now).flight.value.results);
  }

  lemma ConcludeRunsOut(s: State, now: int)
    requires s.flight.Some? && s.stories != [] && Enabled(s, Conclude, now)
    ensures Left(Next(s, Conclude, now)) < Left(s)
  {
    var st := s.stories[|s.stories| - 1];
    assert Next(s, Conclude, now).flight == Concluded(st, s.flight.value);
  }

  /** Every step of an alert in flight brings it closer to its end, and some step is always possible. */
  lemma StepsRunOut(s: State, step: Step, now: int)
    requires s.flight.Some? && s.stories != [] && Enabled(s, step, now)
    ensures Left(Next(s, step, now)) < Left(s)
  {
    match step {
      case Arrive(_, _, _) =>
      case Check(c, answer) => CheckRunsOut(s, c, answer, now);
      case Record(c) => RecordRunsOut(s, c, now);
      case Conclude => ConcludeRunsOut(s, now);
    }
  }

  lemma NeverStuck(s: State)
    requires s.flight.Some?
    ensures exists step :: Enabled(s, step, s.clock)
  {
    var f := s.flight.value;
    if c :| c in f.waiting {
      assert Enabled(s, Check(c, Answer(Failed, None, 0)), s.clock);
    } else if c :| c in f.sent {
      assert Enabled(s, Record(c), s.clock);
    } else {
      assert f.sent == map[];
      assert Enabled(s, Conclude, s.clock);
    }
  }
}

/**
 * backend/src/services/alertWindowing.service.ts: alerts grouped into windows whose
 * statistics are updated incrementally. The configuration is fixed for a run and
 * calls are serialised. Window ids are positions in the table, in place of UUIDs.
 */
module AlertWindowing {
  import opened Common

  type WindowId = nat

  datatype Alert = Alert(
    id: string, ruleId: string, assetCode: string, alertType: string, priority: string,
    triggeredValue: real, threshold: real, occurredAt: int)

  datatype Recent = Recent(id: string, ruleId: string, priority: string, value: real, threshold: real, time: int)

  datatype Stats = Stats(
    firstAlertAt: int, lastAlertAt: int, highestPriority: string, severity: map<string, nat>, recentAlerts: seq<Recent>)

  datatype Status = Open | Closed

  datatype Window = Window(
    assetCode: string, alertType: string, start: int, end: int, alertCount: nat, stats: Stats, status: Status)

  /** A number printed with two decimals. */
  type Hundredths = int

  datatype Summary = Summary(
    windowId: WindowId, severityBreakdown: map<string, nat>, topAlerts: seq<Recent>, totalAlerts: nat,
    windowDurationMinutes: int, avgAlertPerMinute: Hundredths, uniqueTypes: nat)

  /** `log` is the history of assignments, oldest first. */
  datatype State = State(windows: seq<Window>, summaries: seq<Summary>, log: seq<(WindowId, Alert)>)

  datatype Op = AssignToWindow(alert: Alert) | CloseWindow(id: WindowId)

  const EMPTY := State([], [], [])

  const MAX_RECENT := 20
  const MINUTE_MS := 60 * 1000

  const PRIORITY_ORDER: seq<string> := ["low", "medium", "high", "critical"]

  /** `order.indexOf(p)`: -1 for a priority outside the list. */
  function Rank(p: string): int {
    if p == PRIORITY_ORDER[0] then 0
    else if p == PRIORITY_ORDER[1] then 1
    else if p == PRIORITY_ORDER[2] then 2
    else if p == PRIORITY_ORDER[3] then 3
    else -1
  }

  function GetHigherPriority(a: string, b: string): string { if Rank(a) >= Rank(b) then a else b }

  function GetWindowStart(timestamp: int, ms: int): int
    requires ms > 0
  {
    timestamp / ms * ms
  }

  function RecentOf(a: Alert): Recent {
    Recent(a.id, a.ruleId, a.priority, a.triggeredValue, a.threshold, a.occurredAt)
  }

  function BuildInitialStats(a: Alert): Stats {
    Stats(a.occurredAt, a.occurredAt, a.priority, map[a.priority := 1], [RecentOf(a)])
  }

  function MergeAlertIntoStats(s: Stats, a: Alert): Stats {
    var recent := [RecentOf(a)] + s.recentAlerts;
    s.(lastAlertAt := a.occurredAt,
       highestPriority := GetHigherPriority(s.highestPriority, a.priority),
       severity := s.severity[a.priority := (if a.priority in s.severity then s.severity[a.priority] else 0) + 1],
       recentAlerts := if |recent| > MAX_RECENT then recent[..MAX_RECENT] else recent)
  }

  /** The open window an alert belongs to. */
  predicate Receives(w: Window, a: Alert, ms: int)
    requires ms > 0
  {
    w.assetCode == a.assetCode && w.alertType == a.alertType
    && w.start == GetWindowStart(a.occurredAt, ms) && w.status == Open
  }

  /** Position of the first window that receives the alert, or the end of the table. */
  function FindOpen(ws: seq<Window>, a: Alert, ms: int): (i: nat)
    requires ms > 0
    ensures i <= |ws| && (i < |ws| ==> Receives(ws[i], a, ms)) && forall k :: 0 <= k < i ==> !Receives(ws[k], a, ms)
  {
    if ws == [] || Receives(ws[0], a, ms) then 0 else 1 + FindOpen(ws[1..], a, ms)
  }

  /** `count` alerts in `ms` milliseconds, per minute, to the nearest hundredth, and up from the middle. */
  function PerMinute(count: nat, ms: int): Hundredths
    requires ms > 0
  {
    (200 * MINUTE_MS * count + ms) / (2 * ms)
  }

  /** The window an alert opens when none receives it. */
  function NewWindow(a: Alert, ms: int): Window
    requires ms > 0
  {
    var start := GetWindowStart(a.occurredAt, ms);
    Window(a.assetCode, a.alertType, start, start + ms, 1, BuildInitialStats(a), Open)
  }

  function SummaryOf(id: WindowId, w: Window, ms: int): Summary
    requires ms > 0
  {
    Summary(id, w.stats.severity, w.stats.recentAlerts, w.alertCount, ms / MINUTE_MS, PerMinute(w.alertCount, ms),
            |w.stats.severity|)
  }

  function Next(s: State, op: Op, ms: int): State
    requires ms > 0
  {
    match op
    case AssignToWindow(a) =>
      var i := FindOpen(s.windows, a, ms);
      var logged := s.(log := s.log + [(i, a)]);
      if i < |s.windows| then
        var w := s.windows[i];
        logged.(windows := s.windows[i := w.(alertCount := w.alertCount + 1, stats := MergeAlertIntoStats(w.stats, a))])
      else logged.(windows := s.windows + [NewWindow(a, ms)])
    case CloseWindow(id) =>
      if id < |s.windows| then
        var w := s.windows[id].(status := Closed);
        s.(windows := s.windows[id := w], summaries := s.summaries + [SummaryOf(id, w, ms)])
      else s
  }

  // ---------------------------------------------------------------- the slots of the clock

  /** `start` opens slot `k` of the clock, which is cut into slots of `ms` from time zero. */
  predicate Opens(start: int, k: int, ms: int) { start == k * ms }

  predicate InSlot(t: int, k: int, ms: int) { k * ms <= t < k * ms + ms }

  lemma LaterSlot(k: int, l: int, ms: int)
    requires ms > 0
    ensures k < l ==> k * ms + ms <= l * ms
  {
    if k < l { assert (k + 1) * ms <= l * ms; }
  }

  lemma SlotUnique(t: int, k: int, l: int, ms: int)
    requires ms > 0 && InSlot(t, k, ms) && InSlot(t, l, ms)
    ensures k == l
  {
    LaterSlot(k, l, ms);
    LaterSlot(l, k, ms);
  }

  /** A window starts where the one slot its alert lies in opens. */
  lemma StartOpensSlot(t: int, ms: int) returns (k: int)
    requires ms > 0
    ensures InSlot(t, k, ms) && Opens(GetWindowStart(t, ms), k, ms)
  {
    k := t / ms;
  }

  lemma StartIff(t: int, ms: int, k: int)
    requires ms > 0
    ensures InSlot(t, k, ms) <==> Opens(GetWindowStart(t, ms), k, ms)
  {
    var l := StartOpensSlot(t, ms);
    if InSlot(t, k, ms) {
      SlotUnique(t, k, l, ms);
    }
  }

  // ---------------------------------------------------------------- statistics recomputed from the alerts

  function AlertsOf(log: seq<(WindowId, Alert)>, id: WindowId): seq<Alert> {
    if log == [] then []
    else
      var last := log[|log| - 1];
      AlertsOf(log[..|log| - 1], id) + if last.0 == id then [last.1] else []
  }

  function CountPriority(alerts: seq<Alert>, p: string): nat {
    if alerts == [] then 0
    else CountPriority(alerts[..|alerts| - 1], p) + if alerts[|alerts| - 1].priority == p then 1 else 0
  }

  /** Critical comes before high, high before medium, medium before low, and low before anything else. */
  predicate Outranks(p: string, q: string) {
    match p
    case "critical" => q != "critical"
    case "high" => q != "critical" && q != "high"
    case "medium" => q != "critical" && q != "high" && q != "medium"
    case "low" => q != "critical" && q != "high" && q != "medium" && q != "low"
    case _ => false
  }

  lemma RanksIff(p: string, q: string)
    ensures Outranks(p, q) <==> Rank(p) > Rank(q)
  {
  }

  /** `p` is the priority of an alert that outranks all alerts before it and that no alert outranks. */
  ghost predicate IsHighest(p: string, alerts: seq<Alert>) {
    exists k :: 0 <= k < |alerts| && alerts[k].priority == p
                && (forall i :: 0 <= i < |alerts| ==> !Outranks(alerts[i].priority, p))
                && (forall i :: 0 <= i < k ==> Outranks(p, alerts[i].priority))
  }

  predicate Tells(r: Recent, a: Alert) {
    && r.id == a.id && r.ruleId == a.ruleId && r.priority == a.priority
    && r.value == a.triggeredValue && r.threshold == a.threshold && r.time == a.occurredAt
  }

  /** The statistics a fresh pass over all alerts of the window would give. */
  ghost predicate Recomputes(s: Stats, alerts: seq<Alert>) {
    && alerts != []
    && s.firstAlertAt == alerts[0].occurredAt && s.lastAlertAt == alerts[|alerts| - 1].occurredAt
    && IsHighest(s.highestPriority, alerts)
    && (forall p :: p in s.severity <==> CountPriority(alerts, p) > 0)
    && (forall p <- s.severity :: s.severity[p] == CountPriority(alerts, p))
    && |s.recentAlerts| == Min(20, |alerts|)
    && (forall i :: 0 <= i < |s.recentAlerts| ==> Tells(s.recentAlerts[i], alerts[|alerts| - 1 - i]))
  }

  lemma CountSnoc(alerts: seq<Alert>, a: Alert, p: string)
    ensures CountPriority(alerts + [a], p) == CountPriority(alerts, p) + if a.priority == p then 1 else 0
  {
  }

  lemma InitialRecomputes(a: Alert)
    ensures Recomputes(BuildInitialStats(a), [a])
  {
  }

  lemma HighestSnoc(p: string, alerts: seq<Alert>, a: Alert)
    requires IsHighest(p, alerts)
    ensures IsHighest(GetHigherPriority(p, a.priority), alerts + [a])
  {
    var all := alerts + [a];
    var k :| 0 <= k < |alerts| && alerts[k].priority == p
             && (forall i :: 0 <= i < |alerts| ==> !Outranks(alerts[i].priority, p))
             && (forall i :: 0 <= i < k ==> Outranks(p, alerts[i].priority));
    assert all[|alerts|] == a && forall i :: 0 <= i < |alerts| ==> all[i] == alerts[i];
    RanksIff(a.priority, p);
    if Outranks(a.priority, p) {
      forall i | 0 <= i < |alerts|
        ensures Outranks(a.priority, alerts[i].priority)
      {
        RanksIff(alerts[i].priority, p);
        RanksIff(a.priority, alerts[i].priority);
      }
      assert all[|alerts|].priority == a.priority;
    } else {
      assert all[k].priority == p;
    }
  }

  lemma SeveritySnoc(s: Stats, alerts: seq<Alert>, a: Alert)
    requires Recomputes(s, alerts)
    ensures var severity := MergeAlertIntoStats(s, a).severity;
      && (forall p :: p in severity <==> CountPriority(alerts + [a], p) > 0)
      && (forall p <- severity :: severity[p] == CountPriority(alerts + [a], p))
  {
  }

  /** Merging one alert into recomputed statistics gives recomputed statistics. */
  lemma MergeRecomputes(s: Stats, alerts: seq<Alert>, a: Alert)
    requires Recomputes(s, alerts)
    ensures Recomputes(MergeAlertIntoStats(s, a), alerts + [a])
  {
    var all, merged := alerts + [a], MergeAlertIntoStats(s, a);
    HighestSnoc(s.highestPriority, alerts, a);
    SeveritySnoc(s, alerts, a);
    var recent := [RecentOf(a)] + s.recentAlerts;
    forall i | 0 <= i < |merged.recentAlerts|
      ensures Tells(merged.recentAlerts[i], all[|all| - 1 - i])
    {
      assert merged.recentAlerts[i] == recent[i];
      if i > 0 { assert all[|all| - 1 - i] == alerts[|alerts| - 1 - (i - 1)]; }
    }
  }

  // ---------------------------------------------------------------- what a summary says

  /**
   * The printed average is within half a hundredth of the exact one, and above it when the exact
   * one is a multiple of an eighth, which a double holds exactly, between two hundredths.
   */
  predicate NearestRate(average: Hundredths, count: nat, ms: int)
    requires ms > 0
  {
    var error := 2 * (ms * average - 100 * 60000 * count);
    -ms <= error <= ms && (8 * 60000 * count % ms == 0 ==> error != -ms)
  }

  lemma PerMinuteIsNearest(count: nat, ms: int)
    requires ms > 0
    ensures NearestRate(PerMinute(count, ms), count, ms)
  {
    var x, d := 200 * MINUTE_MS * count + ms, 2 * ms;
    assert x == d * (x / d) + x % d && 0 <= x % d < d;
  }

  /** The summary says what its window says. */
  predicate Summarises(m: Summary, w: Window, ms: int)
    requires ms > 0
  {
    && m.severityBreakdown == w.stats.severity && m.uniqueTypes == |w.stats.severity|
    && m.topAlerts == w.stats.recentAlerts && m.totalAlerts == w.alertCount
    && m.windowDurationMinutes == ms / 60000 && NearestRate(m.avgAlertPerMinute, w.alertCount, ms)
  }

  lemma SummaryOfSummarises(id: WindowId, w: Window, ms: int)
    requires ms > 0
    ensures SummaryOf(id, w, ms).windowId == id && Summarises(SummaryOf(id, w, ms), w, ms)
  {
    PerMinuteIsNearest(w.alertCount, ms);
  }

  // ---------------------------------------------------------------- the invariant

  /** The window as its alerts, and only they, account for it. */
  ghost predicate Holds(w: Window, alerts: seq<Alert>, ms: int) {
    && Recomputes(w.stats, alerts) && w.alertCount == |alerts|
    && w.end == w.start + ms && (exists k :: Opens(w.start, k, ms))
    && (forall i :: 0 <= i < |alerts| ==> Belongs(alerts[i], w))
  }

  predicate Belongs(a: Alert, w: Window) {
    a.assetCode == w.assetCode && a.alertType == w.alertType && w.start <= a.occurredAt < w.end
  }

  ghost predicate WindowOk(s: State, id: WindowId, ms: int)
    requires id < |s.windows|
  {
    Holds(s.windows[id], AlertsOf(s.log, id), ms)
  }

  ghost predicate OneOpen(ws: seq<Window>) {
    forall i, j :: 0 <= i < j < |ws| && ws[i].status == Open && ws[j].status == Open ==>
      ws[i].assetCode != ws[j].assetCode || ws[i].alertType != ws[j].alertType || ws[i].start != ws[j].start
  }

  /** The window of a summary is closed for good, and still says what the summary says. */
  ghost predicate SummaryOk(s: State, m: Summary, ms: int)
    requires ms > 0
  {
    && m.windowId < |s.windows| && s.windows[m.windowId].status == Closed
    && Summarises(m, s.windows[m.windowId], ms)
  }

  function CountTotal(ws: seq<Window>): nat {
    if ws == [] then 0 else CountTotal(ws[..|ws| - 1]) + ws[|ws| - 1].alertCount
  }

  ghost predicate Inv(s: State, ms: int)
    requires ms > 0
  {
    && (forall id :: 0 <= id < |s.windows| ==> WindowOk(s, id, ms))
    && (forall id: WindowId :: id >= |s.windows| ==> AlertsOf(s.log, id) == [])
    && OneOpen(s.windows)
    && CountTotal(s.windows) == |s.log|
    && (forall k :: 0 <= k < |s.summaries| ==> SummaryOk(s, s.summaries[k], ms))
  }

  lemma {:induction false} TotalUpdate(ws: seq<Window>, i: nat, w: Window)
    requires i < |ws|
    ensures CountTotal(ws[i := w]) == CountTotal(ws) - ws[i].alertCount + w.alertCount
  {
    var n := |ws| - 1;
    if i < n {
      TotalUpdate(ws[..n], i, w);
      assert ws[i := w][..n] == ws[..n][i := w];
    } else {
      assert ws[i := w][..n] == ws[..n];
    }
  }

  lemma LogSnoc(log: seq<(WindowId, Alert)>, i: WindowId, a: Alert, id: WindowId)
    ensures AlertsOf(log + [(i, a)], id) == if i == id then AlertsOf(log, id) + [a] else AlertsOf(log, id)
  {
  }

  lemma StartBounds(t: int, ms: int)
    requires ms > 0
    ensures GetWindowStart(t, ms) <= t < GetWindowStart(t, ms) + ms
    ensures exists k :: Opens(GetWindowStart(t, ms), k, ms)
  {
    var k := StartOpensSlot(t, ms);
  }

  lemma AddedHolds(w: Window, alerts: seq<Alert>, a: Alert, ms: int)
    requires ms > 0 && Holds(w, alerts, ms) && Receives(w, a, ms)
    ensures Holds(w.(alertCount := w.alertCount + 1, stats := MergeAlertIntoStats(w.stats, a)), alerts + [a], ms)
  {
    StartBounds(a.occurredAt, ms);
    MergeRecomputes(w.stats, alerts, a);
    assert forall k :: 0 <= k < |alerts| ==> Belongs(alerts[k], w);
  }

  lemma NewHolds(a: Alert, ms: int)
    requires ms > 0
    ensures Holds(NewWindow(a, ms), [a], ms)
  {
    StartBounds(a.occurredAt, ms);
    InitialRecomputes(a);
  }

  lemma AssignedOk(s: State, a: Alert, ms: int)
    requires ms > 0 && Inv(s, ms)
    ensures var i := FindOpen(s.windows, a, ms); WindowOk(Next(s, AssignToWindow(a), ms), i, ms)
  {
    var i := FindOpen(s.windows, a, ms);
    LogSnoc(s.log, i, a, i);
    if i < |s.windows| {
      assert WindowOk(s, i, ms);
      AddedHolds(s.windows[i], AlertsOf(s.log, i), a, ms);
    } else {
      NewHolds(a, ms);
      assert AlertsOf(s.log, i) + [a] == [a];
    }
  }

  lemma OthersOk(s: State, a: Alert, ms: int, id: WindowId)
    requires ms > 0 && id < |s.windows| && WindowOk(s, id, ms) && id != FindOpen(s.windows, a, ms)
    ensures WindowOk(Next(s, AssignToWindow(a), ms), id, ms)
  {
    LogSnoc(s.log, FindOpen(s.windows, a, ms), a, id);
  }

  lemma OneOpenAssign(s: State, a: Alert, ms: int)
    requires ms > 0 && OneOpen(s.windows)
    ensures OneOpen(Next(s, AssignToWindow(a), ms).windows)
  {
  }

  lemma TotalAssign(s: State, a: Alert, ms: int)
    requires ms > 0 && CountTotal(s.windows) == |s.log|
    ensures CountTotal(Next(s, AssignToWindow(a), ms).windows) == |s.log| + 1
  {
    var i, ws := FindOpen(s.windows, a, ms), Next(s, AssignToWindow(a), ms).windows;
    if i < |s.windows| {
      TotalUpdate(s.windows, i, ws[i]);
    } else {
      assert ws[..|s.windows|] == s.windows;
    }
  }

  lemma AssignKeeps(s: State, a: Alert, ms: int)
    requires ms > 0 && Inv(s, ms)
    ensures Inv(Next(s, AssignToWindow(a), ms), ms)
  {
    var i, s' := FindOpen(s.windows, a, ms), Next(s, AssignToWindow(a), ms);
    AssignedOk(s, a, ms);
    forall id | 0 <= id < |s'.windows|
      ensures WindowOk(s', id, ms)
    {
      if id != i { OthersOk(s, a, ms, id); }
    }
    forall id: WindowId | id >= |s'.windows|
      ensures AlertsOf(s'.log, id) == []
    {
      LogSnoc(s.log, i, a, id);
    }
    OneOpenAssign(s, a, ms);
    TotalAssign(s, a, ms);
    forall k | 0 <= k < |s'.summaries|
      ensures SummaryOk(s', s'.summaries[k], ms)
    {
      assert SummaryOk(s, s.summaries[k], ms);
    }
  }

  lemma CloseKeeps(s: State, id: WindowId, ms: int)
    requires ms > 0 && Inv(s, ms) && id < |s.windows|
    ensures Inv(Next(s, CloseWindow(id), ms), ms)
  {
    var s' := Next(s, CloseWindow(id), ms);
    TotalUpdate(s.windows, id, s'.windows[id]);
    SummaryOfSummarises(id, s'.windows[id], ms);
    forall k | 0 <= k < |s'.windows|
      ensures WindowOk(s', k, ms)
    {
      assert WindowOk(s, k, ms);
    }
    forall k | 0 <= k < |s'.summaries|
      ensures SummaryOk(s', s'.summaries[k], ms)
    {
      if k < |s.summaries| { assert SummaryOk(s, s.summaries[k], ms); }
    }
  }

  // ---------------------------------------------------------------- runs

  function After(s: State, ops: seq<Op>, ms: int): State
    requires ms > 0
    decreases |ops|
  {
    if ops == [] then s else After(Next(s, ops[0], ms), ops[1..], ms)
  }

  lemma {:induction false} RunKeeps(s: State, ops: seq<Op>, ms: int)
    requires ms > 0 && Inv(s, ms)
    ensures Inv(After(s, ops, ms), ms)
    decreases |ops|
  {
    if ops != [] {
      match ops[0] {
        case AssignToWindow(a) => AssignKeeps(s, a, ms);
        case CloseWindow(id) => if id < |s.windows| { CloseKeeps(s, id, ms); }
      }
      RunKeeps(Next(s, ops[0], ms), ops[1..], ms);
    }
  }

  function Assignments(ops: seq<Op>): nat {
    if ops == [] then 0 else (if ops[0].AssignToWindow? then 1 else 0) + Assignments(ops[1..])
  }

  lemma {:induction false} LogCounts(s: State, ops: seq<Op>, ms: int)
    requires ms > 0
    ensures |After(s, ops, ms).log| == |s.log| + Assignments(ops)
    decreases |ops|
  {
    if ops != [] { LogCounts(Next(s, ops[0], ms), ops[1..], ms); }
  }

  /**
   * In every run the stored statistics of each window are those recomputed from its
   * alerts, every alert lies in its window, one window at most is open per asset, type
   * and start, no alert is counted twice or lost, and summaries never go stale.
   */
  lemma {:induction false} EveryRun(ops: seq<Op>, ms: int)
    requires ms > 0
    ensures Inv(After(EMPTY, ops, ms), ms)
    ensures CountTotal(After(EMPTY, ops, ms).windows) == Assignments(ops)
  {
    assert AlertsOf([], 0) == [];
    RunKeeps(EMPTY, ops, ms);
    LogCounts(EMPTY, ops, ms);
  }

  // ---------------------------------------------------------------- which alerts share a window

  /** One asset and type, and one slot of the clock. */
  predicate Together(a: Alert, b: Alert, k: int, ms: int) {
    && a.assetCode == b.assetCode && a.alertType == b.alertType
    && InSlot(a.occurredAt, k, ms) && InSlot(b.occurredAt, k, ms)
  }

  lemma WindowSlot(w: Window, alerts: seq<Alert>, ms: int) returns (k: int)
    requires ms > 0 && Holds(w, alerts, ms)
    ensures Opens(w.start, k, ms) && forall i :: 0 <= i < |alerts| ==> InSlot(alerts[i].occurredAt, k, ms)
  {
    k :| Opens(w.start, k, ms);
    assert forall i :: 0 <= i < |alerts| ==> Belongs(alerts[i], w);
  }

  /** Alerts counted in one window are of one asset and type and of one slot. */
  lemma SharersTogether(s: State, ms: int, id: WindowId, i: nat, j: nat) returns (k: int)
    requires ms > 0 && Inv(s, ms) && i < |AlertsOf(s.log, id)| && j < |AlertsOf(s.log, id)|
    ensures Together(AlertsOf(s.log, id)[i], AlertsOf(s.log, id)[j], k, ms)
  {
    var alerts := AlertsOf(s.log, id);
    assert id < |s.windows|;
    assert WindowOk(s, id, ms);
    k := WindowSlot(s.windows[id], alerts, ms);
    assert Belongs(alerts[i], s.windows[id]) && Belongs(alerts[j], s.windows[id]);
  }

  /** Window `i` is open for alerts like `a`. */
  predicate OpenFor(ws: seq<Window>, i: WindowId, a: Alert, ms: int)
    requires ms > 0
  {
    i < |ws| && Receives(ws[i], a, ms)
  }

  lemma AssignedOpens(s: State, a: Alert, ms: int)
    requires ms > 0
    ensures OpenFor(Next(s, AssignToWindow(a), ms).windows, FindOpen(s.windows, a, ms), a, ms)
  {
  }

  lemma NextStaysOpen(s: State, op: Op, i: WindowId, a: Alert, ms: int)
    requires ms > 0 && OpenFor(s.windows, i, a, ms) && op != CloseWindow(i)
    ensures OpenFor(Next(s, op, ms).windows, i, a, ms)
  {
  }

  lemma {:induction false} StaysOpen(s: State, ops: seq<Op>, i: WindowId, a: Alert, ms: int)
    requires ms > 0 && OpenFor(s.windows, i, a, ms) && CloseWindow(i) !in ops
    ensures OpenFor(After(s, ops, ms).windows, i, a, ms)
    decreases |ops|
  {
    if ops != [] {
      assert ops[0] in ops && forall op <- ops[1..] :: op in ops;
      NextStaysOpen(s, ops[0], i, a, ms);
      StaysOpen(Next(s, ops[0], ms), ops[1..], i, a, ms);
    }
  }

  lemma OpenFound(ws: seq<Window>, i: WindowId, a: Alert, b: Alert, k: int, ms: int)
    requires ms > 0 && OneOpen(ws) && OpenFor(ws, i, a, ms) && Together(a, b, k, ms)
    ensures FindOpen(ws, b, ms) == i
  {
    StartIff(a.occurredAt, ms, k);
    StartIff(b.occurredAt, ms, k);
    assert Receives(ws[i], b, ms);
  }

  /**
   * Two alerts of one asset, type and slot are counted in one window, whatever happens in between,
   * unless that window is closed in between.
   */
  lemma {:induction false} TogetherShare(s: State, a: Alert, ops: seq<Op>, b: Alert, k: int, ms: int)
    requires ms > 0 && Inv(s, ms) && Together(a, b, k, ms)
    requires CloseWindow(FindOpen(s.windows, a, ms)) !in ops
    ensures var i, s1 := FindOpen(s.windows, a, ms), Next(s, AssignToWindow(a), ms);
      var s2 := Next(After(s1, ops, ms), AssignToWindow(b), ms);
      && Inv(s2, ms) && i < |s2.windows|
      && s1.log == s.log + [(i, a)] && s2.log == After(s1, ops, ms).log + [(i, b)]
  {
    var i, s1 := FindOpen(s.windows, a, ms), Next(s, AssignToWindow(a), ms);
    AssignKeeps(s, a, ms);
    AssignedOpens(s, a, ms);
    StaysOpen(s1, ops, i, a, ms);
    RunKeeps(s1, ops, ms);
    OpenFound(After(s1, ops, ms).windows, i, a, b, k, ms);
    AssignKeeps(After(s1, ops, ms), b, ms);
  }

  // ---------------------------------------------------------------- severity counts add up

  ghost function SumCounts(m: map<string, nat>): nat {
    if m == map[] then 0
    else
      var p :| p in m;
      m[p] + SumCounts(m - {p})
  }

  lemma {:induction false} SumWithout(m: map<string, nat>, p: string)
    requires p in m
    ensures SumCounts(m) == m[p] + SumCounts(m - {p})
  {
    var q :| q in m && SumCounts(m) == m[q] + SumCounts(m - {q});
    if p != q {
      SumWithout(m - {q}, p);
      SumWithout(m - {p}, q);
      assert m - {q} - {p} == m - {p} - {q};
    }
  }

  /** The severity counts of a window sum to its alert count. */
  lemma {:induction false} SeveritySums(severity: map<string, nat>, alerts: seq<Alert>)
    requires forall p :: p in severity <==> CountPriority(alerts, p) > 0
    requires forall p <- severity :: severity[p] == CountPriority(alerts, p)
    ensures SumCounts(severity) == |alerts|
  {
    if alerts == [] {
      assert severity == map[];
    } else {
      var init, p := alerts[..|alerts| - 1], alerts[|alerts| - 1].priority;
      var before := if CountPriority(init, p) > 0 then severity[p := severity[p] - 1] else severity - {p};
      SeveritySums(before, init);
      SumWithout(severity, p);
      if CountPriority(init, p) > 0 {
        SumWithout(before, p);
        assert before - {p} == severity - {p};
      }
    }
  }
}

/** The windowing service as imperative code over its two tables. */
module AlertWindowTable {
  import opened Common
  import opened AlertWindowing

  /** Windows that are open though they ended before `now`, in table order. */
  function Expired(ws: seq<Window>, now: int): (ids: seq<WindowId>)
    ensures forall k :: 0 <= k < |ids| ==> ids[k] < |ws|
    ensures forall i :: 0 <= i < |ws| ==> (i in ids <==> ws[i].status == Open && ws[i].end < now)
    ensures Distinct(ids)
  {
    if ws == [] then []
    else
      var n := |ws| - 1;
      var ids := Expired(ws[..n], now);
      if ws[n].status == Open && ws[n].end < now then ids + [n] else ids
  }

  function Closings(ids: seq<WindowId>): seq<Op> { seq(|ids|, k requires 0 <= k < |ids| => CloseWindow(ids[k])) }

  class AlertWindows {
    const ms: int
    var windows: seq<Window>
    var summaries: seq<Summary>
    ghost var log: seq<(WindowId, Alert)>

    ghost predicate Valid() { ms > 0 }

    ghost function Now(): State
      reads this
    {
      State(windows, summaries, log)
    }

    constructor (windowMinutes: int)
      requires windowMinutes > 0
      ensures Valid() && ms == windowMinutes * 60 * 1000 && Now() == EMPTY
    {
      ms := windowMinutes * 60 * 1000;
      windows, summaries, log := [], [], [];
    }

    method FirstOpen(alert: Alert) returns (i: nat)
      requires Valid()
      ensures i == FindOpen(windows, alert, ms)
    {
      var start := GetWindowStart(alert.occurredAt, ms);
      i := 0;
      while i < |windows|
            && !(windows[i].assetCode == alert.assetCode && windows[i].alertType == alert.alertType
                 && windows[i].start == start && windows[i].status == Open)
        invariant i <= |windows| && i + FindOpen(windows[i..], alert, ms) == FindOpen(windows, alert, ms)
      {
        i := i + 1;
      }
    }

    method MergeIntoStats(s: Stats, alert: Alert) returns (merged: Stats)
      ensures merged == MergeAlertIntoStats(s, alert)
    {
      var severity := s.severity;
      var count: nat := 0;
      if alert.priority in severity { count := severity[alert.priority]; }
      severity := severity[alert.priority := count + 1];
      var recentAlerts := s.recentAlerts;
      recentAlerts := [RecentOf(alert)] + recentAlerts;
      if |recentAlerts| > MAX_RECENT { recentAlerts := recentAlerts[..MAX_RECENT]; }
      merged := s.(lastAlertAt := alert.occurredAt,
                   highestPriority := GetHigherPriority(s.highestPriority, alert.priority),
                   severity := severity, recentAlerts := recentAlerts);
    }

    method AssignToWindow(alert: Alert) returns (row: Window)
      requires Valid()
      modifies this
      ensures Now() == Next(old(Now()), AlertWindowing.AssignToWindow(alert), ms)
      ensures row == windows[FindOpen(old(windows), alert, ms)] && row.status == Open
      ensures row.assetCode == alert.assetCode && row.alertType == alert.alertType
      ensures forall k :: Opens(row.start, k, ms) <==> InSlot(alert.occurredAt, k, ms)
    {
      var i := FirstOpen(alert);
      forall k ensures InSlot(alert.occurredAt, k, ms) <==> Opens(GetWindowStart(alert.occurredAt, ms), k, ms) {
        StartIff(alert.occurredAt, ms, k);
      }
      log := log + [(i, alert)];
      if i < |windows| {
        var stats := MergeIntoStats(windows[i].stats, alert);
        row := windows[i].(alertCount := windows[i].alertCount + 1, stats := stats);
        windows := windows[i := row];
      } else {
        var start := GetWindowStart(alert.occurredAt, ms);
        row := Window(alert.assetCode, alert.alertType, start, start + ms, 1, BuildInitialStats(alert), Open);
        windows := windows + [row];
      }
    }

    method CloseWindow(id: WindowId) returns (row: Option<Window>)
      requires Valid()
      modifies this
      ensures Now() == Next(old(Now()), AlertWindowing.CloseWindow(id), ms)
      ensures row == if id < |windows| then Some(windows[id]) else None
    {
      if id >= |windows| { return None; }
      windows := windows[id := windows[id].(status := Closed)];
      summaries := summaries + [SummaryOf(id, windows[id], ms)];
      return Some(windows[id]);
    }

    /** Closes what has expired and nothing else; the state is that of a run of single closings. */
    method AutoCloseExpiredWindows(now: int) returns (closed: nat)
      requires Valid()
      modifies this
      ensures closed == |Expired(old(windows), now)|
      ensures Now() == After(old(Now()), Closings(Expired(old(windows), now)), ms)
    {
      var expired := Expired(windows, now);
      for i := 0 to |expired|
        invariant After(Now(), Closings(expired[i..]), ms) == After(old(Now()), Closings(expired), ms)
      {
        assert Closings(expired[i..])[1..] == Closings(expired[i + 1..]);
        var _ := CloseWindow(expired[i]);
      }
      assert Closings(expired[|expired|..]) == [];
      closed := |expired|;
    }
  }

  /** Closing a list of windows closes those, leaves the rest alone, and adds one summary for each. */
  lemma {:induction false} ClosingEffect(s: State, ids: seq<WindowId>, ms: int)
    requires ms > 0 && forall k :: 0 <= k < |ids| ==> ids[k] < |s.windows|
    ensures var s' := After(s, Closings(ids), ms);
      && |s'.windows| == |s.windows| && s'.log == s.log && |s'.summaries| == |s.summaries| + |ids|
      && forall i :: 0 <= i < |s.windows| ==>
           s'.windows[i] == if i in ids then s.windows[i].(status := Closed) else s.windows[i]
    decreases |ids|
  {
    if ids != [] {
      assert Closings(ids)[1..] == Closings(ids[1..]);
      ClosingEffect(Next(s, CloseWindow(ids[0]), ms), ids[1..], ms);
      assert ids == [ids[0]] + ids[1..];
    }
  }

  lemma {:induction false} NoneExpired(ws: seq<Window>, now: int)
    requires forall i :: 0 <= i < |ws| ==> ws[i].status == Closed || ws[i].end >= now
    ensures Expired(ws, now) == []
  {
    if ws != [] { NoneExpired(ws[..|ws| - 1], now); }
  }

  /** After the sweep no open window lies in the past, and only such windows were closed. */
  lemma SweepLeavesNoneExpired(s: State, now: int, ms: int)
    requires ms > 0
    ensures var s' := After(s, Closings(Expired(s.windows, now)), ms);
      && Expired(s'.windows, now) == []
      && |s'.windows| == |s.windows|
      && forall i :: 0 <= i < |s.windows| ==>
           s'.windows[i] == if s.windows[i].status == Open && s.windows[i].end < now
                            then s.windows[i].(status := Closed) else s.windows[i]
  {
    var ids := Expired(s.windows, now);
    ClosingEffect(s, ids, ms);
    var ws := After(s, Closings(ids), ms).windows;
    NoneExpired(ws, now);
  }
}

/** The router as imperative code over the rule and audit tables. */
module AlertRouter {
  import opened Common
  import opened AlertRouting
  import opened AlertRoutingRuns

  /** `stories`, `flight` and `clock` hold what the pending dispatches of the one alert being routed know. */
  class Router {
    var rules: seq<Rule>
    var rows: seq<Row>
    var stories: seq<Story>
    var flight: Option<Flight>
    var clock: int

    ghost function Now(): State
      reads this
    {
      State(rows, stories, flight, clock)
    }

    constructor (rules: seq<Rule>)
      ensures Now() == EMPTY && this.rules == rules && Reachable(Now())
    {
      this.rules := rules;
      rows, stories, flight, clock := [], [], None, 0;
      assert Legal(EMPTY, []) && After(EMPTY, []) == EMPTY;
    }

    method FindRule(alert: Alert) returns (matched: Option<Rule>)
      ensures matched == MatchedRule(rules, alert)
    {
      var listed := ListRules(rules, alert.owner);
      var i := 0;
      while i < |listed| && !Fits(listed[i], alert)
        invariant i <= |listed| && i + FirstMatch(listed[i..], alert) == FirstMatch(listed, alert)
      {
        i := i + 1;
      }
      matched := if i < |listed| then Some(listed[i]) else None;
    }

    method SuppressedNow(alert: Alert, channel: Channel, window: int, now: int) returns (found: bool)
      ensures found <==> IsSuppressed(rows, alert, channel, window, now)
    {
      found := false;
      if window <= 0 { return; }
      var cutoff := now - window * 1000;
      for i := 0 to |rows|
        invariant found <==> exists k :: 0 <= k < i && Blocks(rows[k], alert, channel, window, now)
      {
        var row := rows[i];
        if SameKey(row, alert, channel) && Succeeded(row.status) && row.createdAt >= cutoff { found := true; }
      }
    }

    method CheckChannel(c: Channel, answer: Answer, now: int)
      requires flight.Some? && stories != [] && Enabled(Now(), Check(c, answer), now)
      modifies this
      ensures Now() == Next(old(Now()), Check(c, answer), now) && rules == old(rules)
    {
      var story, f := stories[|stories| - 1], flight.value;
      var window := if f.stage == Primary && story.rule.Some? then story.rule.value.window else 0;
      var suppressed := SuppressedNow(story.alert, c, window, now);
      var got := answer;
      if suppressed { got := Answer(Suppressed, Some(WINDOW_ACTIVE), 0); }
      flight := Some(f.(waiting := f.waiting - {c}, sent := f.sent[c := Sent(got, now)]));
      clock := now;
    }

    method RecordChannel(c: Channel, now: int)
      requires stories != [] && Enabled(Now(), Record(c), now)
      modifies this
      ensures Now() == Next(old(Now()), Record(c), now) && rules == old(rules)
    {
      var story, f := stories[|stories| - 1], flight.value;
      var sent := f.sent[c];
      var status := sent.answer.status;
      if f.stage == Second && (status == Queued || status == Delivered) { status := Fallback; }
      var ruleId := if story.rule.Some? then Some(story.rule.value.id) else None;
      var window := if f.stage == Primary && story.rule.Some? then story.rule.value.window else 0;
      rows := rows + [Row(story.alert, ruleId, c, status, sent.answer.reason, sent.answer.attempts, now,
                          |stories| - 1, f.stage, window, sent.checkedAt)];
      flight := Some(f.(sent := f.sent - {c}, results := f.results[c := sent.answer.status]));
      clock := now;
    }

    method CheckSome(now: int)
      requires Reachable(Now()) && flight.Some? && flight.value.waiting != {} && now >= clock
      modifies this
      ensures Reachable(Now()) && SameAlert(old(Now()), Now()) && Left(Now()) < Left(old(Now())) && rules == old(rules)
    {
      var c :| c in flight.value.waiting;
      var status: Status := *;
      var reason: Option<string> := *;
      var attempts: nat := *;
      var answer := Answer(if status == Suppressed || status == Fallback then Failed else status, reason, attempts);
      ReachableFlight(Now());
      assert Enabled(Now(), Check(c, answer), now);
      StepKeeps(Now(), Check(c, answer), now);
      CheckChannel(c, answer, now);
    }

    method RecordSome(now: int)
      requires Reachable(Now()) && flight.Some? && flight.value.sent != map[] && now >= clock
      modifies this
      ensures Reachable(Now()) && SameAlert(old(Now()), Now()) && Left(Now()) < Left(old(Now())) && rules == old(rules)
    {
      assert flight.value.sent.Keys != {};
      var c :| c in flight.value.sent;
      ReachableFlight(Now());
      StepKeeps(Now(), Record(c), now);
      RecordChannel(c, now);
    }

    /** All dispatches of a stage, in whatever order and at whatever times they move. */
    method RunStage()
      requires Reachable(Now()) && flight.Some?
      modifies this
      ensures Reachable(Now()) && SameAlert(old(Now()), Now()) && rules == old(rules)
      ensures flight.value.waiting == {} && flight.value.sent == map[]
    {
      while flight.value.waiting != {} || flight.value.sent != map[]
        invariant Reachable(Now()) && SameAlert(old(Now()), Now()) && rules == old(rules)
        decreases Left(Now())
      {
        var now :| now >= clock;
        var checks: bool := *;
        if flight.value.sent == map[] || (flight.value.waiting != {} && checks) {
          CheckSome(now);
        } else {
          RecordSome(now);
        }
      }
    }

    method ConcludeStage()
      requires stories != [] && Enabled(Now(), Conclude, clock)
      modifies this`flight
      ensures Now() == Next(old(Now()), Conclude, clock)
    {
      var story, f := stories[|stories| - 1], flight.value;
      var succeeded := exists c :: c in f.results && (f.results[c] == Queued || f.results[c] == Delivered);
      if f.stage != Primary || succeeded || forall c <- f.results :: f.results[c] == Suppressed {
        flight := None;
      } else {
        flight := Some(Flight(Second, Elements(FallbackOf(story)), map[], map[]));
      }
    }

    method RunAndConclude()
      requires Reachable(Now()) && flight.Some?
      modifies this
      ensures Reachable(Now()) && stories == old(stories) && old(rows) <= rows && rules == old(rules)
      ensures flight.Some? ==> old(flight).value.stage == Primary && flight.value.stage == Second
    {
      RunStage();
      ReachableNext(Now(), Conclude, clock);
      ConcludeStage();
    }

    /** The primary stage, and the fallback stage where it is due. */
    method RunStages()
      requires Reachable(Now()) && flight.Some? && flight.value.stage == Primary
      modifies this
      ensures Reachable(Now()) && flight.None? && stories == old(stories) && old(rows) <= rows && rules == old(rules)
    {
      RunAndConclude();
      if flight.Some? { RunAndConclude(); }
    }

    /** The check of mute and severity, and the first stage set up behind it. */
    method Admit(alert: Alert, loaded: Option<Stored>, now: int)
      requires flight.None? && now >= clock
      modifies this
      ensures Now() == Next(old(Now()), Arrive(alert, loaded, rules), now) && rules == old(rules)
    {
      var rule := FindRule(alert);
      var story := Story(alert, loaded, rule);
      var gated := Gated(story);
      clock := now;
      if gated.Some? {
        rows := rows + [Row(alert, None, ALL, Suppressed, gated, 0, now, |stories|, Gate, 0, now)];
      } else {
        flight := Some(Flight(Primary, Elements(PrimaryOf(story)), map[], map[]));
      }
      stories := stories + [story];
    }

    method RouteAlert(alert: Alert, loaded: Option<Stored>, now: int)
      requires Reachable(Now()) && flight.None? && now >= clock
      modifies this
      ensures Reachable(Now()) && flight.None? && rules == old(rules)
      ensures stories == old(stories) + [Story(alert, loaded, MatchedRule(rules, alert))]
      ensures BestOf(rules, alert, stories[|old(stories)|].rule)
      ensures old(rows) <= rows && ToldAsConfigured(rows, stories[|old(stories)|], |old(stories)|)
    {
      MatchIsBest(rules, alert);
      ReachableNext(Now(), Arrive(alert, loaded, rules), now);
      Admit(alert, loaded, now);
      if flight.Some? { RunStages(); }
      ReachableSettled(Now(), |stories| - 1);
    }
  }

  /** The same alert in the same stage, with perhaps more rows. */
  ghost predicate SameAlert(s: State, s': State) {
    s.flight.Some? && s'.flight.Some? && s'.flight.value.stage == s.flight.value.stage
    && s'.stories == s.stories && s.rows <= s'.rows
  }

  lemma StepKeeps(s: State, step: Step, now: int)
    requires Reachable(s) && s.flight.Some? && s.stories != [] && !step.Conclude? && Enabled(s, step, now)
    ensures var s' := Next(s, step, now); Reachable(s') && Left(s') < Left(s) && SameAlert(s, s')
  {
    ReachableNext(s, step, now);
    StepsRunOut(s, step, now);
  }

  lemma ReachableSettled(s: State, k: nat)
    requires Reachable(s) && k < Done(s)
    ensures ToldAsConfigured(s.rows, s.stories[k], k)
  {
    ReachableInv(s);
    EachAlertTold(s, k);
  }
}

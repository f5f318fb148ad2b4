/** Where the stories and the rows of a run come from: its arrivals, and what the transports answered. */
module AlertRoutingHistory {
  import opened Common
  import opened AlertRouting
  import opened AlertRoutingRuns

  type Run = seq<(Step, int)>

  /** The arrivals of a run, in order. */
  function Arrivals(run: Run): seq<Step> {
    if run == [] then [] else (if run[0].0.Arrive? then [run[0].0] else []) + Arrivals(run[1..])
  }

  ghost predicate ArrivedAs(st: Story, step: Step) {
    step.Arrive? && st.alert == step.alert && st.loaded == step.loaded && BestOf(step.rules, step.alert, st.rule)
  }

  /** `all` goes on after `before` with one story for each step. */
  ghost predicate Grew(before: seq<Story>, all: seq<Story>, steps: seq<Step>) {
    && |all| == |before| + |steps| && before <= all
    && forall k :: 0 <= k < |steps| ==> ArrivedAs(all[|before| + k], steps[k])
  }

  lemma GrewOn(a: seq<Story>, b: seq<Story>, c: seq<Story>, first: seq<Step>, later: seq<Step>)
    requires Grew(a, b, first) && Grew(b, c, later)
    ensures Grew(a, c, first + later)
  {
    forall k | 0 <= k < |first + later|
      ensures ArrivedAs(c[|a| + k], (first + later)[k])
    {
      if k < |first| {
        assert c[|a| + k] == b[|a| + k];
      } else {
        assert ArrivedAs(c[|b| + (k - |first|)], later[k - |first|]);
      }
    }
  }

  lemma NextStory(s: State, step: Step, now: int)
    requires Enabled(s, step, now) && (s.flight.Some? ==> s.stories != [])
    ensures Grew(s.stories, Next(s, step, now).stories, if step.Arrive? then [step] else [])
  {
    if step.Arrive? { MatchIsBest(step.rules, step.alert); }
  }

  /** The alerts of a run are its arrivals, each under a best of the rules that applied when it arrived. */
  lemma {:induction false} StoriesAreArrivals(s: State, run: Run)
    requires Inv(s) && Legal(s, run)
    ensures Grew(s.stories, After(s, run).stories, Arrivals(run))
    decreases |run|
  {
    if run != [] {
      var s' := Next(s, run[0].0, run[0].1);
      NextKeeps(s, run[0].0, run[0].1);
      NextStory(s, run[0].0, run[0].1);
      StoriesAreArrivals(s', run[1..]);
      GrewOn(s.stories, s'.stories, After(s', run[1..]).stories, if run[0].0.Arrive? then [run[0].0] else [],
             Arrivals(run[1..]));
    }
  }

  // ---------------------------------------------------------------- answers

  ghost predicate Asked(past: Run, c: Channel, answer: Answer, at: int) { (Check(c, answer), at) in past }

  /** The row carries the answer, a fallback that got through marked as such. */
  predicate Carries(r: Row, answer: Answer) {
    && r.reason == answer.reason && r.attempts == answer.attempts
    && r.status == if r.stage == Second && answer.status != Failed then Fallback else answer.status
  }

  ghost predicate RowHeard(past: Run, r: Row) {
    r.stage == Gate ||
    (&& (Record(r.channel), r.createdAt) in past
     && (r.status == Suppressed || exists answer :: Asked(past, r.channel, answer, r.checkedAt) && Carries(r, answer)))
  }

  ghost predicate RowsHeard(past: Run, rows: seq<Row>) { forall i :: 0 <= i < |rows| ==> RowHeard(past, rows[i]) }

  ghost predicate SentHeard(past: Run, c: Channel, sent: Sent) {
    sent.answer.status == Suppressed
    || ((sent.answer.status == Failed || sent.answer.status == Queued || sent.answer.status == Delivered)
        && Asked(past, c, sent.answer, sent.checkedAt))
  }

  ghost predicate FlightHeard(past: Run, flight: Option<Flight>) {
    flight.Some? ==> forall c <- flight.value.sent :: SentHeard(past, c, flight.value.sent[c])
  }

  lemma StillHeard(past: Run, more: Run, s: State)
    requires RowsHeard(past, s.rows) && FlightHeard(past, s.flight)
    ensures RowsHeard(past + more, s.rows) && FlightHeard(past + more, s.flight)
  {
    forall i | 0 <= i < |s.rows|
      ensures RowHeard(past + more, s.rows[i])
    {
      var r := s.rows[i];
      assert RowHeard(past, r);
      if r.stage != Gate && r.status != Suppressed {
        var answer :| Asked(past, r.channel, answer, r.checkedAt) && Carries(r, answer);
        assert Asked(past + more, r.channel, answer, r.checkedAt);
      }
    }
  }

  lemma CheckHeard(past: Run, s: State, c: Channel, answer: Answer, now: int)
    requires FlightHeard(past, s.flight) && Enabled(s, Check(c, answer), now) && s.stories != []
    requires (Check(c, answer), now) in past
    ensures FlightHeard(past, Next(s, Check(c, answer), now).flight)
  {
  }

  lemma RecordHeard(past: Run, s: State, c: Channel, now: int)
    requires RowsHeard(past, s.rows) && FlightHeard(past, s.flight) && Enabled(s, Record(c), now) && s.stories != []
    requires (Record(c), now) in past && s.flight.value.stage != Gate
    ensures RowsHeard(past, Next(s, Record(c), now).rows) && FlightHeard(past, Next(s, Record(c), now).flight)
  {
    var st, f := s.stories[|s.stories| - 1], s.flight.value;
    var r := RowOf(st, f.stage, c, f.sent[c], |s.stories| - 1, now);
    assert SentHeard(past, c, f.sent[c]);
    if f.sent[c].answer.status != Suppressed {
      assert Asked(past, c, f.sent[c].answer, r.checkedAt) && Carries(r, f.sent[c].answer);
    }
    assert RowHeard(past, r);
  }

  lemma NextHeard(past: Run, s: State, step: Step, now: int)
    requires Inv(s) && Enabled(s, step, now) && RowsHeard(past, s.rows) && FlightHeard(past, s.flight)
    ensures RowsHeard(past + [(step, now)], Next(s, step, now).rows)
    ensures FlightHeard(past + [(step, now)], Next(s, step, now).flight)
  {
    var longer := past + [(step, now)];
    StillHeard(past, [(step, now)], s);
    assert longer[|past|] == (step, now);
    match step {
      case Arrive(_, _, _) =>
      case Check(c, answer) => CheckHeard(longer, s, c, answer, now);
      case Record(c) => RecordHeard(longer, s, c, now);
      case Conclude =>
    }
  }

  lemma {:induction false} RunHeard(past: Run, s: State, run: Run)
    requires Inv(s) && Legal(s, run) && RowsHeard(past, s.rows) && FlightHeard(past, s.flight)
    ensures RowsHeard(past + run, After(s, run).rows)
    decreases |run|
  {
    if run == [] {
      assert past + run == past;
    } else {
      NextKeeps(s, run[0].0, run[0].1);
      NextHeard(past, s, run[0].0, run[0].1);
      RunHeard(past + [run[0]], Next(s, run[0].0, run[0].1), run[1..]);
      assert past + [run[0]] + run[1..] == past + run;
    }
  }

  /** Every row but a gate row was recorded by the run, and says what the transport answered unless suppressed. */
  lemma EveryRowHeard(run: Run)
    requires Legal(EMPTY, run)
    ensures RowsHeard(run, After(EMPTY, run).rows)
  {
    RunHeard([], EMPTY, run);
    assert [] + run == run;
  }
}

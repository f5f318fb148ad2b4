/**
 * backend/src/services/alertRouting.service.ts: which rule and which channels an alert
 * gets, and the routing of one alert at a time as a step system. The dispatches of a
 * stage run concurrently, each with two database steps, the suppression check and the
 * audit insert.
 */
module AlertRouting {
  import opened Common
  import opened Texts

  type Channel = string

  datatype Severity = Low | Medium | High | Critical

  datatype Alert = Alert(ruleId: string, owner: string, asset: string, source: string, severity: Severity)

  datatype Rule = Rule(
    id: string, owner: Option<string>, severities: seq<Severity>, assets: seq<string>, sources: seq<string>,
    channels: seq<Channel>, fallbacks: seq<Channel>, window: int, priority: int, isActive: bool)

  /** Stored preferences of an owner; an absent or unknown value is None. */
  datatype Stored = Stored(channels: Option<seq<Channel>>, muted: Option<seq<string>>, severity: Option<Severity>)

  datatype Preferences = Preferences(minSeverity: Severity, channels: seq<Channel>, muted: seq<string>)

  const CHANNELS: seq<Channel> := ["in_app", "webhook", "email"]

  const DEFAULT_CHANNELS: seq<Channel> := ["in_app"]

  function Rank(s: Severity): int { match s case Low => 0 case Medium => 1 case High => 2 case Critical => 3 }

  function UpperChar(c: char): char { if 'a' <= c <= 'z' then (c as int - 32) as char else c }

  function Upper(s: string): string { seq(|s|, i requires 0 <= i < |s| => UpperChar(s[i])) }

  function Uppers(s: seq<string>): seq<string> { seq(|s|, i requires 0 <= i < |s| => Upper(s[i])) }

  predicate SameLetter(c: char, d: char) {
    c == d || ('a' <= c <= 'z' && c as int - 32 == d as int) || ('a' <= d <= 'z' && d as int - 32 == c as int)
  }

  /** Two texts that agree but for the case of their letters. */
  predicate SameLetters(s: string, t: string) {
    |s| == |t| && forall i :: 0 <= i < |s| ==> SameLetter(s[i], t[i])
  }

  lemma UpperCharSame(c: char, d: char)
    ensures UpperChar(c) == UpperChar(d) <==> SameLetter(c, d)
  {
    if 'a' <= c <= 'z' { assert UpperChar(c) as int == c as int - 32; }
    if 'a' <= d <= 'z' { assert UpperChar(d) as int == d as int - 32; }
  }

  lemma UpperSame(s: string, t: string)
    ensures Upper(s) == Upper(t) <==> SameLetters(s, t)
  {
    assert |Upper(s)| == |s| && |Upper(t)| == |t|;
    if |s| == |t| {
      forall i | 0 <= i < |s|
        ensures Upper(s)[i] == Upper(t)[i] <==> SameLetter(s[i], t[i])
      {
        UpperCharSame(s[i], t[i]);
      }
    }
  }

  lemma UppersHold(items: seq<string>, t: string)
    ensures Upper(t) in Uppers(items) <==> exists x <- items :: SameLetters(x, t)
  {
    var uppers := Uppers(items);
    forall k | 0 <= k < |items|
      ensures uppers[k] == Upper(t) <==> SameLetters(items[k], t)
    {
      UpperSame(items[k], t);
    }
  }

  predicate Known(c: Channel) { c in CHANNELS }

  /** The known channels of a list, each at its first occurrence. */
  function Sanitize(items: seq<Channel>): (r: seq<Channel>)
    ensures Distinct(r)
    ensures forall c :: c in r <==> c in items && c in CHANNELS
  {
    Unique(items, Known)
  }

  /** Asset codes trimmed and in upper case, without blank ones, each once. */
  function SanitizeCodes(items: seq<string>): seq<string> { Unique(Uppers(Trims(items)), NonEmpty) }

  function Elements(s: seq<Channel>): set<Channel> { set c | c in s }

  /** The elements that lie in a set, in order. */
  function Keep(items: seq<Channel>, allowed: set<Channel>): (r: seq<Channel>)
    ensures forall c :: c in r <==> c in items && c in allowed
    ensures Distinct(items) ==> Distinct(r)
  {
    if items == [] then []
    else
      var n := |items| - 1;
      assert items == items[..n] + [items[n]];
      assert Distinct(items) ==> Distinct(items[..n]) && items[n] !in items[..n];
      var r := Keep(items[..n], allowed);
      if items[n] in allowed then r + [items[n]] else r
  }

  /** The sanitised list keeps the order of first occurrence. */
  lemma SanitizeKeepsOrder(items: seq<Channel>, i: nat, j: nat)
    requires i < j < |Sanitize(items)|
    ensures Sanitize(items)[i] in items && Sanitize(items)[j] in items
    ensures FirstAt(items, Sanitize(items)[i]) < FirstAt(items, Sanitize(items)[j])
  {
    UniqueKeepsOrder(items, Known, i, j);
  }

  function OrInApp(channels: seq<Channel>): seq<Channel> { if channels == [] then DEFAULT_CHANNELS else channels }

  /** Preferences in force; `loaded` is None when loading them threw. */
  function LoadPreferences(loaded: Option<Stored>): (p: Preferences)
    ensures p.channels != [] && Distinct(p.channels) && forall c :: c in p.channels ==> c in CHANNELS
  {
    if loaded.None? then Preferences(Medium, DEFAULT_CHANNELS, [])
    else
      var stored := loaded.value;
      Preferences(if stored.severity.Some? then stored.severity.value else Medium,
                  OrInApp(Sanitize(if stored.channels.Some? then stored.channels.value else DEFAULT_CHANNELS)),
                  if stored.muted.Some? then SanitizeCodes(stored.muted.value) else [])
  }

  // ---------------------------------------------------------------- the matching rule

  predicate Visible(r: Rule, owner: string) { owner == "" || r.owner.None? || r.owner.value == owner }

  predicate Matches(r: Rule, a: Alert) {
    && (r.severities == [] || a.severity in r.severities)
    && (r.assets == [] || Upper(a.asset) in Uppers(r.assets))
    && (r.sources == [] || a.source in r.sources)
  }

  predicate Fits(r: Rule, a: Alert) { r.isActive && Matches(r, a) }

  predicate Eligible(r: Rule, a: Alert) { Visible(r, a.owner) && Fits(r, a) }

  predicate ByPriority(rules: seq<Rule>) {
    forall i, j :: 0 <= i < j < |rules| ==> rules[i].priority <= rules[j].priority
  }

  function InsertRule(r: Rule, rules: seq<Rule>): (s: seq<Rule>)
    requires ByPriority(rules)
    ensures ByPriority(s) && multiset(s) == multiset(rules) + multiset{r}
    ensures s != [] && s[0].priority == (if rules == [] then r.priority else Min(r.priority, rules[0].priority))
  {
    if rules == [] || r.priority <= rules[0].priority then [r] + rules
    else
      assert rules == [rules[0]] + rules[1..];
      [rules[0]] + InsertRule(r, rules[1..])
  }

  /** The rules an owner sees, by ascending priority order. */
  function ListRules(rules: seq<Rule>, owner: string): (s: seq<Rule>)
    ensures ByPriority(s)
    ensures forall r :: r in s <==> r in rules && Visible(r, owner)
  {
    if rules == [] then []
    else
      var rest := ListRules(rules[1..], owner);
      assert rules == [rules[0]] + rules[1..];
      if Visible(rules[0], owner) then
        var s := InsertRule(rules[0], rest);
        assert forall r :: r in s <==> r in multiset(s);
        s
      else rest
  }

  /** Position of the first active rule that matches, or the end. */
  function FirstMatch(rules: seq<Rule>, a: Alert): (k: nat)
    ensures k <= |rules| && (forall j :: 0 <= j < k ==> !Fits(rules[j], a))
    ensures k < |rules| ==> Fits(rules[k], a)
  {
    if rules == [] || Fits(rules[0], a) then 0 else 1 + FirstMatch(rules[1..], a)
  }

  function MatchedRule(rules: seq<Rule>, a: Alert): Option<Rule> {
    var listed := ListRules(rules, a.owner);
    var k := FirstMatch(listed, a);
    if k < |listed| then Some(listed[k]) else None
  }

  /** An active rule that the owner sees and whose lists, where not empty, name what the alert has. */
  ghost predicate Applies(r: Rule, a: Alert) {
    && r.isActive
    && (r.owner.Some? && a.owner != "" ==> a.owner == r.owner.value)
    && (r.severities == [] || exists x <- r.severities :: x == a.severity)
    && (r.assets == [] || exists x <- r.assets :: SameLetters(x, a.asset))
    && (r.sources == [] || exists x <- r.sources :: x == a.source)
  }

  lemma EligibleApplies(r: Rule, a: Alert)
    ensures Eligible(r, a) <==> Applies(r, a)
  {
    UppersHold(r.assets, a.asset);
  }

  /** A rule of least priority order among those that apply, and none only when none applies. */
  ghost predicate BestOf(rules: seq<Rule>, a: Alert, m: Option<Rule>) {
    match m
    case None => forall r <- rules :: !Applies(r, a)
    case Some(best) =>
      best in rules && Applies(best, a) && forall r <- rules :: Applies(r, a) ==> best.priority <= r.priority
  }

  lemma MatchIsBest(rules: seq<Rule>, a: Alert)
    ensures BestOf(rules, a, MatchedRule(rules, a))
  {
    forall r | r in rules
      ensures Eligible(r, a) <==> Applies(r, a)
    {
      EligibleApplies(r, a);
    }
  }

  // ---------------------------------------------------------------- the channels

  function PrimaryChannels(rule: Option<Rule>, p: Preferences): seq<Channel> {
    if rule.Some? && Sanitize(rule.value.channels) != [] then
      var fromRule := Sanitize(rule.value.channels);
      var both := Keep(fromRule, Elements(p.channels));
      if both != [] then both else fromRule
    else OrInApp(p.channels)
  }

  function FallbackChannels(rule: Option<Rule>): seq<Channel> {
    if rule.Some? then OrInApp(Sanitize(rule.value.fallbacks)) else DEFAULT_CHANNELS
  }

  predicate IsChannel(c: Channel) { c == "in_app" || c == "webhook" || c == "email" }

  predicate NamesAny(items: seq<Channel>) { exists d <- items :: IsChannel(d) }

  /** The channels a configured list stands for: those it names, or the in-app one when it names none. */
  predicate Names(items: seq<Channel>, c: Channel) {
    if NamesAny(items) then c in items && IsChannel(c) else c == "in_app"
  }

  lemma SanitizeNames(items: seq<Channel>)
    ensures Sanitize(items) != [] <==> NamesAny(items)
    ensures var r := OrInApp(Sanitize(items)); r != [] && Distinct(r) && forall c :: c in r <==> Names(items, c)
  {
    if Sanitize(items) != [] { assert Sanitize(items)[0] in Sanitize(items); }
  }

  /** The channels an owner takes; nothing stored, or nothing loaded, stands for the empty list. */
  predicate OwnerTakes(loaded: Option<Stored>, c: Channel) {
    Names(if loaded.Some? && loaded.value.channels.Some? then loaded.value.channels.value else [], c)
  }

  lemma OwnerChannels(loaded: Option<Stored>)
    ensures var r := LoadPreferences(loaded).channels;
      r != [] && Distinct(r) && forall c :: c in r <==> OwnerTakes(loaded, c)
  {
    if loaded.Some? && loaded.value.channels.Some? { SanitizeNames(loaded.value.channels.value); }
  }

  /** What rule and owner agree on; failing that what the rule names; failing that what the owner takes. */
  predicate PrimaryTo(rule: Option<Rule>, loaded: Option<Stored>, c: Channel) {
    if rule.Some? && NamesAny(rule.value.channels) then
      if exists d <- rule.value.channels :: OwnerTakes(loaded, d) then
        c in rule.value.channels && OwnerTakes(loaded, c)
      else c in rule.value.channels && IsChannel(c)
    else OwnerTakes(loaded, c)
  }

  lemma {:induction false} PrimaryLaws(rule: Option<Rule>, loaded: Option<Stored>)
    ensures var r := PrimaryChannels(rule, LoadPreferences(loaded));
      r != [] && Distinct(r) && forall c :: c in r <==> PrimaryTo(rule, loaded, c)
  {
    OwnerChannels(loaded);
    if rule.Some? {
      SanitizeNames(rule.value.channels);
      var both := Keep(Sanitize(rule.value.channels), Elements(LoadPreferences(loaded).channels));
      assert both != [] ==> both[0] in both;
    }
  }

  /** The known channels the rule falls back to, or the in-app one when it lists none or there is no rule. */
  predicate FallbackTo(rule: Option<Rule>, c: Channel) {
    Names(if rule.Some? then rule.value.fallbacks else [], c)
  }

  lemma FallbackLaws(rule: Option<Rule>)
    ensures var r := FallbackChannels(rule); r != [] && Distinct(r) && forall c :: c in r <==> FallbackTo(rule, c)
  {
    if rule.Some? { SanitizeNames(rule.value.fallbacks); }
  }

  // ---------------------------------------------------------------- routing, step by step

  datatype Status = Queued | Delivered | Suppressed | Failed | Fallback

  /** What the transport answers: never a suppression and never a fallback mark. */
  datatype Answer = Answer(status: Status, reason: Option<string>, attempts: nat)

  datatype Stage = Gate | Primary | Second

  /** An audit row; number, stage, window and checkedAt are history, not columns. */
  datatype Row = Row(
    alert: Alert, ruleId: Option<string>, channel: Channel, status: Status, reason: Option<string>,
    attempts: nat, createdAt: int,
    number: nat, stage: Stage, window: int, checkedAt: int)

  datatype Sent = Sent(answer: Answer, checkedAt: int)

  /** The stage in flight: channels before their check, between check and insert, and done. */
  datatype Flight = Flight(stage: Stage, waiting: set<Channel>, sent: map<Channel, Sent>, results: map<Channel, Status>)

  /** An alert that arrived, with the preferences and the rule it was routed under. */
  datatype Story = Story(alert: Alert, loaded: Option<Stored>, rule: Option<Rule>)

  datatype State = State(rows: seq<Row>, stories: seq<Story>, flight: Option<Flight>, clock: int)

  datatype Step =
    | Arrive(alert: Alert, loaded: Option<Stored>, rules: seq<Rule>)
    | Check(channel: Channel, answer: Answer)
    | Record(channel: Channel)
    | Conclude

  const MUTED := "asset muted by user preference"
  const BELOW := "below user severity threshold"
  const WINDOW_ACTIVE := "suppression window active"
  const ALL := "all"

  predicate Succeeded(s: Status) { s == Queued || s == Delivered || s == Fallback }

  function Gated(st: Story): Option<string> {
    var p := LoadPreferences(st.loaded);
    if Upper(st.alert.asset) in p.muted then Some(MUTED)
    else if Rank(st.alert.severity) < Rank(p.minSeverity) then Some(BELOW)
    else None
  }

  /** A stored code mutes an asset when they agree but for white space around the code and the case of letters. */
  ghost predicate Mutes(code: string, asset: string) { asset != "" && SameLetters(Trim(code), asset) }

  lemma MutedIff(codes: seq<string>, asset: string)
    ensures Upper(asset) in SanitizeCodes(codes) <==> exists m <- codes :: Mutes(m, asset)
  {
    assert |Upper(asset)| == |asset|;
    UppersHold(Trims(codes), asset);
    if x :| x in Trims(codes) && SameLetters(x, asset) {
      var k :| 0 <= k < |codes| && Trims(codes)[k] == x;
      assert asset != "" ==> Mutes(codes[k], asset);
    }
    if m :| m in codes && Mutes(m, asset) {
      var k :| 0 <= k < |codes| && codes[k] == m;
      assert Trims(codes)[k] in Trims(codes);
    }
  }

  ghost predicate Muted(st: Story) {
    st.loaded.Some? && st.loaded.value.muted.Some?
    && exists m <- st.loaded.value.muted.value :: Mutes(m, st.alert.asset)
  }

  predicate AtLeast(s: Severity, t: Severity) {
    s == t || t == Low || s == Critical || (s == High && t == Medium)
  }

  /** The owner's least severity, medium when it is not stored or loading threw. */
  predicate SevereEnough(st: Story) {
    AtLeast(st.alert.severity,
            if st.loaded.Some? && st.loaded.value.severity.Some? then st.loaded.value.severity.value else Medium)
  }

  /** An alert is stopped exactly when its asset is muted, which comes first, or it is not severe enough. */
  lemma GateDecides(st: Story)
    ensures Gated(st) == if Muted(st) then Some(MUTED) else if !SevereEnough(st) then Some(BELOW) else None
  {
    if st.loaded.Some? && st.loaded.value.muted.Some? { MutedIff(st.loaded.value.muted.value, st.alert.asset); }
  }

  function PrimaryOf(st: Story): seq<Channel> { PrimaryChannels(st.rule, LoadPreferences(st.loaded)) }

  function FallbackOf(st: Story): seq<Channel> {
    Keep(FallbackChannels(st.rule), Elements(FallbackChannels(st.rule)) - Elements(PrimaryOf(st)))
  }

  /** The fallbacks of an alert are those of its rule that the primary stage leaves out, each once. */
  lemma FallbackOfLaws(st: Story)
    ensures Distinct(FallbackOf(st))
    ensures forall c :: c in FallbackOf(st) <==> FallbackTo(st.rule, c) && !PrimaryTo(st.rule, st.loaded, c)
  {
    FallbackLaws(st.rule);
    PrimaryLaws(st.rule, st.loaded);
  }

  function WindowOf(st: Story, stage: Stage): int {
    if stage == Primary && st.rule.Some? then st.rule.value.window else 0
  }

  predicate SameKey(r: Row, a: Alert, c: Channel) {
    r.alert.owner == a.owner && r.alert.asset == a.asset && r.alert.source == a.source && r.channel == c
  }

  /** The row the suppression query looks for. */
  predicate Blocks(r: Row, a: Alert, c: Channel, window: int, now: int) {
    SameKey(r, a, c) && Succeeded(r.status) && r.createdAt >= now - window * 1000
  }

  predicate IsSuppressed(rows: seq<Row>, a: Alert, c: Channel, window: int, now: int) {
    window > 0 && exists i :: 0 <= i < |rows| && Blocks(rows[i], a, c, window, now)
  }

  function GateRow(st: Story, reason: string, number: nat, now: int): Row {
    Row(st.alert, None, ALL, Suppressed, Some(reason), 0, now, number, Gate, 0, now)
  }

  function RowOf(st: Story, stage: Stage, c: Channel, sent: Sent, number: nat, now: int): Row {
    var status := if stage == Second && (sent.answer.status == Queued || sent.answer.status == Delivered) then Fallback
                  else sent.answer.status;
    Row(st.alert, if st.rule.Some? then Some(st.rule.value.id) else None, c, status, sent.answer.reason,
        sent.answer.attempts, now,
        number, stage, WindowOf(st, stage), sent.checkedAt)
  }

  /** A primary success, or nothing but suppressions: no fallback. */
  predicate Satisfied(results: map<Channel, Status>) {
    (exists c :: c in results && (results[c] == Queued || results[c] == Delivered))
    || forall c <- results :: results[c] == Suppressed
  }

  /** What follows a stage: nothing, or the fallback stage. */
  function Concluded(st: Story, f: Flight): Option<Flight> {
    if f.stage != Primary || Satisfied(f.results) then None
    else Some(Flight(Second, Elements(FallbackOf(st)), map[], map[]))
  }

  ghost predicate Enabled(s: State, step: Step, now: int) {
    now >= s.clock
    && match step
       case Arrive(_, _, _) => s.flight.None?
       case Check(c, answer) =>
         s.flight.Some? && c in s.flight.value.waiting
         && (answer.status == Queued || answer.status == Delivered || answer.status == Failed)
       case Record(c) => s.flight.Some? && c in s.flight.value.sent
       case Conclude => s.flight.Some? && s.flight.value.waiting == {} && s.flight.value.sent == map[]
  }

  function Next(s: State, step: Step, now: int): State
    requires s.flight.Some? ==> s.stories != []
  {
    match step
    case Arrive(alert, loaded, rules) =>
      var st := Story(alert, loaded, MatchedRule(rules, alert));
      var gated := Gated(st);
      if gated.Some? then
        State(s.rows + [GateRow(st, gated.value, |s.stories|, now)], s.stories + [st], None, now)
      else
        State(s.rows, s.stories + [st], Some(Flight(Primary, Elements(PrimaryOf(st)), map[], map[])), now)
    case Check(c, answer) =>
      if s.flight.None? then s
      else
        var st, f := s.stories[|s.stories| - 1], s.flight.value;
        var got := if IsSuppressed(s.rows, st.alert, c, WindowOf(st, f.stage), now)
                   then Answer(Suppressed, Some(WINDOW_ACTIVE), 0) else answer;
        s.(flight := Some(f.(waiting := f.waiting - {c}, sent := f.sent[c := Sent(got, now)])), clock := now)
    case Record(c) =>
      if s.flight.None? || c !in s.flight.value.sent then s
      else
        var st, f := s.stories[|s.stories| - 1], s.flight.value;
        State(s.rows + [RowOf(st, f.stage, c, f.sent[c], |s.stories| - 1, now)], s.stories,
              Some(f.(sent := f.sent - {c}, results := f.results[c := f.sent[c].answer.status])), now)
    case Conclude =>
      if s.flight.None? then s
      else
        var st, f := s.stories[|s.stories| - 1], s.flight.value;
        s.(flight := Concluded(st, f), clock := now)
  }
}

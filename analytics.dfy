/** The marketing instrumentation in analytics.js: conversion events, lead
    scoring, campaign attribution, A/B variant assignment and the behaviour
    tracker's scroll and click summary. */
module Analytics {
  import opened JsRuntime

  // ===========================================================================
  // Conversion events (trackConversion)

  datatype ConversionEvent = ConversionEvent(
    eventName: string,
    category: string,
    timestamp: string,
    page: string,
    userAgent: string,
    value: Option<string>)

  /** The actions that earn a value tag. */
  const TaggedActions: set<string> :=
    {"cta_click", "pricing_view", "contact_form_submit", "demo_request"}

  /** Builds the event that `trackConversion(action, category)` reports.
      `category` is None when the caller leaves it out; the clock, the page path
      and the user agent are passed in. */
  method TrackConversion(action: string, category: Option<string>, timestamp: string,
                         page: string, userAgent: string)
    returns (e: ConversionEvent)
    ensures e.eventName == action
    ensures e.category == (if category.Some? then category.value else "marketing")
    ensures e.timestamp == timestamp && e.page == page && e.userAgent == userAgent
    ensures action == "cta_click" ==> e.value == Some("high_intent")
    ensures action == "pricing_view" ==> e.value == Some("consideration")
    ensures action == "contact_form_submit" ==> e.value == Some("lead_generation")
    ensures action == "demo_request" ==> e.value == Some("qualified_lead")
    ensures e.value.Some? <==> action in TaggedActions
  {
    var cat := if category.Some? then category.value else "marketing";
    e := ConversionEvent(action, cat, timestamp, page, userAgent, None);
    if action == "cta_click" {
      e := e.(value := Some("high_intent"));
    } else if action == "pricing_view" {
      e := e.(value := Some("consideration"));
    } else if action == "contact_form_submit" {
      e := e.(value := Some("lead_generation"));
    } else if action == "demo_request" {
      e := e.(value := Some("qualified_lead"));
    }
  }

  // ===========================================================================
  // Lead scoring (calculateLeadScore)

  const Scoring: map<string, nat> := map[
    "page_view" := 1,
    "pricing_view" := 15,
    "case_study_view" := 10,
    "cta_click" := 25,
    "demo_request" := 50,
    "contact_form_submit" := 75,
    "pricing_inquiry" := 40,
    "enterprise_interest" := 60]

  /** `scoring[action] || 0` for the table's own entries. */
  function Weight(action: string): nat {
    if action in Scoring then Scoring[action] else 0
  }

  /** The sum of the weights of `actions`, the list read left to right. */
  function ScoreOf(actions: seq<string>): nat {
    if actions == [] then 0
    else ScoreOf(actions[..|actions| - 1]) + Weight(actions[|actions| - 1])
  }

  datatype Qualification = Visitor | Interested | Qualified {
    function Name(): string {
      match this
      case Visitor => "visitor"
      case Interested => "interested"
      case Qualified => "qualified"
    }

    function Rank(): nat {
      match this
      case Visitor => 0
      case Interested => 1
      case Qualified => 2
    }
  }

  /** The qualification tier of a score. */
  function Qualify(score: int): (q: Qualification)
    ensures q == Qualified <==> score >= 50
    ensures q == Interested <==> 25 <= score < 50
    ensures q == Visitor <==> score < 25
  {
    if score >= 50 then Qualified else if score >= 25 then Interested else Visitor
  }

  datatype LeadScore = LeadScore(score: int, qualification: Qualification, timestamp: string)

  method CalculateLeadScore(actions: seq<string>, timestamp: string) returns (r: LeadScore)
    ensures r.score == ScoreOf(actions)
    ensures r.qualification == Qualify(ScoreOf(actions))
    ensures r.timestamp == timestamp
  {
    var score := 0;
    for i := 0 to |actions|
      invariant score == ScoreOf(actions[..i])
    {
      assert actions[..i + 1][..i] == actions[..i];
      score := score + Weight(actions[i]);
    }
    assert actions[..|actions|] == actions;
    r := LeadScore(score, Qualify(score), timestamp);
  }

  lemma {:induction false} ScoreOfAppend(a: seq<string>, b: seq<string>)
    ensures ScoreOf(a + b) == ScoreOf(a) + ScoreOf(b)
    decreases |b|
  {
    if b == [] {
      assert a + b == a;
    } else {
      var b' := b[..|b| - 1];
      assert (a + b)[..|a + b| - 1] == a + b';
      assert (a + b)[|a + b| - 1] == b[|b| - 1];
      ScoreOfAppend(a, b');
    }
  }

  /** The score does not depend on the order of the actions. */
  lemma {:induction false} ScoreOfPermutation(s: seq<string>, t: seq<string>)
    requires multiset(s) == multiset(t)
    ensures ScoreOf(s) == ScoreOf(t)
    decreases |s|
  {
    if s == [] {
      assert |t| == |multiset(t)| == 0;
    } else {
      var x := s[|s| - 1];
      var s' := s[..|s| - 1];
      assert s == s' + [x];
      assert x in multiset(t);
      var j :| 0 <= j < |t| && t[j] == x;
      var t' := t[..j] + t[j + 1..];
      assert t == t[..j] + [x] + t[j + 1..];
      assert multiset(t) == multiset(t[..j]) + multiset([x]) + multiset(t[j + 1..]);
      assert multiset(s) == multiset(s') + multiset([x]);
      assert multiset(t') == multiset(t[..j]) + multiset(t[j + 1..]);
      assert multiset(t) == multiset(t') + multiset([x]);
      assert forall y :: multiset(s')[y] == multiset(t')[y] by {
        forall y ensures multiset(s')[y] == multiset(t')[y] {
          assert multiset(s)[y] == multiset(s')[y] + multiset([x])[y];
          assert multiset(t)[y] == multiset(t')[y] + multiset([x])[y];
        }
      }
      assert multiset(s') == multiset(t');
      ScoreOfPermutation(s', t');
      ScoreOfAppend(t[..j], [x]);
      ScoreOfAppend(t[..j] + [x], t[j + 1..]);
      ScoreOfAppend(t[..j], t[j + 1..]);
      assert [x][..0] == [];
    }
  }

  /** An action missing from the table, inserted anywhere, leaves the score alone. */
  lemma UnknownActionScoresZero(s: seq<string>, k: nat, a: string)
    requires k <= |s| && a !in Scoring
    ensures ScoreOf(s[..k] + [a] + s[k..]) == ScoreOf(s)
  {
    ScoreOfAppend(s[..k], [a]);
    ScoreOfAppend(s[..k] + [a], s[k..]);
    ScoreOfAppend(s[..k], s[k..]);
    assert [a][..0] == [];
    assert s[..k] + s[k..] == s;
  }

  /** Every weight is non-negative, so more actions never lower the score. */
  lemma AppendingNeverLowersScore(s: seq<string>, more: seq<string>)
    ensures ScoreOf(s + more) >= ScoreOf(s)
  {
    ScoreOfAppend(s, more);
  }

  lemma QualifyMonotone(a: int, b: int)
    requires a <= b
    ensures Qualify(a).Rank() <= Qualify(b).Rank()
  {
  }

  // The score as the source computes it when an action names a member of
  // Object.prototype: `scoring[action]` is then a function, `0 + f` turns the
  // running score into a string and every later `+=` concatenates.

  datatype JsScore = Numeric(n: int) | NonNumericText

  function LeadScoreAsWritten(actions: seq<string>): JsScore {
    if actions == [] then Numeric(0)
    else
      var prev := LeadScoreAsWritten(actions[..|actions| - 1]);
      var a := actions[|actions| - 1];
      if prev.NonNumericText? || a in ObjectPrototypeMembers then NonNumericText
      else Numeric(prev.n + Weight(a))
  }

  /** `score >= 50` on a non-numeric string compares NaN and is false. */
  function QualifyAsWritten(s: JsScore): Qualification {
    match s
    case Numeric(n) => Qualify(n)
    case NonNumericText => Visitor
  }

  lemma {:induction false} AsWrittenScoreAgreesOffPrototype(actions: seq<string>)
    requires forall i :: 0 <= i < |actions| ==> actions[i] !in ObjectPrototypeMembers
    ensures LeadScoreAsWritten(actions) == Numeric(ScoreOf(actions))
    decreases |actions|
  {
    if actions != [] {
      AsWrittenScoreAgreesOffPrototype(actions[..|actions| - 1]);
    }
  }

  lemma InheritedActionBreaksLeadScore()
    ensures LeadScoreAsWritten(["demo_request", "constructor"]) == NonNumericText
    ensures QualifyAsWritten(LeadScoreAsWritten(["demo_request", "constructor"])) == Visitor
    ensures ScoreOf(["demo_request", "constructor"]) == 50
    ensures Qualify(ScoreOf(["demo_request", "constructor"])) == Qualified
  {
    var s := ["demo_request", "constructor"];
    assert s[..|s| - 1] == ["demo_request"];
    assert ["demo_request"][..0] == [];
  }

  // ===========================================================================
  // Campaign attribution (trackSource)

  datatype Attribution = Attribution(
    utmSource: Option<string>,
    utmMedium: Option<string>,
    utmCampaign: Option<string>,
    utmContent: Option<string>,
    utmTerm: Option<string>,
    referrer: string,
    landingPage: string,
    timestamp: string)

  /** What sessionStorage holds: a raw string, or the attribution record that
      `JSON.stringify` serialised. */
  datatype SessionValue = Text(text: string) | AttributionJson(record: Attribution)

  const AttributionKey := "marketing_attribution"

  /** The record literal: every UTM field is what `URLSearchParams.get` finds. */
  function AttributionFrom(search: QueryParams, referrer: string, landingPage: string,
                           timestamp: string): (a: Attribution)
    ensures IsFirstValue(search, "utm_source", a.utmSource)
    ensures IsFirstValue(search, "utm_medium", a.utmMedium)
    ensures IsFirstValue(search, "utm_campaign", a.utmCampaign)
    ensures IsFirstValue(search, "utm_content", a.utmContent)
    ensures IsFirstValue(search, "utm_term", a.utmTerm)
    ensures a.referrer == referrer && a.landingPage == landingPage && a.timestamp == timestamp
  {
    Attribution(
      QueryGet(search, "utm_source"),
      QueryGet(search, "utm_medium"),
      QueryGet(search, "utm_campaign"),
      QueryGet(search, "utm_content"),
      QueryGet(search, "utm_term"),
      referrer, landingPage, timestamp)
  }

  method TrackSource(session: WebStorage<SessionValue>, search: QueryParams,
                     referrer: string, landingPage: string, timestamp: string)
    returns (a: Attribution)
    modifies session
    ensures a == AttributionFrom(search, referrer, landingPage, timestamp)
    ensures session.items == old(session.items)[AttributionKey := AttributionJson(a)]
  {
    a := AttributionFrom(search, referrer, landingPage, timestamp);
    session.SetItem(AttributionKey, AttributionJson(a));
  }

  lemma GoogleCpcAttribution(referrer: string, landingPage: string, timestamp: string)
    ensures var a := AttributionFrom([("utm_source", "google"), ("utm_medium", "cpc")],
                                     referrer, landingPage, timestamp);
            && a.utmSource == Some("google") && a.utmMedium == Some("cpc")
            && a.utmCampaign.None? && a.utmContent.None? && a.utmTerm.None?
  {
    var q := [("utm_source", "google"), ("utm_medium", "cpc")];
    assert q[0].0 != "utm_medium";
  }

  // ===========================================================================
  // A/B assignment (initializeABTesting)

  datatype ABTest = ABTest(name: string, variants: seq<string>, current: string)

  const ABTests: seq<ABTest> := [
    ABTest("hero_cta",
           ["Start Free Assessment", "Get Security Audit", "Begin AI Testing"],
           "Start Free Assessment"),
    ABTest("pricing_display", ["monthly", "per_assessment"], "per_assessment")]

  function TestKey(name: string): string {
    "ab_test_" + name
  }

  lemma TestKeyInjective(a: string, b: string)
    requires TestKey(a) == TestKey(b)
    ensures a == b
  {
    assert a == TestKey(a)[8..];
    assert b == TestKey(b)[8..];
  }

  ghost predicate DistinctNames(tests: seq<ABTest>) {
    forall i, j :: 0 <= i < j < |tests| ==> tests[i].name != tests[j].name
  }

  /** `picks[i]` stands for `Math.floor(Math.random() * variants.length)` of test i. */
  ghost predicate PicksInRange(tests: seq<ABTest>, picks: seq<nat>) {
    |picks| == |tests| && forall i :: 0 <= i < |tests| ==> picks[i] < |tests[i].variants|
  }

  /** The storage entries the assignment loop writes, in order. */
  function Assigned(tests: seq<ABTest>, picks: seq<nat>): map<string, SessionValue>
    requires PicksInRange(tests, picks)
  {
    if tests == [] then map[]
    else
      var n := |tests| - 1;
      Assigned(tests[..n], picks[..n])[TestKey(tests[n].name) := Text(tests[n].variants[picks[n]])]
  }

  lemma {:induction false} AssignedKeys(tests: seq<ABTest>, picks: seq<nat>)
    requires PicksInRange(tests, picks)
    ensures Assigned(tests, picks).Keys == set i | 0 <= i < |tests| :: TestKey(tests[i].name)
    decreases |tests|
  {
    if tests != [] {
      var n := |tests| - 1;
      AssignedKeys(tests[..n], picks[..n]);
      assert (set i | 0 <= i < |tests| :: TestKey(tests[i].name))
          == (set i | 0 <= i < n :: TestKey(tests[..n][i].name)) + {TestKey(tests[n].name)};
    }
  }

  lemma KeyOfLastIsNew(tests: seq<ABTest>, picks: seq<nat>)
    requires tests != [] && DistinctNames(tests) && PicksInRange(tests, picks)
    ensures TestKey(tests[|tests| - 1].name) !in Assigned(tests[..|tests| - 1], picks[..|tests| - 1])
  {
    var n := |tests| - 1;
    AssignedKeys(tests[..n], picks[..n]);
    var k := TestKey(tests[n].name);
    forall i | 0 <= i < n ensures TestKey(tests[..n][i].name) != k {
      if TestKey(tests[i].name) == k {
        TestKeyInjective(tests[i].name, tests[n].name);
      }
    }
  }

  /** One entry per test, holding a member of that test's variant list: the one picked. */
  lemma {:induction false} AssignedSpec(tests: seq<ABTest>, picks: seq<nat>)
    requires DistinctNames(tests) && PicksInRange(tests, picks)
    ensures |Assigned(tests, picks)| == |tests|
    ensures forall i :: 0 <= i < |tests| ==>
              && TestKey(tests[i].name) in Assigned(tests, picks)
              && Assigned(tests, picks)[TestKey(tests[i].name)] == Text(tests[i].variants[picks[i]])
              && tests[i].variants[picks[i]] in tests[i].variants
    decreases |tests|
  {
    if tests != [] {
      var n := |tests| - 1;
      AssignedSpec(tests[..n], picks[..n]);
      KeyOfLastIsNew(tests, picks);
      forall i | 0 <= i < n ensures TestKey(tests[i].name) != TestKey(tests[n].name) {
        if TestKey(tests[i].name) == TestKey(tests[n].name) {
          TestKeyInjective(tests[i].name, tests[n].name);
        }
      }
      assert forall i :: 0 <= i < n ==> tests[..n][i] == tests[i] && picks[..n][i] == picks[i];
    }
  }

  /** Assignment is not sticky: a second run overwrites every key of the first. */
  lemma ReassignmentOverwrites(m: map<string, SessionValue>, tests: seq<ABTest>,
                               first: seq<nat>, second: seq<nat>)
    requires DistinctNames(tests) && PicksInRange(tests, first) && PicksInRange(tests, second)
    ensures (m + Assigned(tests, first)) + Assigned(tests, second) == m + Assigned(tests, second)
  {
    AssignedKeys(tests, first);
    AssignedKeys(tests, second);
  }

  lemma ABTestsWellFormed()
    ensures DistinctNames(ABTests)
    ensures forall i :: 0 <= i < |ABTests| ==> |ABTests[i].variants| > 0
  {
  }

  method InitializeABTesting(session: WebStorage<SessionValue>, tests: seq<ABTest>, picks: seq<nat>)
    requires PicksInRange(tests, picks)
    modifies session
    ensures session.items == old(session.items) + Assigned(tests, picks)
  {
    for i := 0 to |tests|
      invariant session.items == old(session.items) + Assigned(tests[..i], picks[..i])
    {
      assert tests[..i + 1][..i] == tests[..i];
      assert picks[..i + 1][..i] == picks[..i];
      var variant := tests[i].variants[picks[i]];
      session.SetItem(TestKey(tests[i].name), Text(variant));
    }
    assert tests[..|tests|] == tests;
    assert picks[..|picks|] == picks;
  }

  // ===========================================================================
  // Behaviour tracking (initializeBehaviorTracking)

  /** The click target: its `tagName` (upper case for HTML elements), its classes
      and its `textContent`. */
  datatype Element = Element(tagName: string, classes: set<string>, textContent: string)

  /** `matches('a, button, .cta-button, .pricing-card')` */
  predicate IsTrackedTarget(e: Element) {
    e.tagName == "A" || e.tagName == "BUTTON" ||
    "cta-button" in e.classes || "pricing-card" in e.classes
  }

  /** `matches('.cta-button, .primary-cta, .secondary-cta')` */
  predicate IsCtaTarget(e: Element) {
    "cta-button" in e.classes || "primary-cta" in e.classes || "secondary-cta" in e.classes
  }

  /** The characters `String.prototype.trim` removes. */
  predicate IsJsWhitespace(c: char) {
    c == ' ' || c == '\t' || c == '\n' || c == '\r' || c == '\U{000B}' || c == '\U{000C}' ||
    c == '\U{00A0}' || c == '\U{1680}' || ('\U{2000}' <= c <= '\U{200A}') ||
    c == '\U{2028}' || c == '\U{2029}' || c == '\U{202F}' || c == '\U{205F}' ||
    c == '\U{3000}' || c == '\U{FEFF}'
  }

  function TrimStart(s: string): (r: string)
    ensures |r| <= |s| && r == s[|s| - |r|..]
    ensures forall k :: 0 <= k < |s| - |r| ==> IsJsWhitespace(s[k])
    ensures r != [] ==> !IsJsWhitespace(r[0])
  {
    if s != [] && IsJsWhitespace(s[0]) then TrimStart(s[1..]) else s
  }

  function TrimEnd(s: string): (r: string)
    ensures |r| <= |s| && r == s[..|r|]
    ensures forall k :: |r| <= k < |s| ==> IsJsWhitespace(s[k])
    ensures r != [] ==> !IsJsWhitespace(r[|r| - 1])
  {
    if s != [] && IsJsWhitespace(s[|s| - 1]) then TrimEnd(s[..|s| - 1]) else s
  }

  /** `r` sits in `s` at `i`, and everything of `s` before and after it is
      whitespace. */
  ghost predicate TrimmedAt(s: string, r: string, i: int) {
    && OccursAt(s, r, i)
    && (forall k :: 0 <= k < i ==> IsJsWhitespace(s[k]))
    && (forall k :: i + |r| <= k < |s| ==> IsJsWhitespace(s[k]))
  }

  /** `s.trim()`: `s` without its leading and trailing whitespace, so a block
      of `s` with no whitespace at either end and only whitespace around it. */
  function Trim(s: string): (r: string)
    ensures exists i :: TrimmedAt(s, r, i)
    ensures r != [] ==> !IsJsWhitespace(r[0]) && !IsJsWhitespace(r[|r| - 1])
  {
    var t := TrimStart(s);
    var r := TrimEnd(t);
    TrimmedBlock(s, t, r);
    r
  }

  /** A whitespace-trailed prefix `r` of a whitespace-led suffix `t` of `s` is
      `s` trimmed at the start of `t`. */
  lemma TrimmedBlock(s: string, t: string, r: string)
    requires |t| <= |s| && t == s[|s| - |t|..]
    requires forall k :: 0 <= k < |s| - |t| ==> IsJsWhitespace(s[k])
    requires |r| <= |t| && r == t[..|r|]
    requires forall k :: |r| <= k < |t| ==> IsJsWhitespace(t[k])
    ensures TrimmedAt(s, r, |s| - |t|)
  {
    var i := |s| - |t|;
    assert s[i..i + |r|] == s[i..][..|r|];
    forall k | i + |r| <= k < |s|
      ensures IsJsWhitespace(s[k])
    {
      assert s[k] == t[k - i];
    }
  }

  /** `textContent.trim().substring(0, 50)` */
  function Snippet(text: string): (r: string)
    ensures |r| == if |Trim(text)| <= 50 then |Trim(text)| else 50
    ensures r == Trim(text)[..|r|]
    ensures |Trim(text)| <= 50 ==> r == Trim(text)
  {
    var t := Trim(text);
    if |t| <= 50 then t else t[..50]
  }

  datatype ClickEntry = ClickEntry(element: string, text: string, timestamp: int)

  function Max(a: int, b: int): int {
    if a >= b then a else b
  }

  /** `scroll_depth` after the listener has seen `ps`, starting from `d`. */
  function ScrollDepthAfter(d: int, ps: seq<int>): int {
    if ps == [] then d else Max(ScrollDepthAfter(d, ps[..|ps| - 1]), ps[|ps| - 1])
  }

  /** From the initial 0, the depth is the maximum of 0 and every reported percentage. */
  lemma {:induction false} ScrollDepthIsMaximum(d: int, ps: seq<int>)
    ensures ScrollDepthAfter(d, ps) >= d
    ensures forall i :: 0 <= i < |ps| ==> ScrollDepthAfter(d, ps) >= ps[i]
    ensures ScrollDepthAfter(d, ps) == d || exists i :: 0 <= i < |ps| && ScrollDepthAfter(d, ps) == ps[i]
    decreases |ps|
  {
    if ps != [] {
      var n := |ps| - 1;
      ScrollDepthIsMaximum(d, ps[..n]);
      assert forall i :: 0 <= i < n ==> ps[..n][i] == ps[i];
    }
  }

  /** Feeding more scroll events never lowers the depth. */
  lemma {:induction false} ScrollDepthNeverDecreases(d: int, ps: seq<int>, more: seq<int>)
    ensures ScrollDepthAfter(d, ps + more) >= ScrollDepthAfter(d, ps)
    decreases |more|
  {
    if more == [] {
      assert ps + more == ps;
    } else {
      var n := |more| - 1;
      assert (ps + more)[..|ps + more| - 1] == ps + more[..n];
      ScrollDepthNeverDecreases(d, ps, more[..n]);
    }
  }

  datatype Click = Click(target: Element, now: int)

  function EntryFor(c: Click): ClickEntry {
    ClickEntry(c.target.tagName, Snippet(c.target.textContent), c.now)
  }

  /** The click log after the listener has seen `cs`, starting from `log`. */
  function ClickLogAfter(log: seq<ClickEntry>, cs: seq<Click>): seq<ClickEntry> {
    if cs == [] then log
    else
      var prev := ClickLogAfter(log, cs[..|cs| - 1]);
      if IsTrackedTarget(cs[|cs| - 1].target) then prev + [EntryFor(cs[|cs| - 1])] else prev
  }

  function CountTracked(cs: seq<Click>): nat {
    if cs == [] then 0
    else CountTracked(cs[..|cs| - 1]) + if IsTrackedTarget(cs[|cs| - 1].target) then 1 else 0
  }

  /** Earlier entries stay as they were and each tracked click adds exactly one entry. */
  lemma {:induction false} ClickLogGrowth(log: seq<ClickEntry>, cs: seq<Click>)
    ensures |ClickLogAfter(log, cs)| == |log| + CountTracked(cs)
    ensures ClickLogAfter(log, cs)[..|log|] == log
    decreases |cs|
  {
    if cs != [] {
      var n := |cs| - 1;
      ClickLogGrowth(log, cs[..n]);
      var prev := ClickLogAfter(log, cs[..n]);
      if IsTrackedTarget(cs[n].target) {
        assert (prev + [EntryFor(cs[n])])[..|log|] == prev[..|log|];
      }
    }
  }

  /** `e` is the entry some tracked click of `cs` produced. */
  ghost predicate FromTrackedClick(e: ClickEntry, cs: seq<Click>) {
    exists i :: 0 <= i < |cs| && IsTrackedTarget(cs[i].target) && e == EntryFor(cs[i])
  }

  lemma FromTrackedClickExtends(e: ClickEntry, cs: seq<Click>, n: nat)
    requires n <= |cs| && FromTrackedClick(e, cs[..n])
    ensures FromTrackedClick(e, cs)
  {
    var i :| 0 <= i < n && IsTrackedTarget(cs[..n][i].target) && e == EntryFor(cs[..n][i]);
    assert cs[..n][i] == cs[i];
  }

  /** Every entry after the initial log is the entry of some tracked click. */
  lemma {:induction false} ClickLogEntries(log: seq<ClickEntry>, cs: seq<Click>)
    ensures forall j :: |log| <= j < |ClickLogAfter(log, cs)| ==> FromTrackedClick(ClickLogAfter(log, cs)[j], cs)
    decreases |cs|
  {
    if cs == [] {
      assert ClickLogAfter(log, cs) == log;
    } else {
      var n := |cs| - 1;
      ClickLogEntries(log, cs[..n]);
      var prev := ClickLogAfter(log, cs[..n]);
      var after := ClickLogAfter(log, cs);
      assert after == if IsTrackedTarget(cs[n].target) then prev + [EntryFor(cs[n])] else prev;
      forall j | |log| <= j < |after|
        ensures FromTrackedClick(after[j], cs)
      {
        if j < |prev| {
          assert after[j] == prev[j];
          FromTrackedClickExtends(prev[j], cs, n);
        } else {
          assert IsTrackedTarget(cs[n].target) && after[j] == EntryFor(cs[n]);
        }
      }
    }
  }

  /** The click log in one statement: growth by tracked clicks only, earlier
      entries kept, and every new entry built from a tracked click with a text
      of at most 50 characters. */
  lemma ClickLogSpec(log: seq<ClickEntry>, cs: seq<Click>)
    ensures |ClickLogAfter(log, cs)| == |log| + CountTracked(cs)
    ensures ClickLogAfter(log, cs)[..|log|] == log
    ensures forall j :: |log| <= j < |ClickLogAfter(log, cs)| ==>
              |ClickLogAfter(log, cs)[j].text| <= 50 && FromTrackedClick(ClickLogAfter(log, cs)[j], cs)
  {
    ClickLogGrowth(log, cs);
    ClickLogEntries(log, cs);
  }

  class BehaviorTracker {
    var scrollDepth: int
    var timeOnPage: int
    var clicks: seq<ClickEntry>
    var formInteractions: seq<string>

    /** The `behaviorData` record; `now` is `Date.now()`. */
    constructor (now: int)
      ensures scrollDepth == 0 && timeOnPage == now
      ensures clicks == [] && formInteractions == []
    {
      scrollDepth := 0;
      timeOnPage := now;
      clicks := [];
      formInteractions := [];
    }

    /** The scroll listener; `percent` is the rounded scroll percentage. */
    method OnScroll(percent: int)
      modifies this`scrollDepth
      ensures scrollDepth == Max(old(scrollDepth), percent)
      ensures scrollDepth >= old(scrollDepth)
    {
      scrollDepth := Max(scrollDepth, percent);
    }

    /** The click listener. A tracked target appends one entry; a tracked
        call-to-action also raises a `cta_click` conversion. */
    method OnClick(target: Element, now: int, timestamp: string, page: string, userAgent: string)
      returns (conversion: Option<ConversionEvent>)
      modifies this`clicks
      ensures clicks == if IsTrackedTarget(target)
                        then old(clicks) + [EntryFor(Click(target, now))]
                        else old(clicks)
      ensures clicks[..|old(clicks)|] == old(clicks)
      ensures conversion.Some? <==> IsTrackedTarget(target) && IsCtaTarget(target)
      ensures conversion.Some? ==>
                && conversion.value.eventName == "cta_click"
                && conversion.value.category == "engagement"
                && conversion.value.value == Some("high_intent")
    {
      conversion := None;
      if IsTrackedTarget(target) {
        clicks := clicks + [ClickEntry(target.tagName, Snippet(target.textContent), now)];
        if IsCtaTarget(target) {
          var e := TrackConversion("cta_click", Some("engagement"), timestamp, page, userAgent);
          conversion := Some(e);
        }
      }
    }
  }
}

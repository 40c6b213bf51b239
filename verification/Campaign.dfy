/** Campaign calendar, phases, and the polling posture in force at an instant. */
module Campaign {
  import opened Domain
  import opened Orders
  import Text

  const MINUTE: int := 60
  const MAX_OFFSET_MINUTES: int := 365 * 24 * 60
  const U64_MAX: nat := 0xFFFF_FFFF_FFFF_FFFF

  /** The representable instants. */
  const MIN_INSTANT: Instant := -8334601228800
  const MAX_INSTANT: Instant := 8210266876799

  datatype PollProfile = Normal | PreCampaign | CampaignActive | Recovery {
    function Priority(): nat {
      match this
      case CampaignActive => 3
      case PreCampaign => 2
      case Recovery => 1
      case Normal => 0
    }

    function DefaultPosture(): PollPosture {
      match this
      case Normal => PollPosture(100, 30, 3600)
      case PreCampaign => PollPosture(50, 20, 900)
      case CampaignActive => PollPosture(25, 10, 300)
      case Recovery => PollPosture(200, 60, 7200)
    }
  }

  datatype PollPosture = PollPosture(intervalPercent: nat, minIntervalSecs: nat, maxIntervalSecs: nat) {
    function CeilingMs(): nat {
      (if maxIntervalSecs >= minIntervalSecs then maxIntervalSecs else minIntervalSecs) * 1000
    }

    /** Scales a base interval in milliseconds and clamps it. */
    function Apply(base: nat): nat {
      var scaled := base * intervalPercent / 100;
      var floor, ceiling := minIntervalSecs * 1000, CeilingMs();
      var clamped := if scaled < floor then floor else if scaled > ceiling then ceiling else scaled;
      if clamped <= U64_MAX then clamped else U64_MAX
    }

    predicate Valid() { 0 < intervalPercent && 0 < minIntervalSecs <= maxIntervalSecs }
  }

  datatype Window = Window(name: string, startAt: Instant, endAt: Instant, forced: Option<PollProfile>) {
    predicate Contains(now: Instant) { startAt <= now < endAt }
  }

  datatype SourceOverride = SourceOverride(enabled: Option<bool>, intervalPercent: Option<nat>)

  function Offset(base: Instant, minutes: int): Option<Instant> {
    var at := base + minutes * MINUTE;
    if MIN_INSTANT <= at <= MAX_INSTANT then Some(at) else None
  }

  datatype Campaign = Campaign(
    id: string, name: string, startAt: Instant, endAt: Instant, enabled: bool, leadMinutes: int, recoveryMinutes: int,
    windows: seq<Window>, overrides: map<string, SourceOverride>, pollProfile: Option<PollProfile>)
  {
    function WarmupStart(): Instant { Offset(startAt, -leadMinutes).GetOr(startAt) }

    function RecoveryEnd(): Instant { Offset(endAt, recoveryMinutes).GetOr(endAt) }

    function Phase(now: Instant): Option<PollProfile> {
      if !enabled then None
      else if startAt <= now < endAt then Some(pollProfile.GetOr(CampaignActive))
      else if WarmupStart() <= now < startAt then Some(PreCampaign)
      else if endAt <= now < RecoveryEnd() then Some(Recovery)
      else None
    }

    function HighInterestWindow(now: Instant): Option<Window> {
      if !enabled then None else FirstOpen(windows, now)
    }

    /** Nothing about this campaign would be reported. */
    ghost predicate Valid() {
      && Text.Trim(id) != "" && Text.Trim(name) != "" && startAt < endAt
      && 0 <= leadMinutes <= MAX_OFFSET_MINUTES && 0 <= recoveryMinutes <= MAX_OFFSET_MINUTES
      && (forall i | 0 <= i < |windows| ::
            windows[i].startAt < windows[i].endAt && startAt <= windows[i].startAt && windows[i].endAt <= endAt)
      && (forall s | s in overrides :: Text.Trim(s) != "" && overrides[s].intervalPercent != Some(0))
    }
  }

  function FirstOpen(windows: seq<Window>, now: Instant): (w: Option<Window>)
    ensures w.None? <==> forall i | 0 <= i < |windows| :: !windows[i].Contains(now)
    ensures w.Some? ==> exists i | 0 <= i < |windows| ::
              windows[i] == w.value && w.value.Contains(now) && forall j | 0 <= j < i :: !windows[j].Contains(now)
  {
    if windows == [] then None
    else if windows[0].Contains(now) then Some(windows[0])
    else FirstOpen(windows[1..], now)
  }

  datatype Calendar = Calendar(campaigns: seq<Campaign>, postures: map<PollProfile, PollPosture>) {
    /** What a calendar without a single reported problem looks like. */
    ghost predicate Valid() {
      && SoundUpTo(campaigns, |campaigns|)
      && (forall p | p in postures :: postures[p].Valid())
    }
  }

  /** The first campaigns are each valid, with pairwise distinct ids. */
  ghost predicate SoundUpTo(campaigns: seq<Campaign>, end: nat)
    requires end <= |campaigns|
  {
    && (forall i | 0 <= i < end :: campaigns[i].Valid())
    && (forall i, j | 0 <= i < j < end :: campaigns[i].id != campaigns[j].id)
  }

  lemma SoundStep(campaigns: seq<Campaign>, k: nat)
    requires k < |campaigns|
    ensures SoundUpTo(campaigns, k + 1)
       <==> SoundUpTo(campaigns, k) && campaigns[k].Valid()
            && !exists i | 0 <= i < k :: campaigns[i].id == campaigns[k].id
  {
  }

  // ----- validation -----

  datatype Issue =
    | BlankField(campaign: string, field: string) | InvalidCampaignWindow(campaign: string)
    | OffsetOutOfRange(campaign: string, field: string, value: int)
    | InvalidHighInterestWindow(campaign: string, window: string)
    | WindowOutsideCampaign(campaign: string, window: string) | BlankSourceOverride(campaign: string)
    | ZeroIntervalPercent(context: string) | DuplicateCampaign(id: string) | InvalidPostureBounds(profile: PollProfile)

  function When(wrong: bool, issue: Issue): seq<Issue> { if wrong then [issue] else [] }

  predicate InRange(minutes: int) { 0 <= minutes <= MAX_OFFSET_MINUTES }

  method ValidateWindows(c: Campaign, before: seq<Issue>) returns (issues: seq<Issue>)
    ensures before <= issues
    ensures issues == before <==> forall i | 0 <= i < |c.windows| ::
              c.windows[i].startAt < c.windows[i].endAt
              && c.startAt <= c.windows[i].startAt && c.windows[i].endAt <= c.endAt
  {
    issues := before;
    for k := 0 to |c.windows|
      invariant before <= issues
      invariant issues == before <==> forall i | 0 <= i < k ::
                  c.windows[i].startAt < c.windows[i].endAt
                  && c.startAt <= c.windows[i].startAt && c.windows[i].endAt <= c.endAt
    {
      var w := c.windows[k];
      if w.startAt >= w.endAt {
        issues := issues + [InvalidHighInterestWindow(c.id, w.name)];
        continue;
      }
      if w.startAt < c.startAt || w.endAt > c.endAt {
        issues := issues + [WindowOutsideCampaign(c.id, w.name)];
      }
    }
  }

  method ValidateOverrides(c: Campaign, before: seq<Issue>) returns (issues: seq<Issue>)
    ensures before <= issues
    ensures issues == before <==> forall s | s in c.overrides ::
              Text.Trim(s) != "" && c.overrides[s].intervalPercent != Some(0)
  {
    issues := before;
    var todo := c.overrides.Keys;
    while todo != {}
      invariant todo <= c.overrides.Keys && before <= issues
      invariant issues == before <==> forall s | s in c.overrides && s !in todo ::
                  Text.Trim(s) != "" && c.overrides[s].intervalPercent != Some(0)
      decreases todo
    {
      var source :| source in todo;
      issues := issues + When(Text.Trim(source) == "", BlankSourceOverride(c.id))
                + When(c.overrides[source].intervalPercent == Some(0), ZeroIntervalPercent(source));
      todo := todo - {source};
    }
  }

  method ValidateCampaign(c: Campaign, before: seq<Issue>) returns (issues: seq<Issue>)
    ensures before <= issues
    ensures issues == before <==> c.Valid()
  {
    var own := When(Text.Trim(c.id) == "", BlankField(c.id, "id"))
               + When(Text.Trim(c.name) == "", BlankField(c.id, "name"))
               + When(c.startAt >= c.endAt, InvalidCampaignWindow(c.id))
               + When(!InRange(c.leadMinutes), OffsetOutOfRange(c.id, "lead_minutes", c.leadMinutes))
               + When(!InRange(c.recoveryMinutes), OffsetOutOfRange(c.id, "recovery_minutes", c.recoveryMinutes));
    var scoped := ValidateWindows(c, before + own);
    issues := ValidateOverrides(c, scoped);
    assert issues == before ==> |issues| == |before| && scoped == before && own == [];
    assert own == [] ==> before + own == before;
  }

  method ValidatePostures(postures: map<PollProfile, PollPosture>, before: seq<Issue>) returns (issues: seq<Issue>)
    ensures before <= issues
    ensures issues == before <==> forall p | p in postures :: postures[p].Valid()
  {
    issues := before;
    var todo := postures.Keys;
    while todo != {}
      invariant todo <= postures.Keys && before <= issues
      invariant issues == before <==> forall p | p in postures && p !in todo :: postures[p].Valid()
      decreases todo
    {
      var profile :| profile in todo;
      var posture := postures[profile];
      issues := issues + When(posture.intervalPercent == 0, ZeroIntervalPercent("profile"))
                + When(posture.minIntervalSecs == 0 || posture.minIntervalSecs > posture.maxIntervalSecs,
                       InvalidPostureBounds(profile));
      todo := todo - {profile};
    }
  }

  /** Reports every problem at once; silent on exactly the valid calendars. */
  method Validate(calendar: Calendar) returns (issues: seq<Issue>)
    ensures issues == [] <==> calendar.Valid()
  {
    issues := [];
    var seen: set<string> := {};
    for k := 0 to |calendar.campaigns|
      invariant forall id :: id in seen <==> exists i | 0 <= i < k :: calendar.campaigns[i].id == id
      invariant issues == [] <==> SoundUpTo(calendar.campaigns, k)
    {
      var c := calendar.campaigns[k];
      SoundStep(calendar.campaigns, k);
      issues := ValidateCampaign(c, issues);
      issues := issues + When(c.id in seen, DuplicateCampaign(c.id));
      seen := seen + {c.id};
    }
    issues := ValidatePostures(calendar.postures, issues);
  }

  // ----- resolution -----

  datatype Governing = Governing(campaign: Campaign, profile: PollProfile)

  /** Most demanding profile, then earlier start, then smaller id. */
  predicate GoverningLeq(a: Governing, b: Governing) {
    a.profile.Priority() > b.profile.Priority()
    || (a.profile.Priority() == b.profile.Priority()
        && (a.campaign.startAt < b.campaign.startAt
            || (a.campaign.startAt == b.campaign.startAt && StringLeq(a.campaign.id, b.campaign.id))))
  }

  function OpinionAt(now: Instant): Campaign -> seq<Governing> {
    (c: Campaign) => if c.Phase(now).Some? then [Governing(c, c.Phase(now).value)] else []
  }

  function GoverningCampaign(calendar: Calendar, now: Instant): Option<Governing> {
    var sorted := SortBy(GoverningLeq, FlatMap(OpinionAt(now), calendar.campaigns));
    if sorted == [] then None else Some(sorted[0])
  }

  method FindGoverning(calendar: Calendar, now: Instant) returns (governing: Option<Governing>)
    ensures governing == GoverningCampaign(calendar, now)
  {
    var candidates: seq<Governing> := [];
    for k := 0 to |calendar.campaigns|
      invariant candidates == FlatMap(OpinionAt(now), calendar.campaigns[..k])
    {
      assert calendar.campaigns[..k + 1][..k] == calendar.campaigns[..k];
      var phase := calendar.campaigns[k].Phase(now);
      if phase.Some? {
        candidates := candidates + [Governing(calendar.campaigns[k], phase.value)];
      }
    }
    assert calendar.campaigns[..|calendar.campaigns|] == calendar.campaigns;
    candidates := SortBy(GoverningLeq, candidates);
    governing := if candidates == [] then None else Some(candidates[0]);
  }

  datatype CampaignPosture = CampaignPosture(
    profile: PollProfile, posture: PollPosture, campaignId: Option<string>, highInterest: bool,
    windowName: Option<string>)

  function PostureIn(postures: map<PollProfile, PollPosture>, profile: PollProfile): PollPosture {
    if profile in postures then postures[profile] else profile.DefaultPosture()
  }

  /** The decision once it is known who governs. */
  function Decide(
      governing: Option<Governing>, postures: map<PollProfile, PollPosture>, now: Instant): CampaignPosture {
    match governing
    case None => CampaignPosture(Normal, PostureIn(postures, Normal), None, false, None)
    case Some(g) =>
      var window := g.campaign.HighInterestWindow(now);
      var profile := if window.Some? && window.value.forced.Some? then window.value.forced.value else g.profile;
      CampaignPosture(profile, PostureIn(postures, profile), Some(g.campaign.id), window.Some?,
                      if window.Some? then Some(window.value.name) else None)
  }

  function Resolve(calendar: Calendar, now: Instant): CampaignPosture {
    Decide(GoverningCampaign(calendar, now), calendar.postures, now)
  }

  function Overridden(governing: Option<Governing>, source: string, posture: PollPosture): Option<PollPosture> {
    match governing
    case None => Some(posture)
    case Some(g) =>
      if source !in g.campaign.overrides then Some(posture)
      else
        var o := g.campaign.overrides[source];
        if o.enabled == Some(false) then None
        else if o.intervalPercent.Some? && o.intervalPercent.value > 0 then
          Some(posture.(intervalPercent := o.intervalPercent.value))
        else Some(posture)
  }

  /** The posture for one source, `None` when the governing campaign turns the source off. */
  function SourcePosture(calendar: Calendar, source: string, now: Instant): Option<PollPosture> {
    Overridden(GoverningCampaign(calendar, now), source, Resolve(calendar, now).posture)
  }
}

/** What a validated calendar guarantees. */
module CampaignProperties {
  import opened Domain
  import opened Orders
  import opened Campaign
  import Text

  /** Warm-up, active and recovery follow each other without gap or overlap, and cover the campaign's whole time. */
  lemma PhasesConsecutive(c: Campaign, now: Instant)
    requires c.Valid() && c.enabled
    ensures c.WarmupStart() <= c.startAt < c.endAt <= c.RecoveryEnd()
    ensures c.Phase(now).Some? <==> c.WarmupStart() <= now < c.RecoveryEnd()
    ensures c.WarmupStart() <= now < c.startAt ==> c.Phase(now) == Some(PreCampaign)
    ensures c.startAt <= now < c.endAt ==> c.Phase(now) == Some(c.pollProfile.GetOr(CampaignActive))
    ensures c.endAt <= now < c.RecoveryEnd() ==> c.Phase(now) == Some(Recovery)
  {
  }

  /** A high-interest window is only ever open while its campaign is active. */
  lemma WindowOnlyWhileActive(c: Campaign, now: Instant)
    requires c.Valid() && c.HighInterestWindow(now).Some?
    ensures c.startAt <= now < c.endAt && c.Phase(now).Some?
  {
    var w := c.HighInterestWindow(now).value;
    var i :| 0 <= i < |c.windows| && c.windows[i] == w;
  }

  lemma GoverningOrder()
    ensures TotalPreorder(GoverningLeq)
  {
    StringOrders();
  }

  lemma {:induction false} OpinionMember(campaigns: seq<Campaign>, now: Instant, g: Governing)
    ensures g in FlatMap(OpinionAt(now), campaigns)
            <==> g.campaign in campaigns && g.campaign.Phase(now) == Some(g.profile)
  {
    if campaigns != [] {
      var last := |campaigns| - 1;
      OpinionMember(campaigns[..last], now, g);
      assert g.campaign in campaigns <==> g.campaign in campaigns[..last] || g.campaign == campaigns[last];
    }
  }

  /** `g` has an opinion now and no campaign with an opinion comes before it. */
  ghost predicate Governs(campaigns: seq<Campaign>, now: Instant, g: Governing) {
    && g.campaign in campaigns && g.campaign.Phase(now) == Some(g.profile)
    && forall c | c in campaigns && c.Phase(now).Some? :: GoverningLeq(g, Governing(c, c.Phase(now).value))
  }

  /**
   * The governing campaign is one with an opinion that no other with an opinion outranks; there is none only if nobody
   * has one.
   */
  lemma GoverningIsBest(calendar: Calendar, now: Instant)
    ensures match GoverningCampaign(calendar, now)
            case Some(g) => Governs(calendar.campaigns, now, g)
            case None => forall c | c in calendar.campaigns :: c.Phase(now).None?
  {
    var opinions := FlatMap(OpinionAt(now), calendar.campaigns);
    var sorted := SortBy(GoverningLeq, opinions);
    GoverningOrder();
    SortBySorts(GoverningLeq, opinions);
    forall c | c in calendar.campaigns && c.Phase(now).Some?
      ensures sorted != [] && GoverningLeq(sorted[0], Governing(c, c.Phase(now).value))
    {
      var g := Governing(c, c.Phase(now).value);
      OpinionMember(calendar.campaigns, now, g);
      assert g in multiset(sorted);
      var i :| 0 <= i < |sorted| && sorted[i] == g;
      assert i == 0 || GoverningLeq(sorted[0], sorted[i]);
      GoverningReflexive(g);
    }
    if sorted != [] {
      assert sorted[0] in multiset(opinions);
      OpinionMember(calendar.campaigns, now, sorted[0]);
    }
  }

  lemma GoverningReflexive(g: Governing)
    ensures GoverningLeq(g, g)
  {
    StringOrders();
  }

  lemma GovernsUnique(campaigns: seq<Campaign>, now: Instant, g: Governing, h: Governing)
    requires Governs(campaigns, now, g) && Governs(campaigns, now, h)
    requires forall c, d | c in campaigns && d in campaigns && c.id == d.id :: c == d
    ensures g == h
  {
    StringOrders();
    assert GoverningLeq(g, Governing(h.campaign, h.profile)) && GoverningLeq(h, Governing(g.campaign, g.profile));
  }

  lemma ValidIdsDistinct(a: Calendar, c: Campaign, d: Campaign)
    requires a.Valid() && c in a.campaigns && d in a.campaigns && c.id == d.id
    ensures c == d
  {
    var i :| 0 <= i < |a.campaigns| && a.campaigns[i] == c;
    var j :| 0 <= j < |a.campaigns| && a.campaigns[j] == d;
    assert i == j;
  }

  lemma GoverningOrderFree(a: Calendar, b: Calendar, now: Instant)
    requires a.Valid() && multiset(a.campaigns) == multiset(b.campaigns)
    ensures GoverningCampaign(a, now) == GoverningCampaign(b, now)
  {
    GoverningIsBest(a, now);
    GoverningIsBest(b, now);
    SameMembers(a.campaigns, b.campaigns);
    match (GoverningCampaign(a, now), GoverningCampaign(b, now))
    case (Some(g), Some(h)) =>
      assert Governs(a.campaigns, now, h);
      forall c, d | c in a.campaigns && d in a.campaigns && c.id == d.id ensures c == d { ValidIdsDistinct(a, c, d); }
      GovernsUnique(a.campaigns, now, g, h);
    case _ =>
  }

  lemma SameMembers<T(!new)>(a: seq<T>, b: seq<T>)
    requires multiset(a) == multiset(b)
    ensures forall x :: x in a <==> x in b
  {
    forall x ensures x in a <==> x in b { assert x in multiset(a) <==> x in multiset(b); }
  }

  /** Where campaigns are listed in the file never matters for a valid calendar. */
  lemma ListingOrderIrrelevant(a: Calendar, b: Calendar, source: string, now: Instant)
    requires a.Valid() && multiset(a.campaigns) == multiset(b.campaigns) && a.postures == b.postures
    ensures Resolve(a, now) == Resolve(b, now) && SourcePosture(a, source, now) == SourcePosture(b, source, now)
  {
    GoverningOrderFree(a, b, now);
  }

  // ----- the most demanding profile -----

  /** No campaign is in a more demanding phase than the resolved profile. */
  ghost predicate MostDemandingWins(calendar: Calendar, now: Instant) {
    forall c | c in calendar.campaigns && c.Phase(now).Some? ::
      c.Phase(now).value.Priority() <= Resolve(calendar, now).profile.Priority()
  }

  /** The open window of the governing campaign forces a less demanding profile than the campaign's own. */
  ghost predicate WindowLowers(calendar: Calendar, now: Instant) {
    match GoverningCampaign(calendar, now)
    case None => false
    case Some(g) =>
      var window := g.campaign.HighInterestWindow(now);
      && window.Some? && window.value.forced.Some?
      && window.value.forced.value.Priority() < g.profile.Priority()
  }

  /** The most demanding phase wins except exactly when the governing campaign's open window lowers the profile. */
  lemma MostDemandingIff(calendar: Calendar, now: Instant)
    ensures MostDemandingWins(calendar, now) <==> !WindowLowers(calendar, now)
  {
    GoverningIsBest(calendar, now);
    match GoverningCampaign(calendar, now)
    case None =>
    case Some(g) =>
      assert g.campaign in calendar.campaigns && g.campaign.Phase(now) == Some(g.profile);
      forall c | c in calendar.campaigns && c.Phase(now).Some?
        ensures c.Phase(now).value.Priority() <= g.profile.Priority()
      {
        assert GoverningLeq(g, Governing(c, c.Phase(now).value));
      }
  }

  const QUIET_HOUR := Window("quiet", 10, 20, Some(Normal))

  const SALE := Campaign("sale", "sale", 0, 100, true, 0, 0, [QUIET_HOUR], map[], None)

  /** A valid calendar whose only campaign is active while its window forces normal polling. */
  lemma QuietHourLowers()
    ensures Calendar([SALE], map[]).Valid() && !MostDemandingWins(Calendar([SALE], map[]), 15)
  {
    var calendar := Calendar([SALE], map[]);
    Text.TrimKeeps("sale");
    assert SALE.Phase(15) == Some(CampaignActive) && SALE in calendar.campaigns;
    assert SALE.windows[0].Contains(15);
    GoverningIsBest(calendar, 15);
    MostDemandingIff(calendar, 15);
  }

  // ----- intervals -----

  lemma ApplyBounded(p: PollPosture, base: nat)
    requires p.Valid()
    ensures 1000 <= p.Apply(base) <= p.CeilingMs()
  {
  }

  lemma ApplyMonotone(p: PollPosture, small: nat, large: nat)
    requires small <= large
    ensures p.Apply(small) <= p.Apply(large)
  {
    assert large * p.intervalPercent - small * p.intervalPercent == (large - small) * p.intervalPercent;
    DivMonotone(small * p.intervalPercent, large * p.intervalPercent);
  }

  lemma DivMonotone(a: nat, b: nat)
    requires a <= b
    ensures a / 100 <= b / 100
  {
  }

  lemma DecidedPostureValid(governing: Option<Governing>, postures: map<PollProfile, PollPosture>, now: Instant)
    requires forall p | p in postures :: postures[p].Valid()
    ensures Decide(governing, postures, now).posture.Valid()
  {
    var profile := Decide(governing, postures, now).profile;
    assert Decide(governing, postures, now).posture == PostureIn(postures, profile);
    assert profile in postures ==> postures[profile].Valid();
  }

  lemma OverriddenValid(governing: Option<Governing>, source: string, posture: PollPosture)
    requires posture.Valid() && Overridden(governing, source, posture).Some?
    ensures Overridden(governing, source, posture).value.Valid()
    ensures Overridden(governing, source, posture).value.CeilingMs() == posture.CeilingMs()
  {
  }

  /**
   * No valid configuration can make a source poll without delay: at least a second, at most the ceiling, longer for
   * slower sources.
   */
  lemma IntervalsBounded(calendar: Calendar, source: string, now: Instant, base: nat, slower: nat)
    requires calendar.Valid() && base <= slower && SourcePosture(calendar, source, now).Some?
    ensures var p := SourcePosture(calendar, source, now).value;
            && 1000 <= p.Apply(base) <= p.Apply(slower) <= Resolve(calendar, now).posture.CeilingMs()
  {
    DecidedPostureValid(GoverningCampaign(calendar, now), calendar.postures, now);
    OverriddenValid(GoverningCampaign(calendar, now), source, Resolve(calendar, now).posture);
    var p := SourcePosture(calendar, source, now).value;
    ApplyBounded(p, base);
    ApplyBounded(p, slower);
    ApplyMonotone(p, base, slower);
  }

  /** A source is skipped exactly when the governing campaign switches it off. */
  lemma SkippedIff(calendar: Calendar, source: string, now: Instant)
    ensures SourcePosture(calendar, source, now).None? <==>
            exists g :: GoverningCampaign(calendar, now) == Some(g) && source in g.campaign.overrides
                        && g.campaign.overrides[source].enabled == Some(false)
  {
  }
}

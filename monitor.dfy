/**
 * The monitor loop of `main`: one pass over the registry of TestFlight apps
 * checks each app in order, notifies both channels for an available app and
 * resets its counter, and counts one more miss for an unavailable app.
 */
module Monitor {
  import opened Availability
  import opened Notify

  /** One monitored TestFlight app with its count of checks that found no slot. */
  datatype AppConfig = AppConfig(name: string, url: string, noSlotCount: int)

  /** The apps the monitor starts with; every counter starts at zero. */
  function DefaultApps(): (apps: seq<AppConfig>)
    ensures |apps| == 5
    ensures forall i :: 0 <= i < |apps| ==> apps[i].noSlotCount == 0
  {
    [ AppConfig("WhatsApp", "https://testflight.apple.com/join/krUFQpyJ", 0),
      AppConfig("Capcut", "https://testflight.apple.com/join/Gu9kI6ky", 0),
      AppConfig("Instagram", "https://testflight.apple.com/join/72eyUWVE", 0),
      AppConfig("WhatsApp Business", "https://testflight.apple.com/join/oscYikr0", 0),
      AppConfig("Snapchat", "https://testflight.apple.com/join/p7hGbZUR", 0) ]
  }

  /**
   * What the network does for one app during one cycle: the page fetch, and
   * the replies the two notification requests would get if they were sent.
   */
  datatype Probe = Probe(fetch: FetchOutcome, pushoverPost: PostOutcome, discordPost: PostOutcome)

  /** One attempted notification, with what was sent and what came of it. */
  datatype Event =
    | PushoverAttempt(target: nat, endpoint: string, form: PushoverForm, delivery: Delivery)
    | DiscordAttempt(target: nat, webhook: string, content: string, delivery: Delivery)

  /** The registry invariant: no counter is negative. */
  predicate NonNegative(apps: seq<AppConfig>) {
    forall i :: 0 <= i < |apps| ==> apps[i].noSlotCount >= 0
  }

  predicate IsAvailable(p: Probe) {
    CheckAppStatus(p.fetch) == Checked(true)
  }

  predicate IsUnavailable(p: Probe) {
    CheckAppStatus(p.fetch) == Checked(false)
  }

  /**
   * The effect of one loop iteration on its own registry entry: a free slot
   * resets the counter, no slot adds one, a failed check changes nothing.
   */
  function Step(app: AppConfig, p: Probe): (next: AppConfig)
    ensures CheckAppStatus(p.fetch).CheckFailed? ==> next == app
    ensures IsAvailable(p) ==> next.noSlotCount == 0
    ensures IsUnavailable(p) ==> next.noSlotCount == app.noSlotCount + 1
    ensures next.name == app.name && next.url == app.url
  {
    match CheckAppStatus(p.fetch)
    case CheckFailed(_) => app
    case Checked(available) =>
      if available then app.(noSlotCount := 0) else app.(noSlotCount := app.noSlotCount + 1)
  }

  /** The registry after one cycle. */
  function CycleApps(apps: seq<AppConfig>, probes: seq<Probe>): (next: seq<AppConfig>)
    requires |probes| == |apps|
    ensures |next| == |apps|
  {
    seq(|apps|, i requires 0 <= i < |apps| => Step(apps[i], probes[i]))
  }

  /**
   * What a cycle does to each entry: a free slot resets the counter, no slot
   * adds one to it, a failed check leaves the entry as it was; names and URLs
   * never change, and no counter becomes negative.
   */
  lemma CycleEffect(apps: seq<AppConfig>, probes: seq<Probe>)
    requires |probes| == |apps|
    ensures var next := CycleApps(apps, probes);
            (forall i :: 0 <= i < |apps| ==> next[i].name == apps[i].name && next[i].url == apps[i].url) &&
            (forall i :: 0 <= i < |apps| && IsAvailable(probes[i]) ==> next[i].noSlotCount == 0) &&
            (forall i :: 0 <= i < |apps| && IsUnavailable(probes[i]) ==>
               next[i].noSlotCount == apps[i].noSlotCount + 1) &&
            (forall i :: 0 <= i < |apps| && CheckAppStatus(probes[i].fetch).CheckFailed? ==> next[i] == apps[i]) &&
            (NonNegative(apps) ==> NonNegative(next))
  {
  }

  /** Entry `i` after a cycle depends only on entry `i` before it and probe `i`. */
  lemma CycleLocality(apps: seq<AppConfig>, probes: seq<Probe>, apps': seq<AppConfig>, probes': seq<Probe>, i: nat)
    requires |probes| == |apps| && |probes'| == |apps'|
    requires i < |apps| && i < |apps'| && apps[i] == apps'[i] && probes[i] == probes'[i]
    ensures CycleApps(apps, probes)[i] == CycleApps(apps', probes')[i]
  {
  }

  /** The Pushover attempt for target `i`. */
  function PushoverEvent(settings: Settings, i: nat, app: AppConfig, post: PostOutcome): Event {
    PushoverAttempt(i, PushoverEndpoint, PushoverRequest(settings.pushover, app.name, app.url), PushoverDelivery(post))
  }

  /** The Discord attempt for target `i`. */
  function DiscordEvent(settings: Settings, i: nat, app: AppConfig, post: PostOutcome): Event {
    DiscordAttempt(i, settings.webhookUrl, DiscordContent(app.name, app.url), DiscordDelivery(post))
  }

  /**
   * The notifications one loop iteration attempts: none unless the check found
   * a free slot, and then the Pushover attempt followed by the Discord attempt,
   * both for target `i`.
   */
  function TargetEvents(settings: Settings, i: nat, app: AppConfig, p: Probe): (events: seq<Event>)
    ensures |events| == (if IsAvailable(p) then 2 else 0)
    ensures forall e :: e in events ==> e.target == i
    ensures |events| == 2 ==> events[0].PushoverAttempt? && events[1].DiscordAttempt?
  {
    if IsAvailable(p) then [PushoverEvent(settings, i, app, p.pushoverPost), DiscordEvent(settings, i, app, p.discordPost)]
    else []
  }

  /** The notifications attempted while processing the first `n` targets, in order. */
  function CycleEvents(settings: Settings, apps: seq<AppConfig>, probes: seq<Probe>, n: nat): (events: seq<Event>)
    requires n <= |apps| && |probes| == |apps|
    ensures forall e :: e in events ==> e.target < n
  {
    if n == 0 then []
    else CycleEvents(settings, apps, probes, n - 1) + TargetEvents(settings, n - 1, apps[n - 1], probes[n - 1])
  }

  /** The indices below `n` whose check found a free slot, in increasing order. */
  function AvailableTargets(probes: seq<Probe>, n: nat): (targets: seq<nat>)
    requires n <= |probes|
    ensures forall k :: 0 <= k < |targets| ==> targets[k] < n && IsAvailable(probes[targets[k]])
  {
    if n == 0 then []
    else AvailableTargets(probes, n - 1) + (if IsAvailable(probes[n - 1]) then [n - 1] else [])
  }

  /** `AvailableTargets` lists every available index exactly once, in increasing order. */
  lemma {:induction false} AvailableTargetsComplete(probes: seq<Probe>, n: nat)
    requires n <= |probes|
    ensures var targets := AvailableTargets(probes, n);
            (forall j, k :: 0 <= j < k < |targets| ==> targets[j] < targets[k]) &&
            (forall i :: 0 <= i < n ==> (IsAvailable(probes[i]) <==> i in targets))
  {
    if n > 0 {
      AvailableTargetsComplete(probes, n - 1);
    }
  }

  /** Appending the pair of an available target `i` to a paired trace keeps it paired. */
  lemma PairsExtend(settings: Settings, apps: seq<AppConfig>, probes: seq<Probe>, events: seq<Event>,
                    targets: seq<nat>, i: nat)
    requires |probes| == |apps| && i < |apps|
    requires |events| == 2 * |targets|
    requires forall k :: 0 <= k < |targets| ==>
               targets[k] < |apps| &&
               events[2 * k] == PushoverEvent(settings, targets[k], apps[targets[k]], probes[targets[k]].pushoverPost) &&
               events[2 * k + 1] == DiscordEvent(settings, targets[k], apps[targets[k]], probes[targets[k]].discordPost)
    ensures var events', targets' := events + [PushoverEvent(settings, i, apps[i], probes[i].pushoverPost),
                                               DiscordEvent(settings, i, apps[i], probes[i].discordPost)],
                                    targets + [i];
            |events'| == 2 * |targets'| &&
            forall k :: 0 <= k < |targets'| ==>
              events'[2 * k] == PushoverEvent(settings, targets'[k], apps[targets'[k]], probes[targets'[k]].pushoverPost) &&
              events'[2 * k + 1] == DiscordEvent(settings, targets'[k], apps[targets'[k]], probes[targets'[k]].discordPost)
  {
  }

  /**
   * The notifications of the first `n` targets come in pairs, one pair per
   * available target in index order: the Pushover attempt, then the Discord
   * attempt, whatever the Pushover reply was.
   */
  lemma {:induction false} EventsPairUp(settings: Settings, apps: seq<AppConfig>, probes: seq<Probe>, n: nat)
    requires n <= |apps| && |probes| == |apps|
    ensures var events, targets := CycleEvents(settings, apps, probes, n), AvailableTargets(probes, n);
            |events| == 2 * |targets| &&
            forall k :: 0 <= k < |targets| ==>
              events[2 * k] == PushoverEvent(settings, targets[k], apps[targets[k]], probes[targets[k]].pushoverPost) &&
              events[2 * k + 1] == DiscordEvent(settings, targets[k], apps[targets[k]], probes[targets[k]].discordPost)
  {
    if n > 0 {
      EventsPairUp(settings, apps, probes, n - 1);
      var i := n - 1;
      if IsAvailable(probes[i]) {
        PairsExtend(settings, apps, probes, CycleEvents(settings, apps, probes, i), AvailableTargets(probes, i), i);
      }
    }
  }

  /** Every notification attempted for the first `n` targets is for one whose check found a free slot. */
  lemma {:induction false} NotificationsOnlyForAvailable(settings: Settings, apps: seq<AppConfig>, probes: seq<Probe>,
                                                         n: nat)
    requires n <= |apps| && |probes| == |apps|
    ensures forall e :: e in CycleEvents(settings, apps, probes, n) ==> e.target < n && IsAvailable(probes[e.target])
  {
    if n > 0 {
      NotificationsOnlyForAvailable(settings, apps, probes, n - 1);
    }
  }

  /** Scenario: WhatsApp's page shows the marker; its counter goes from 0 to 1 and nobody is notified. */
  lemma WhatsAppFullScenario(settings: Settings)
    ensures var apps := [DefaultApps()[0]];
            var probes := [Probe(Responded(200, ReadBody("This beta is full.")), SendFailed, SendFailed)];
            CycleApps(apps, probes) == [apps[0].(noSlotCount := 1)] && CycleEvents(settings, apps, probes, 1) == []
  {
    FullPageIsUnavailable();
  }

  /**
   * Scenario: WhatsApp's page is open again; the counter is reset and both
   * channels are tried, Discord although Pushover answered 400.
   */
  lemma WhatsAppOpenScenario(settings: Settings)
    ensures var app := DefaultApps()[0];
            var apps := [app.(noSlotCount := 1)];
            var probes := [Probe(Responded(200, ReadBody("Join the beta now")), Posted(400), Posted(204))];
            CycleApps(apps, probes) == [app] &&
            CycleEvents(settings, apps, probes, 1) ==
              [ PushoverAttempt(0, PushoverEndpoint, PushoverRequest(settings.pushover, app.name, app.url),
                                Undelivered(RejectedStatus(400))),
                DiscordAttempt(0, settings.webhookUrl, DiscordContent(app.name, app.url), Delivered) ]
  {
    OpenPageIsAvailable();
  }

  /** Scenario: a 503 answer leaves the counter alone and notifies nobody. */
  lemma ServiceUnavailableScenario(settings: Settings, app: AppConfig, read: ReadOutcome, pushed: PostOutcome,
                                   posted: PostOutcome)
    ensures var probes := [Probe(Responded(503, read), pushed, posted)];
            CycleApps([app], probes) == [app] && CycleEvents(settings, [app], probes, 1) == []
  {
  }

  /** Every cycle of `rounds` has one probe per app. */
  predicate Uniform(rounds: seq<seq<Probe>>, width: nat) {
    forall k :: 0 <= k < |rounds| ==> |rounds[k]| == width
  }

  /** The registry after the first `m` of a sequence of cycles, one vector of probes per cycle. */
  function Rounds(apps: seq<AppConfig>, rounds: seq<seq<Probe>>, m: nat): (final: seq<AppConfig>)
    requires m <= |rounds| && Uniform(rounds, |apps|)
    ensures |final| == |apps|
  {
    if m == 0 then apps else CycleApps(Rounds(apps, rounds, m - 1), rounds[m - 1])
  }

  /** The notifications attempted during the first `m` of a sequence of cycles. */
  function RoundsEvents(settings: Settings, apps: seq<AppConfig>, rounds: seq<seq<Probe>>, m: nat): seq<Event>
    requires m <= |rounds| && Uniform(rounds, |apps|)
  {
    if m == 0 then []
    else RoundsEvents(settings, apps, rounds, m - 1) + CycleEvents(settings, Rounds(apps, rounds, m - 1), rounds[m - 1], |apps|)
  }

  /**
   * Every notification attempted during the first `m` cycles is for an app of
   * the registry whose check found a free slot in one of those cycles.
   */
  lemma {:induction false} RoundsNotifyOnlyAvailable(settings: Settings, apps: seq<AppConfig>, rounds: seq<seq<Probe>>,
                                                     m: nat)
    requires m <= |rounds| && Uniform(rounds, |apps|)
    ensures forall e :: e in RoundsEvents(settings, apps, rounds, m) ==>
              e.target < |apps| && exists k :: 0 <= k < m && IsAvailable(rounds[k][e.target])
  {
    if m > 0 {
      RoundsNotifyOnlyAvailable(settings, apps, rounds, m - 1);
      var last := CycleEvents(settings, Rounds(apps, rounds, m - 1), rounds[m - 1], |apps|);
      NotificationsOnlyForAvailable(settings, Rounds(apps, rounds, m - 1), rounds[m - 1], |apps|);
      forall e | e in RoundsEvents(settings, apps, rounds, m)
        ensures e.target < |apps| && exists k :: 0 <= k < m && IsAvailable(rounds[k][e.target])
      {
        if e in last {
          assert IsAvailable(rounds[m - 1][e.target]);
        }
      }
    }
  }

  /** A registry updated entry by entry with `Step` is the registry after the cycle. */
  lemma CycleComplete(apps: seq<AppConfig>, probes: seq<Probe>, next: seq<AppConfig>)
    requires |probes| == |apps| == |next| && NonNegative(apps)
    requires forall k :: 0 <= k < |apps| ==> next[k] == Step(apps[k], probes[k])
    ensures next == CycleApps(apps, probes) && NonNegative(next)
  {
    CycleEffect(apps, probes);
  }

  /** Regrouping a trace that grows in steps; stated once so the loops need not rediscover it. */
  lemma AppendAssoc(a: seq<Event>, b: seq<Event>, c: seq<Event>)
    ensures (a + b) + c == a + (b + c)
  {
  }

  /** The running monitor: the registry of apps, the notification settings, and what has been sent. */
  class TestFlightMonitor {
    const apps: array<AppConfig>
    const settings: Settings
    ghost var trace: seq<Event>

    ghost predicate Valid()
      reads this, apps
    {
      NonNegative(apps[..])
    }

    constructor (targets: seq<AppConfig>, settings: Settings)
      requires NonNegative(targets)
      ensures Valid() && fresh(apps)
      ensures apps[..] == targets && this.settings == settings && trace == []
    {
      apps := new AppConfig[|targets|](i requires 0 <= i < |targets| => targets[i]);
      this.settings := settings;
      trace := [];
    }

    /** Sends the Pushover notification for target `i` and reports the error, if any. */
    method SendPushover(i: nat, app: AppConfig, post: PostOutcome) returns (d: Delivery)
      modifies this`trace
      ensures d == PushoverDelivery(post)
      ensures trace == old(trace) + [PushoverEvent(settings, i, app, post)]
    {
      d := PushoverDelivery(post);
      trace := trace + [PushoverEvent(settings, i, app, post)];
    }

    /** Sends the Discord notification for target `i` and reports the error, if any. */
    method SendDiscord(i: nat, app: AppConfig, post: PostOutcome) returns (d: Delivery)
      modifies this`trace
      ensures d == DiscordDelivery(post)
      ensures trace == old(trace) + [DiscordEvent(settings, i, app, post)]
    {
      d := DiscordDelivery(post);
      trace := trace + [DiscordEvent(settings, i, app, post)];
    }

    /** One iteration of the loop: check target `i` and act on the result. */
    method Visit(i: nat, p: Probe)
      requires i < apps.Length
      modifies apps, this`trace
      ensures apps[i] == Step(old(apps[i]), p)
      ensures forall k :: 0 <= k < apps.Length && k != i ==> apps[k] == old(apps[k])
      ensures trace == old(trace) + TargetEvents(settings, i, old(apps[i]), p)
    {
      var app := apps[i];
      var status := CheckAppStatus(p.fetch);
      if status.Checked? {
        if status.available {
          var _ := SendPushover(i, app, p.pushoverPost);
          var _ := SendDiscord(i, app, p.discordPost);
          apps[i] := apps[i].(noSlotCount := 0);
        } else {
          apps[i] := apps[i].(noSlotCount := apps[i].noSlotCount + 1);
        }
      }
    }

    /** One pass over the registry, updating each entry in place through its index. */
    method Cycle(probes: seq<Probe>)
      requires Valid() && |probes| == apps.Length
      modifies apps, this`trace
      ensures Valid()
      ensures apps[..] == CycleApps(old(apps[..]), probes)
      ensures trace == old(trace) + CycleEvents(settings, old(apps[..]), probes, apps.Length)
    {
      ghost var initial := apps[..];
      var i := 0;
      while i < apps.Length
        invariant 0 <= i <= apps.Length
        invariant forall k :: 0 <= k < i ==> apps[k] == Step(initial[k], probes[k])
        invariant forall k :: i <= k < apps.Length ==> apps[k] == initial[k]
        invariant trace == old(trace) + CycleEvents(settings, initial, probes, i)
      {
        Visit(i, probes[i]);
        AppendAssoc(old(trace), CycleEvents(settings, initial, probes, i), TargetEvents(settings, i, initial[i], probes[i]));
        i := i + 1;
      }
      CycleComplete(initial, probes, apps[..]);
    }

    /** A bounded run of the monitor loop: one cycle per vector of probes. */
    method Run(rounds: seq<seq<Probe>>)
      requires Valid() && Uniform(rounds, apps.Length)
      modifies apps, this`trace
      ensures Valid()
      ensures apps[..] == Rounds(old(apps[..]), rounds, |rounds|)
      ensures trace == old(trace) + RoundsEvents(settings, old(apps[..]), rounds, |rounds|)
    {
      ghost var initial := apps[..];
      var k := 0;
      while k < |rounds|
        invariant 0 <= k <= |rounds|
        invariant Valid()
        invariant apps[..] == Rounds(initial, rounds, k)
        invariant trace == old(trace) + RoundsEvents(settings, initial, rounds, k)
      {
        Cycle(rounds[k]);
        AppendAssoc(old(trace), RoundsEvents(settings, initial, rounds, k),
                    CycleEvents(settings, Rounds(initial, rounds, k), rounds[k], |initial|));
        k := k + 1;
      }
    }
  }
}

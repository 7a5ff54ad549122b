/**
 * Severity-based notification routing. A send goes to the explicit channel
 * list when one is given and non-empty, otherwise to the severity's default
 * channels, and in either case only to channels named in the configuration's
 * enabled list. Each delivery is recorded in `delivered`, which stands for
 * the log lines (and the channel APIs) the source calls.
 */
module Notifier {
  import opened Wrappers

  datatype NotificationChannel = Slack | Email | PagerDuty | Teams

  datatype NotificationSeverity = Info | Warning | Error | Critical

  function ChannelValue(c: NotificationChannel): string
  {
    match c
    case Slack => "slack"
    case Email => "email"
    case PagerDuty => "pagerduty"
    case Teams => "teams"
  }

  /** `_get_default_channels`. */
  function DefaultChannels(severity: NotificationSeverity): (r: seq<NotificationChannel>)
    ensures r != [] && r[0] == Slack
    ensures PagerDuty in r <==> severity == Critical
    ensures Email in r <==> severity == Error
    ensures Teams !in r
    ensures |r| == if severity == Critical || severity == Error then 2 else 1
  {
    if severity == Critical then [Slack, PagerDuty]
    else if severity == Error then [Slack, Email]
    else [Slack]
  }

  /** `channels or self._get_default_channels(severity)`: None and the empty list both fall back. */
  function TargetChannels(channels: Option<seq<NotificationChannel>>, severity: NotificationSeverity)
    : (r: seq<NotificationChannel>)
    ensures channels.Some? && channels.value != [] ==> r == channels.value
    ensures channels.None? || channels.value == [] ==> r == DefaultChannels(severity)
    ensures r != []
  {
    if channels.Some? && channels.value != [] then channels.value else DefaultChannels(severity)
  }

  /** The target channels whose value is enabled, in target order. */
  function Routed(targets: seq<NotificationChannel>, enabled: seq<string>): seq<NotificationChannel>
  {
    if targets == [] then []
    else
      Routed(targets[..|targets| - 1], enabled)
        + (if ChannelValue(targets[|targets| - 1]) in enabled then [targets[|targets| - 1]] else [])
  }

  /** A channel is sent to exactly when it is a target and enabled; nothing else is reached. */
  lemma {:induction false} RoutedMembers(targets: seq<NotificationChannel>, enabled: seq<string>, c: NotificationChannel)
    ensures c in Routed(targets, enabled) <==> c in targets && ChannelValue(c) in enabled
  {
    if targets != [] {
      var prefix := targets[..|targets| - 1];
      RoutedMembers(prefix, enabled, c);
      assert targets == prefix + [targets[|targets| - 1]];
    }
  }

  /** Routing one more target appends it when it is enabled. */
  lemma RoutedSnoc(targets: seq<NotificationChannel>, i: nat, enabled: seq<string>)
    requires i < |targets|
    ensures ChannelValue(targets[i]) in enabled ==> Routed(targets[..i + 1], enabled) == Routed(targets[..i], enabled) + [targets[i]]
    ensures ChannelValue(targets[i]) !in enabled ==> Routed(targets[..i + 1], enabled) == Routed(targets[..i], enabled)
  {
    assert targets[..i + 1][..i] == targets[..i];
  }

  /** One step of the send loop: the next target adds its delivery exactly when it is enabled. */
  lemma SendStep(targets: seq<NotificationChannel>, i: nat, enabled: seq<string>, note: Notification,
                 before: seq<Delivery>, delivered: seq<Delivery>)
    requires i < |targets|
    requires delivered == before + DeliveriesTo(Routed(targets[..i], enabled), note)
    ensures ChannelValue(targets[i]) in enabled ==>
      delivered + [Delivery(targets[i], note)] == before + DeliveriesTo(Routed(targets[..i + 1], enabled), note)
    ensures ChannelValue(targets[i]) !in enabled ==>
      delivered == before + DeliveriesTo(Routed(targets[..i + 1], enabled), note)
  {
    RoutedSnoc(targets, i, enabled);
    var routed := Routed(targets[..i], enabled);
    if ChannelValue(targets[i]) in enabled {
      DeliveriesToAppend(routed, targets[i], note);
      assert before + (DeliveriesTo(routed, note) + [Delivery(targets[i], note)])
          == (before + DeliveriesTo(routed, note)) + [Delivery(targets[i], note)];
    }
  }

  /** Routing distributes over concatenation: it keeps the targets' order. */
  lemma {:induction false} RoutedConcat(a: seq<NotificationChannel>, b: seq<NotificationChannel>, enabled: seq<string>)
    ensures Routed(a + b, enabled) == Routed(a, enabled) + Routed(b, enabled)
    decreases |b|
  {
    if b != [] {
      var b0 := b[..|b| - 1];
      var last := b[|b| - 1];
      assert (a + b)[..|a + b| - 1] == a + b0;
      RoutedConcat(a, b0, enabled);
    } else {
      assert a + b == a;
    }
  }

  /** What one `send` delivers on every channel it reaches. */
  datatype Notification = Notification(
    title: string,
    message: string,
    severity: NotificationSeverity,
    metadata: Option<Metadata>)

  /** One `_send_to_channel` call. */
  datatype Delivery = Delivery(channel: NotificationChannel, note: Notification)

  class Notifier {
    const enabledChannels: seq<string>
    /** Every delivery made so far, oldest first. */
    var delivered: seq<Delivery>

    /** `config.get('enabled_channels', [])`. */
    constructor (enabledChannels: Option<seq<string>>)
      ensures this.enabledChannels == enabledChannels.GetOr([]) && delivered == []
    {
      this.enabledChannels := enabledChannels.GetOr([]);
      delivered := [];
    }

    /** `send`: one delivery per routed channel, in target order. */
    method Send(title: string, message: string, severity: NotificationSeverity,
                channels: Option<seq<NotificationChannel>>, metadata: Option<Metadata>)
      modifies this`delivered
      ensures delivered == old(delivered)
        + DeliveriesTo(Routed(TargetChannels(channels, severity), enabledChannels), Notification(title, message, severity, metadata))
    {
      var targets := TargetChannels(channels, severity);
      ghost var note := Notification(title, message, severity, metadata);
      ghost var before := delivered;
      var i := 0;
      while i < |targets|
        invariant 0 <= i <= |targets|
        invariant delivered == before + DeliveriesTo(Routed(targets[..i], enabledChannels), note)
      {
        var channel := targets[i];
        SendStep(targets, i, enabledChannels, note, before, delivered);
        if ChannelValue(channel) in enabledChannels {
          SendToChannel(channel, title, message, severity, metadata);
        }
        i := i + 1;
      }
      assert targets[..i] == targets;
    }

    /** `_send_to_channel`: records one delivery. */
    method SendToChannel(channel: NotificationChannel, title: string, message: string, severity: NotificationSeverity,
                         metadata: Option<Metadata>)
      modifies this`delivered
      ensures delivered == old(delivered) + [Delivery(channel, Notification(title, message, severity, metadata))]
    {
      delivered := delivered + [Delivery(channel, Notification(title, message, severity, metadata))];
    }
  }

  /** One delivery of the same notification per channel, in channel order. */
  function DeliveriesTo(cs: seq<NotificationChannel>, note: Notification): seq<Delivery>
  {
    if cs == [] then [] else DeliveriesTo(cs[..|cs| - 1], note) + [Delivery(cs[|cs| - 1], note)]
  }

  lemma DeliveriesToAppend(cs: seq<NotificationChannel>, c: NotificationChannel, note: Notification)
    ensures DeliveriesTo(cs + [c], note) == DeliveriesTo(cs, note) + [Delivery(c, note)]
  {
    assert (cs + [c])[..|cs|] == cs;
  }

  /** The channels a send reaches are enabled targets, and every enabled target is reached. */
  lemma SendReachesExactlyEnabledTargets(channels: Option<seq<NotificationChannel>>, severity: NotificationSeverity,
                                         enabled: seq<string>, c: NotificationChannel)
    ensures c in Routed(TargetChannels(channels, severity), enabled)
      <==> c in TargetChannels(channels, severity) && ChannelValue(c) in enabled
  {
    RoutedMembers(TargetChannels(channels, severity), enabled, c);
  }

  /** With only slack and email enabled, a critical alert without explicit channels goes to slack alone. */
  lemma CriticalWithoutPagerDutyEnabled()
    ensures Routed(TargetChannels(None, Critical), ["slack", "email"]) == [Slack]
  {
    var t := TargetChannels(None, Critical);
    assert t[..1] == [Slack] && t[..1][..0] == [];
  }
}

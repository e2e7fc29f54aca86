/** The events page: which service an event type belongs to, and the fixed
    list of event types the page shows with their configured commands. */
module EventsControl {
  import opened Wrappers

  /** The event types the page mentions; every other member of the event
      type enumeration is `OtherEvent`. */
  datatype EventType =
    | TwitchChannelStreamStart
    | TwitchChannelStreamStop
    | TwitchChannelFollowed
    | TwitchChannelHosted
    | TwitchChannelRaided
    | TwitchChannelSubscribed
    | TwitchChannelResubscribed
    | TwitchChannelSubscriptionGifted
    | TwitchChannelMassSubscriptionsGifted
    | TwitchChannelBitsCheered
    | TwitchChannelPointsRedeemed
    | TwitchChannelHypeTrainBegin
    | TwitchChannelHypeTrainEnd
    | ChatUserFirstJoin
    | ChatUserJoined
    | ChatUserLeft
    | ChatUserPurge
    | ChatUserTimeout
    | ChatUserBan
    | ChatMessageReceived
    | ChatWhisperReceived
    | ChatMessageDeleted
    | StreamlabsDonation
    | StreamElementsDonation
    | StreamElementsMerchPurchase
    | TipeeeStreamDonation
    | TreatStreamDonation
    | RainmakerDonation
    | TiltifyDonation
    | ExtraLifeDonation
    | JustGivingDonation
    | PatreonSubscribed
    | StreamlootsCardRedeemed
    | StreamlootsPackPurchased
    | StreamlootsPackGifted
    | OtherEvent(name: string)

  /** The service names the page shows. */
  datatype ServiceName =
    | Streamlabs | Tiltify | ExtraLife | TipeeeStream | TreatStream | Rainmaker | Patreon | JustGiving
    | Streamloots | StreamElements | Mixer | Twitch | Generic

  /** The event types that name their service outright. */
  function NamedService(t: EventType): Option<ServiceName> {
    match t
    case StreamlabsDonation => Some(Streamlabs)
    case TiltifyDonation => Some(Tiltify)
    case ExtraLifeDonation => Some(ExtraLife)
    case TipeeeStreamDonation => Some(TipeeeStream)
    case TreatStreamDonation => Some(TreatStream)
    case RainmakerDonation => Some(Rainmaker)
    case PatreonSubscribed => Some(Patreon)
    case JustGivingDonation => Some(JustGiving)
    case StreamlootsCardRedeemed => Some(Streamloots)
    case StreamlootsPackGifted => Some(Streamloots)
    case StreamlootsPackPurchased => Some(Streamloots)
    case StreamElementsDonation => Some(StreamElements)
    case StreamElementsMerchPurchase => Some(StreamElements)
    case _ => None
  }

  /** `EventCommandItemViewModel.Service`. `eventNumber` is the enumeration
      value of `t`, which the enumeration's declaration fixes. */
  function Service(t: EventType, eventNumber: int): ServiceName {
    if t.StreamlabsDonation? then Streamlabs
    else if t.TiltifyDonation? then Tiltify
    else if t.ExtraLifeDonation? then ExtraLife
    else if t.TipeeeStreamDonation? then TipeeeStream
    else if t.TreatStreamDonation? then TreatStream
    else if t.RainmakerDonation? then Rainmaker
    else if t.PatreonSubscribed? then Patreon
    else if t.JustGivingDonation? then JustGiving
    else if t.StreamlootsCardRedeemed? || t.StreamlootsPackGifted? || t.StreamlootsPackPurchased? then Streamloots
    else if t.StreamElementsDonation? || t.StreamElementsMerchPurchase? then StreamElements
    else if 100 <= eventNumber < 200 then Mixer
    else if 200 <= eventNumber < 300 then Twitch
    else Generic
  }

  /** The named donation, Patreon, Streamloots and StreamElements types map to
      their own service whatever their number; every other type is classified
      by its number: [100, 200) is Mixer, [200, 300) Twitch, the rest Generic. */
  lemma ServiceClassification(t: EventType, eventNumber: int)
    ensures NamedService(t).Some? ==> Service(t, eventNumber) == NamedService(t).value
    ensures NamedService(t).None? ==>
      Service(t, eventNumber) == (if 100 <= eventNumber < 200 then Mixer
                                  else if 200 <= eventNumber < 300 then Twitch
                                  else Generic)
  {
  }

  /** An events-service command, with the event type it is configured for. */
  datatype EventCommand = EventCommand(eventType: EventType, commandId: nat)

  /** `EventCommandItemViewModel`: an event type and its command, if any. */
  datatype EventCommandItem = EventCommandItem(eventType: EventType, command: Option<EventCommand>) {
    predicate IsNewCommand() {
      command.None?
    }

    predicate IsExistingCommand() {
      command.Some?
    }
  }

  /** The constructor from a command: the item takes the command's event type. */
  function FromCommand(command: EventCommand): (item: EventCommandItem)
    ensures item.eventType == command.eventType && item.command == Some(command)
    ensures item.IsExistingCommand() && !item.IsNewCommand()
  {
    EventCommandItem(command.eventType, Some(command))
  }

  /** The constructor from an event type: a new, command-less entry. */
  function FromEventType(t: EventType): (item: EventCommandItem)
    ensures item.eventType == t && item.command.None?
    ensures item.IsNewCommand() && !item.IsExistingCommand()
  {
    EventCommandItem(t, None)
  }

  /** `GetEventCommand`: `lookup` is the events service's command lookup. */
  function GetEventCommand(lookup: EventType -> Option<EventCommand>, t: EventType): (item: EventCommandItem)
    ensures item.command == lookup(t)
    ensures item.IsExistingCommand() <==> lookup(t).Some?
    ensures lookup(t).None? ==> item.eventType == t
    ensures lookup(t).Some? ==> item.eventType == lookup(t).value.eventType
  {
    var command := lookup(t);
    if command.Some? then FromCommand(command.value) else FromEventType(t)
  }

  /** The `i`-th event type the page lists. */
  function ListedEventAt(i: nat): EventType
    requires i < 34
  {
    match i
    case 0 => TwitchChannelStreamStart
    case 1 => TwitchChannelStreamStop
    case 2 => TwitchChannelFollowed
    case 3 => TwitchChannelHosted
    case 4 => TwitchChannelRaided
    case 5 => TwitchChannelSubscribed
    case 6 => TwitchChannelResubscribed
    case 7 => TwitchChannelSubscriptionGifted
    case 8 => TwitchChannelMassSubscriptionsGifted
    case 9 => TwitchChannelBitsCheered
    case 10 => TwitchChannelPointsRedeemed
    case 11 => TwitchChannelHypeTrainBegin
    case 12 => TwitchChannelHypeTrainEnd
    case 13 => ChatUserFirstJoin
    case 14 => ChatUserJoined
    case 15 => ChatUserLeft
    case 16 => ChatUserTimeout
    case 17 => ChatUserBan
    case 18 => ChatMessageReceived
    case 19 => ChatWhisperReceived
    case 20 => ChatMessageDeleted
    case 21 => StreamlabsDonation
    case 22 => StreamElementsDonation
    case 23 => StreamElementsMerchPurchase
    case 24 => TipeeeStreamDonation
    case 25 => TreatStreamDonation
    case 26 => RainmakerDonation
    case 27 => TiltifyDonation
    case 28 => ExtraLifeDonation
    case 29 => JustGivingDonation
    case 30 => PatreonSubscribed
    case 31 => StreamlootsCardRedeemed
    case 32 => StreamlootsPackPurchased
    case _ => StreamlootsPackGifted
  }

  /** The event types the page lists, in order. */
  const ListedEvents: seq<EventType> := seq(34, i requires 0 <= i < 34 => ListedEventAt(i))

  /** The position of a type in the list, -1 for a type the page does not list. */
  function ListedPosition(t: EventType): int {
    match t
    case TwitchChannelStreamStart => 0
    case TwitchChannelStreamStop => 1
    case TwitchChannelFollowed => 2
    case TwitchChannelHosted => 3
    case TwitchChannelRaided => 4
    case TwitchChannelSubscribed => 5
    case TwitchChannelResubscribed => 6
    case TwitchChannelSubscriptionGifted => 7
    case TwitchChannelMassSubscriptionsGifted => 8
    case TwitchChannelBitsCheered => 9
    case TwitchChannelPointsRedeemed => 10
    case TwitchChannelHypeTrainBegin => 11
    case TwitchChannelHypeTrainEnd => 12
    case ChatUserFirstJoin => 13
    case ChatUserJoined => 14
    case ChatUserLeft => 15
    case ChatUserTimeout => 16
    case ChatUserBan => 17
    case ChatMessageReceived => 18
    case ChatWhisperReceived => 19
    case ChatMessageDeleted => 20
    case StreamlabsDonation => 21
    case StreamElementsDonation => 22
    case StreamElementsMerchPurchase => 23
    case TipeeeStreamDonation => 24
    case TreatStreamDonation => 25
    case RainmakerDonation => 26
    case TiltifyDonation => 27
    case ExtraLifeDonation => 28
    case JustGivingDonation => 29
    case PatreonSubscribed => 30
    case StreamlootsCardRedeemed => 31
    case StreamlootsPackPurchased => 32
    case StreamlootsPackGifted => 33
    case _ => -1
  }

  lemma ListedPositionOf(i: nat)
    requires i < 34
    ensures ListedPosition(ListedEventAt(i)) == i
  {
  }

  /** The list has 34 distinct types; the chat purge event is not among them. */
  lemma ListedEventsShape()
    ensures |ListedEvents| == 34
    ensures ChatUserPurge !in ListedEvents
    ensures forall i, j :: 0 <= i < j < |ListedEvents| ==> ListedEvents[i] != ListedEvents[j]
  {
    forall i | 0 <= i < |ListedEvents|
      ensures ListedPosition(ListedEvents[i]) == i
    {
      ListedPositionOf(i);
    }
  }

  /** The service keeps every command under the type it is looked up by. */
  ghost predicate Consistent(lookup: EventType -> Option<EventCommand>) {
    forall t :: lookup(t).Some? ==> lookup(t).value.eventType == t
  }

  /** The list `RefreshCommands` builds: one entry per type, in order. */
  method GetEventCommands(lookup: EventType -> Option<EventCommand>, types: seq<EventType>)
    returns (commands: seq<EventCommandItem>)
    ensures |commands| == |types|
    ensures forall i :: 0 <= i < |types| ==> commands[i] == GetEventCommand(lookup, types[i])
  {
    commands := [];
    var i := 0;
    while i < |types|
      invariant 0 <= i <= |types|
      invariant |commands| == i
      invariant forall k :: 0 <= k < i ==> commands[k] == GetEventCommand(lookup, types[k])
    {
      commands := commands + [GetEventCommand(lookup, types[i])];
      i := i + 1;
    }
  }

  class EventsMainControl {
    var eventCommands: seq<EventCommandItem>

    constructor (lookup: EventType -> Option<EventCommand>)
      ensures |eventCommands| == |ListedEvents|
      ensures forall i :: 0 <= i < |ListedEvents| ==> eventCommands[i] == GetEventCommand(lookup, ListedEvents[i])
    {
      eventCommands := [];
      new;
      RefreshCommands(lookup);
    }

    /** `RefreshCommands`: the collection is cleared and refilled with one
        entry per listed event type, in the listed order. */
    method RefreshCommands(lookup: EventType -> Option<EventCommand>)
      modifies this
      ensures |eventCommands| == |ListedEvents|
      ensures forall i :: 0 <= i < |ListedEvents| ==> eventCommands[i] == GetEventCommand(lookup, ListedEvents[i])
    {
      eventCommands := [];
      var commands := GetEventCommands(lookup, ListedEvents);
      eventCommands := eventCommands + commands;
    }
  }

  /** With a consistent events service, the refreshed entries are exactly the
      listed types in order, each holding a command iff the service has one. */
  lemma RefreshedEntries(lookup: EventType -> Option<EventCommand>, entries: seq<EventCommandItem>)
    requires Consistent(lookup)
    requires |entries| == |ListedEvents|
    requires forall i :: 0 <= i < |ListedEvents| ==> entries[i] == GetEventCommand(lookup, ListedEvents[i])
    ensures forall i :: 0 <= i < |entries| ==> entries[i].eventType == ListedEvents[i]
    ensures forall i :: 0 <= i < |entries| ==> (entries[i].IsExistingCommand() <==> lookup(ListedEvents[i]).Some?)
  {
  }
}

/** The Windows telemetry service: an opt-out gate and a per-session cap on
    the number of events handed to the telemetry client. */
module Telemetry {
  import opened Wrappers
  import opened Strings

  const MaxTelemetryEventsPerSession := 2000

  /** What the telemetry client is asked to track. Property dictionaries are
      lists of key/value pairs in the order the source writes them. */
  datatype TelemetryEvent =
    | ExceptionEvent(description: string)
    | PageView(pageName: string)
    | NamedEvent(name: string, properties: seq<(string, string)>)

  /** `settings` is the application's settings, `None` when they are not
      loaded yet; a present value is its `OptOutTracking` flag. */
  predicate OptedOut(settings: Option<bool>) {
    settings.Some? && settings.value
  }

  /** Whether `TrySendEvent` hands its event to the client. */
  predicate Sends(settings: Option<bool>, totalEventsSent: int) {
    !OptedOut(settings) && totalEventsSent < MaxTelemetryEventsPerSession
  }

  /** A label, or its default when it is null or empty. */
  function LabelOrDefault(text: Option<string>, default: string): (r: string)
    ensures IsNullOrEmpty(text) ==> r == default
    ensures !IsNullOrEmpty(text) ==> r == text.value
    ensures default != "" ==> r != ""
  {
    if IsNullOrEmpty(text) then default else text.value
  }

  /** The counter after one `TrySendEvent`. */
  function CountAfter(totalEventsSent: int, settings: Option<bool>): int {
    if Sends(settings, totalEventsSent) then totalEventsSent + 1 else totalEventsSent
  }

  /** The counter after a session's attempts, one settings value per attempt. */
  function CountAfterAll(totalEventsSent: int, attempts: seq<Option<bool>>): int
    decreases |attempts|
  {
    if attempts == [] then totalEventsSent
    else CountAfterAll(CountAfter(totalEventsSent, attempts[0]), attempts[1..])
  }

  /** The number of attempts made while not opted out. */
  function Allowed(attempts: seq<Option<bool>>): nat {
    if attempts == [] then 0
    else (if OptedOut(attempts[0]) then 0 else 1) + Allowed(attempts[1..])
  }

  /** Over any session, the counter is the number of allowed attempts capped
      at 2000: it never exceeds the cap, and below the cap nothing allowed is dropped. */
  lemma {:induction false} CounterIsCappedCount(totalEventsSent: nat, attempts: seq<Option<bool>>)
    requires totalEventsSent <= MaxTelemetryEventsPerSession
    ensures CountAfterAll(totalEventsSent, attempts) ==
      if totalEventsSent + Allowed(attempts) <= MaxTelemetryEventsPerSession
      then totalEventsSent + Allowed(attempts)
      else MaxTelemetryEventsPerSession
    decreases |attempts|
  {
    if attempts != [] {
      CounterIsCappedCount(CountAfter(totalEventsSent, attempts[0]), attempts[1..]);
    }
  }

  class TelemetryService {
    var totalEventsSent: nat
    /** Everything the telemetry client has been asked to track, in order. */
    var tracked: seq<TelemetryEvent>

    ghost predicate Valid()
      reads this
    {
      totalEventsSent <= MaxTelemetryEventsPerSession
    }

    constructor ()
      ensures Valid() && totalEventsSent == 0 && tracked == []
    {
      totalEventsSent, tracked := 0, [];
    }

    /** `TrySendEvent`: nothing when opted out (null settings are not opted
        out); otherwise the event is tracked and counted while fewer than 2000
        have been sent this session. */
    method TrySendEvent(settings: Option<bool>, event: TelemetryEvent)
      requires Valid()
      modifies this
      ensures Valid()
      ensures totalEventsSent == CountAfter(old(totalEventsSent), settings)
      ensures Sends(settings, old(totalEventsSent)) ==> tracked == old(tracked) + [event]
      ensures !Sends(settings, old(totalEventsSent)) ==> tracked == old(tracked)
    {
      if settings.Some? && settings.value {
        return;
      }

      if totalEventsSent < MaxTelemetryEventsPerSession {
        tracked := tracked + [event];
        totalEventsSent := totalEventsSent + 1;
      }
    }

    method TrackException(settings: Option<bool>, description: string)
      requires Valid()
      modifies this
      ensures Valid() && totalEventsSent == CountAfter(old(totalEventsSent), settings)
      ensures tracked == old(tracked) + (if Sends(settings, old(totalEventsSent)) then [ExceptionEvent(description)] else [])
    {
      TrySendEvent(settings, ExceptionEvent(description));
    }

    method TrackPageView(settings: Option<bool>, pageName: string)
      requires Valid()
      modifies this
      ensures Valid() && totalEventsSent == CountAfter(old(totalEventsSent), settings)
      ensures tracked == old(tracked) + (if Sends(settings, old(totalEventsSent)) then [PageView(pageName)] else [])
    {
      TrySendEvent(settings, PageView(pageName));
    }

    /** `TrackLogin`: an empty user type is reported as "Streamer". */
    method TrackLogin(settings: Option<bool>, userId: string, userType: Option<string>)
      requires Valid()
      modifies this
      ensures Valid() && totalEventsSent == CountAfter(old(totalEventsSent), settings)
      ensures tracked == old(tracked) +
        (if Sends(settings, old(totalEventsSent))
         then [NamedEvent("Login", [("User Type", LabelOrDefault(userType, "Streamer"))])] else [])
    {
      var value := userType;
      if IsNullOrEmpty(value) {
        value := Some("Streamer");
      }
      TrySendEvent(settings, NamedEvent("Login", [("User Type", value.value)]));
    }

    /** `TrackCommand`: `typeName` is the command type's name; empty details
        are reported as "None". */
    method TrackCommand(settings: Option<bool>, typeName: string, details: Option<string>)
      requires Valid()
      modifies this
      ensures Valid() && totalEventsSent == CountAfter(old(totalEventsSent), settings)
      ensures tracked == old(tracked) +
        (if Sends(settings, old(totalEventsSent))
         then [NamedEvent("Command", [("Type", typeName), ("Details", LabelOrDefault(details, "None"))])] else [])
    {
      var value := details;
      if IsNullOrEmpty(value) {
        value := Some("None");
      }
      TrySendEvent(settings, NamedEvent("Command", [("Type", typeName), ("Details", value.value)]));
    }

    method TrackAction(settings: Option<bool>, typeName: string)
      requires Valid()
      modifies this
      ensures Valid() && totalEventsSent == CountAfter(old(totalEventsSent), settings)
      ensures tracked == old(tracked) +
        (if Sends(settings, old(totalEventsSent)) then [NamedEvent("Action", [("Type", typeName)])] else [])
    {
      TrySendEvent(settings, NamedEvent("Action", [("Type", typeName)]));
    }

    method TrackService(settings: Option<bool>, serviceType: string)
      requires Valid()
      modifies this
      ensures Valid() && totalEventsSent == CountAfter(old(totalEventsSent), settings)
      ensures tracked == old(tracked) +
        (if Sends(settings, old(totalEventsSent)) then [NamedEvent("Service", [("Type", serviceType)])] else [])
    {
      TrySendEvent(settings, NamedEvent("Service", [("Type", serviceType)]));
    }

    /** `TrackChannelMetrics`: an empty channel type is reported as "Normal". */
    method TrackChannelMetrics(settings: Option<bool>, channelType: Option<string>, viewerCount: int,
                               chatterCount: int, game: string, viewCount: int)
      requires Valid()
      modifies this
      ensures Valid() && totalEventsSent == CountAfter(old(totalEventsSent), settings)
      ensures tracked == old(tracked) +
        (if Sends(settings, old(totalEventsSent))
         then [NamedEvent("Channel", [("Type", LabelOrDefault(channelType, "Normal")),
                                      ("Viewers", DecimalString(viewerCount)),
                                      ("Chatters", DecimalString(chatterCount)),
                                      ("Game", game),
                                      ("Views", DecimalString(viewCount))])]
         else [])
    {
      var value := channelType;
      if IsNullOrEmpty(value) {
        value := Some("Normal");
      }
      TrySendEvent(settings, NamedEvent("Channel", [("Type", value.value), ("Viewers", DecimalString(viewerCount)),
                                                    ("Chatters", DecimalString(chatterCount)), ("Game", game),
                                                    ("Views", DecimalString(viewCount))]));
    }

    /** `TrackRemoteAuthentication`: tracked directly, past the opt-out and
        the cap, without counting. Guids are given as their text. */
    method TrackRemoteAuthentication(clientId: string)
      modifies this`tracked
      ensures tracked == old(tracked) + [NamedEvent("RemoteAuthentication", [("ClientID", clientId)])]
    {
      tracked := tracked + [NamedEvent("RemoteAuthentication", [("ClientID", clientId)])];
    }

    method TrackRemoteSendProfiles(clientId: string)
      modifies this`tracked
      ensures tracked == old(tracked) + [NamedEvent("RemoteSendProfiles", [("ClientID", clientId)])]
    {
      tracked := tracked + [NamedEvent("RemoteSendProfiles", [("ClientID", clientId)])];
    }

    method TrackRemoteSendBoard(clientId: string, profileId: string, boardId: string)
      modifies this`tracked
      ensures tracked == old(tracked) +
        [NamedEvent("RemoteSendBoard", [("ClientID", clientId), ("ProfileID", profileId), ("BoardID", boardId)])]
    {
      tracked := tracked + [NamedEvent("RemoteSendBoard", [("ClientID", clientId), ("ProfileID", profileId), ("BoardID", boardId)])];
    }
  }
}

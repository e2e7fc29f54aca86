# MixItUp core logic in Dafny

This project models the decision and state logic at the heart of the
MixItUp streaming bot and proves properties of it. It covers:

- **The duel wager game** (`duel.dfy`, module `DuelGame`). One duel command is
  either idle or runs one challenge. A challenge has a guarded start, can be
  accepted by its target, which moves the bet between the two players, or can
  time out through a background timer, which refunds it. The class `Duel`
  keeps the command's run fields, a currency ledger and a log of what the
  command does. Each method is proved equal to a pure step function on
  `DuelState`, and the lemmas about those step functions state the game's
  rules. They also prove an invariant that every step keeps. The timer
  callback of the class follows the corrected timer step described under
  Findings; the timer body as written is the function `Elapsed`.
- **Chat moderation** (`moderation.dfy`, module `Moderation`). This covers:
  - the order of the filtered-word, excessive-text and link checks, and the
    strike and ban policy;
  - the caps and punctuation thresholds, with the five-unit guard on
    percentages;
  - the link rule;
  - the chat participation gate;
  - the ten-second throttle on the participation notice;
  - how the word lists become patterns.

  `ModerationService` is a class whose word lists and notice clock are fields.
  The accumulating excessive-text check is a method with loops, proved equal
  to a function.
- **The chat message** (`chat_message.dfy`, module `ChatMessages`). This
  covers:
  - the tagged user name and argument splitting, with a split/join round trip;
  - incremental plain-text building;
  - the one-shot `Delete` and the event it raises;
  - `CheckForModeration`, `ToString`, and equality by ID.
- **The list overlay's buffer** (`overlay_list.dfy`, module `OverlayList`).
  This is a bounded FIFO cache holding the newest `TotalToShow` items, plus
  the add and remove item factories and the alignment flags.
- **The Trovo user platform** (`trovo_user.dfy`, module `TrovoUser`).
  `SetUserProperties` copies a chat message's sender properties. It syncs the
  eight known Trovo role strings into the role set, and the other strings
  become custom roles.
- **The Windows telemetry service** (`telemetry.dfy`, module `Telemetry`).
  This covers the opt-out gate, the 2000-event session cap and the default
  labels.
- **The events page** (`events_control.dfy`, module `EventsControl`). This
  covers the event-type-to-service classifier and the fixed list of 34 event
  types the page shows.
- **The settings requirement** (`settings_requirement.dfy`, module
  `SettingsRequirement`). This covers the delete-when-run override rule and the
  error cooldown that all instances share.

Three shared modules support the rest:

- `wrappers.dfy` holds `Option`, where `None` is a C# `null`.
- `users.dfy` holds the user roles and the chat user.
- `strings.dfy` holds `IsNullOrEmpty` and decimal formatting.

Some machinery stays opaque and is supplied as plain inputs:

- Regular expressions, `Regex.Escape`, `ToLower`, the Unicode character
  classes and the floating-point percentage are the function-typed fields of
  `Moderation.TextEnv`.
- The clock is an integer number of seconds, passed as a parameter.
- Text lengths in the moderation rules are .NET lengths: the number of UTF-16
  code units (`Moderation.Utf16Length`), where a character outside the Basic
  Multilingual Plane counts twice. A per-`char` count never counts such a
  character, because its two surrogate halves are neither letters nor symbols
  nor punctuation.
- The duel's bet amount, selected target, random draw and success probability
  are fields of the `Invocation` the caller passes.

## Model

| member | source | states |
|---|---|---|
| DuelGame.InnerCommands | MixItUp.Base/Model/Commands/Games/DuelGameCommandModel.cs:63-71 | the four embedded commands: started, not accepted, successful outcome, failed |
| DuelGame.Duel.GetInnerCommands | MixItUp.Base/Model/Commands/Games/DuelGameCommandModel.cs:63-71 | builds exactly that list of four commands |
| DuelGame.TransferIsZeroSum | MixItUp.Base/Model/Commands/Games/DuelGameCommandModel.cs:130-142 | adding the bet to the winner and subtracting it from the loser keeps their combined balance; for two distinct users the winner gains and the loser loses exactly the bet; all other balances are unchanged |
| DuelGame.Cleared | MixItUp.Base/Model/Commands/Games/DuelGameCommandModel.cs:154-168 | after `ClearData` the game is idle: inactive, no parameters, bet 0, no cancellation source |
| DuelGame.ClearedIsIdempotent | MixItUp.Base/Model/Commands/Games/DuelGameCommandModel.cs:154-168 | clearing twice is clearing once; clearing touches neither the ledger nor the outward effects |
| DuelGame.Duel.ClearData | MixItUp.Base/Model/Commands/Games/DuelGameCommandModel.cs:154-168 | the new state is the cleared old state, and the running cancellation source is cancelled |
| DuelGame.StartGuards | MixItUp.Base/Model/Commands/Games/DuelGameCommandModel.cs:75-123 | from idle, a session starts iff the bet is positive, a target is found and the target holds the bet; each failing guard sends its own message, refunds, and changes nothing else |
| DuelGame.StartStoresSession | MixItUp.Base/Model/Commands/Games/DuelGameCommandModel.cs:85-108 | a successful start stores the initiator's parameters with the found target and the bet, sets `gameActive`, starts one timer, runs the started command once and resets the cooldown without refunding |
| DuelGame.RefundUnlessStarted | MixItUp.Base/Model/Commands/Games/DuelGameCommandModel.cs:105-151 | every invocation except a successful start ends by refunding the invoking user's parameters |
| DuelGame.RejectWhileOpen | MixItUp.Base/Model/Commands/Games/DuelGameCommandModel.cs:125-149 | while a session runs, anyone but the stored target gets "already underway" and a refund; the run fields and the ledger are unchanged |
| DuelGame.AcceptanceIsZeroSum | MixItUp.Base/Model/Commands/Games/DuelGameCommandModel.cs:127-145 | on acceptance the initiator wins iff draw <= success probability; the winner gains and the loser loses exactly the stored bet; exactly one outcome command runs, then the cooldown commit and the refund; the game is idle again |
| DuelGame.TimerGuard | MixItUp.Base/Model/Commands/Games/DuelGameCommandModel.cs:94-101 | the timer runs the not-accepted command and the refund only when the game is active and its token is uncancelled; the cooldown commit and the clearing happen in every case |
| DuelGame.TimerResolvesOnlyRunningSession | MixItUp.Base/Model/Commands/Games/DuelGameCommandModel.cs:90-102 | under the invariant, a timer runs the not-accepted command iff its token is the running session's |
| DuelGame.NoTimeoutAfterAcceptance | MixItUp.Base/Model/Commands/Games/DuelGameCommandModel.cs:94-99 | after an acceptance, that session's timer can no longer run the not-accepted command or refund |
| DuelGame.NoAcceptanceAfterTimeout | MixItUp.Base/Model/Commands/Games/DuelGameCommandModel.cs:94-101 | after a timeout the session is resolved as not accepted, and a later invocation by the target is not an acceptance |
| DuelGame.InitialInv | MixItUp.Base/Model/Commands/Games/DuelGameCommandModel.cs:29-36 | a fresh duel satisfies the session invariant |
| DuelGame.PerformedKeepsInv | MixItUp.Base/Model/Commands/Games/DuelGameCommandModel.cs:73-152 | every invocation keeps the invariant: a running session is active, has a target and a positive bet, and owns an uncancelled pending timer; every other pending timer is cancelled |
| DuelGame.ElapsedKeepsInv | MixItUp.Base/Model/Commands/Games/DuelGameCommandModel.cs:90-102 | every timer callback keeps the invariant |
| DuelGame.ElapsedCheckedKeepsInv | MixItUp.Base/Model/Commands/Games/DuelGameCommandModel.cs:94-101 | the corrected timer keeps the invariant too |
| DuelGame.StaleTimerClearsNewerSession | MixItUp.Base/Model/Commands/Games/DuelGameCommandModel.cs:100-101 | as written, an accepted session's timer that fires after a newer session started clears the newer session, which then never times out or refunds |
| DuelGame.CheckedTimerKeepsOtherSessions | MixItUp.Base/Model/Commands/Games/DuelGameCommandModel.cs:94-101 | the corrected timer leaves every session but its own untouched, and acts as written on its own session |
| DuelGame.CheckedTimerKeepsNewerSession | MixItUp.Base/Model/Commands/Games/DuelGameCommandModel.cs:94-101 | in the same scenario, the corrected timer keeps the newer session, whose own timer then refunds it |
| DuelGame.Duel.constructor | MixItUp.Base/Model/Commands/Games/DuelGameCommandModel.cs:29-36 | a new duel is idle over the given ledger and satisfies the invariant |
| DuelGame.Duel.PerformInternal | MixItUp.Base/Model/Commands/Games/DuelGameCommandModel.cs:73-152 | the new state is `Performed` of the old state, and the invariant is kept |
| DuelGame.Duel.StartSession | MixItUp.Base/Model/Commands/Games/DuelGameCommandModel.cs:85-108 | the new state is the started session |
| DuelGame.Duel.Accept | MixItUp.Base/Model/Commands/Games/DuelGameCommandModel.cs:127-145 | the new state is the accepted, cleared session |
| DuelGame.Duel.TimerCallback | MixItUp.Base/Model/Commands/Games/DuelGameCommandModel.cs:90-102 | the corrected timer (see Findings): a stale timer only goes away, and the running session's timer does what the source does; the invariant is kept |
| Moderation.ConvertCountToPercentage | MixItUp.Base/Services/ModerationService.cs:419-429 | a length below five code units gives 0%; any other length gives the percentage of the count over it |
| Moderation.CapsRule | MixItUp.Base/Services/ModerationService.cs:189-201 | with a positive threshold, "Too Many Caps" iff the upper-case code-unit count of the original text (or its percentage of the text's UTF-16 length) reaches the threshold; with a threshold of 0 or less, never |
| Moderation.ShortTextNeverTooManyCaps | MixItUp.Base/Services/ModerationService.cs:192-197 | in percentage mode, a text shorter than five UTF-16 code units is never "Too Many Caps" |
| Moderation.EmojiCountTwiceForCaps | MixItUp.Base/Services/ModerationService.cs:191-194 | "A" plus two emoji is five code units long, so its one capital is 20% and meets a threshold of 20; the emoji are not capitals |
| Moderation.ExemptNeverExcessive | MixItUp.Base/Services/ModerationService.cs:185-244 | an exempt user's text is never excessive |
| Moderation.ModerationService.ShouldTextBeExcessiveModerated | MixItUp.Base/Services/ModerationService.cs:185-244 | the accumulated caps count (over the UTF-16 length), punctuation count and segment count give exactly the reason the excessive-text rule defines |
| Moderation.ModerationService.PunctuationScoreOf | MixItUp.Base/Services/ModerationService.cs:208-234 | the punctuation count is one per emote and emoji match plus the symbol and punctuation code units of the left-over text; in percentage mode it is a percentage of the segments, which are the matches plus one per UTF-16 code unit of the left-over text |
| Moderation.SegmentMatches | MixItUp.Base/Services/ModerationService.cs:212-223 | after a loop over regex matches, every match is appended to the segments, the left-over text has each of them removed, and the count grows by the number of matches |
| Moderation.CountMatching | MixItUp.Base/Services/ModerationService.cs:191 | counts exactly the code units satisfying the classifier: characters outside the Basic Multilingual Plane never count |
| Moderation.LinkModerationReason | MixItUp.Base/Services/ModerationService.cs:246-259 | the result is either null or "No Links" |
| Moderation.LinkRule | MixItUp.Base/Services/ModerationService.cs:246-258 | "No Links" iff the user is not exempt, link blocking is on, and the message is flagged or its prepared text matches the link pattern |
| Moderation.ParticipationGate | MixItUp.Base/Services/ModerationService.cs:261-278 | with no participation setting everyone passes; otherwise a null user fails, and an ignored or exempt user passes |
| Moderation.ParticipationIsRuleTable | MixItUp.Base/Services/ModerationService.cs:280-340 | a present, non-ignored, non-exempt user passes iff they hold the rule's role, have an account date, and meet the account age and viewing minutes of the rule table; a threshold fails strictly below |
| Moderation.ParticipationAudience | MixItUp.Base/Services/ModerationService.cs:349-397 | the notice names an audience exactly for the settings that restrict participation |
| Moderation.ModerationService.SendChatInteractiveParticipationWhisper | MixItUp.Base/Services/ModerationService.cs:345-410 | sends the notice only for a user, only from chat, and only when ten seconds have passed since the last one, then sets the next allowed time; a suppressed call changes nothing |
| Moderation.FirstReason | MixItUp.Base/Services/ModerationService.cs:114-144 | the first non-empty reason of a list of check results; all earlier ones are empty |
| Moderation.ModerationService.ShouldTextBeFilteredWordModerated | MixItUp.Base/Services/ModerationService.cs:147-183 | an exempt user gets no reason; otherwise, on the prepared text, the filtered-word reason iff a community pattern (when community words are enabled) or a filtered-word pattern matches, else the banned-word reason iff a banned-word pattern matches, else none; the user is banned exactly with the banned-word reason |
| Moderation.ModerationService.FilteredWordModeration | MixItUp.Base/Services/ModerationService.cs:147-183 | the three first-match loops over community, filtered and banned patterns give exactly that result |
| Moderation.MatchesAny | MixItUp.Base/Services/ModerationService.cs:155-161 | a word-list loop finds a match iff some pattern of the list matches the text, and none when it runs to the end |
| Moderation.ModerationService.ShouldTextBeModerated | MixItUp.Base/Services/ModerationService.cs:105-145 | a strike or a ban always comes with a non-empty reason |
| Moderation.ModerationService.ModerationOrder | MixItUp.Base/Services/ModerationService.cs:105-145 | empty text or an ignored user gives no reason; otherwise the first non-empty reason in the order filtered-word, excessive, link wins; a strike is added iff that category applies strikes; only a banned word bans |
| Moderation.Patterns | MixItUp.Base/Services/ModerationService.cs:93-96 | one word pattern per configured word |
| Moderation.CommunityPatterns | MixItUp.Base/Services/ModerationService.cs:81-84 | one pattern per community word |
| Moderation.ModerationService.constructor | MixItUp.Base/Services/ModerationService.cs:68-72 | the word lists start empty and the notice clock at its minimum |
| Moderation.ModerationService.Initialize | MixItUp.Base/Services/ModerationService.cs:74-88 | when the community file exists, its words replace the static list and their patterns are appended; the filtered and banned lists are rebuilt |
| Moderation.ModerationService.RebuildCache | MixItUp.Base/Services/ModerationService.cs:90-103 | the filtered and banned lists become exactly the patterns of the configured words, in order |
| ChatMessages.PrimaryTaggedUsername | MixItUp.Base/ViewModel/Chat/ChatMessageViewModel.cs:85-100 | null unless the text starts with '@'; otherwise a space-free name that, with '@' before it, is the whole text or is followed by a space |
| ChatMessages.TaggedUsernameIsUnique | MixItUp.Base/ViewModel/Chat/ChatMessageViewModel.cs:85-100 | any space-free name with that shape is the tagged name |
| ChatMessages.Tokens | MixItUp.Base/ViewModel/Chat/ChatMessageViewModel.cs:106 | every token is a non-empty, space-free word, and together the tokens hold exactly the non-space characters of the text |
| ChatMessages.TokensOfJoin | MixItUp.Base/ViewModel/Chat/ChatMessageViewModel.cs:106 | splitting a single-space join of words gives back those words |
| ChatMessages.TokensOfWord | MixItUp.Base/ViewModel/Chat/ChatMessageViewModel.cs:106 | a non-empty text without spaces is a single token |
| ChatMessages.TokensOfSpaceJoin | MixItUp.Base/ViewModel/Chat/ChatMessageViewModel.cs:106 | tokens never span a space: the tokens of `s + " " + t` are those of `s` followed by those of `t`, so leading, trailing and repeated spaces give no empty entries |
| ChatMessages.TokensSplitAtSpaces | MixItUp.Base/ViewModel/Chat/ChatMessageViewModel.cs:106 | at every space of a text, its tokens split into those before and those after it; a word is its own only token |
| ChatMessages.ToArguments | MixItUp.Base/ViewModel/Chat/ChatMessageViewModel.cs:106 | null iff the text is empty; otherwise non-empty space-free words covering every non-space character; a text without spaces is one argument; at every space the arguments are those of the text before it followed by those of the text after it |
| ChatMessages.AppendPart | MixItUp.Base/ViewModel/Chat/ChatMessageViewModel.cs:170-177 | the part itself on an empty text, otherwise old text, a space, then the part |
| ChatMessages.PlainTextIsJoin | MixItUp.Base/ViewModel/Chat/ChatMessageViewModel.cs:167-178 | adding non-empty parts one at a time to an empty message gives their single-space join |
| ChatMessages.ChatMessage.AddStringMessagePart | MixItUp.Base/ViewModel/Chat/ChatMessageViewModel.cs:167-178 | appends a text part and extends the plain text as above |
| ChatMessages.TextOnly | MixItUp.Base/ViewModel/Chat/ChatMessageViewModel.cs:102 | yields no more entries than parts, and each is the text of some text part |
| ChatMessages.TextOnlyOfAppend | MixItUp.Base/ViewModel/Chat/ChatMessageViewModel.cs:102 | the filter distributes over concatenation of part lists |
| ChatMessages.TextOnlyOfOne | MixItUp.Base/ViewModel/Chat/ChatMessageViewModel.cs:102 | a single text part gives its text; a single other part gives nothing |
| ChatMessages.TextOnlyDropsOnlyOtherParts | MixItUp.Base/ViewModel/Chat/ChatMessageViewModel.cs:102 | at any position of a mixed message, a text part contributes its text in place and any other part contributes nothing |
| ChatMessages.TextOnlyOfTexts | MixItUp.Base/ViewModel/Chat/ChatMessageViewModel.cs:102 | a message of text parts only keeps all their texts, in order |
| ChatMessages.TextContentsArePlainText | MixItUp.Base/ViewModel/Chat/ChatMessageViewModel.cs:102 | for a message built from non-empty string parts, the text-only contents equal the plain text |
| ChatMessages.Render | MixItUp.Base/ViewModel/Chat/ChatMessageViewModel.cs:193-207 | the plain text without a user; "user -> target: text" for whispers; "user: text" otherwise |
| ChatMessages.ChatMessage.ToString | MixItUp.Base/ViewModel/Chat/ChatMessageViewModel.cs:193-207 | the same three shapes, from the message's user, target and plain text |
| ChatMessages.DeleteIsIdempotent | MixItUp.Base/ViewModel/Chat/ChatMessageViewModel.cs:131-149 | only the first `Delete` changes the deletion fields and raises `OnDeleted`, once; later calls change and raise nothing |
| ChatMessages.DeletedByAndReason | MixItUp.Base/ViewModel/Chat/ChatMessageViewModel.cs:138-157 | `DeletedBy` changes only to a moderator's non-empty full display name; the deletion event goes out iff there is a user and plain text, and its reason falls back to "Manual Deletion" |
| ChatMessages.ChatMessage.Delete | MixItUp.Base/ViewModel/Chat/ChatMessageViewModel.cs:131-165 | the new deletion fields and the raised event are those of the deletion rule |
| ChatMessages.ChatMessage.CheckForModeration | MixItUp.Base/ViewModel/Chat/ChatMessageViewModel.cs:108-129 | user-less messages and whispers are never deleted; otherwise a failed participation gate deletes with "Chat Participation" and sends the participation notice under its ten-second throttle, else a moderation reason deletes with that reason; only a failed gate changes the moderation service's notice clock and sent messages; the result says whether it deleted |
| ChatMessages.ChatMessage.constructor | MixItUp.Base/ViewModel/Chat/ChatMessageViewModel.cs:47-52 | a new message has its ID and user, no parts and no deletion |
| ChatMessages.EqualityIsById | MixItUp.Base/ViewModel/Chat/ChatMessageViewModel.cs:180-191 | equality is an equivalence decided by the ID alone, and equal messages hash alike |
| OverlayList.CreateAddItem | MixItUp.Base/Model/Overlay/OverlayListItemModelBase.cs:69-79 | an add item (not a remove) with the given ID, position and HTML; an empty user ID for a null user |
| OverlayList.CreateRemoveItem | MixItUp.Base/Model/Overlay/OverlayListItemModelBase.cs:81-88 | a remove item (not an add) carrying only the ID |
| OverlayList.KeepLast | MixItUp.Base/Model/Overlay/OverlayListItemModelBase.cs:167-170 | the newest n items, or all of them when there are fewer, as a suffix in order |
| OverlayList.KeepLastOfAppend | MixItUp.Base/Model/Overlay/OverlayListItemModelBase.cs:166-170 | trimming after each batch keeps the same items as trimming once after all batches |
| OverlayList.ListOverlay.GetProcessedItem | MixItUp.Base/Model/Overlay/OverlayListItemModelBase.cs:163-173 | pending items join the cache, the cache keeps the newest `TotalToShow`, and the pending list empties; a negative `TotalToShow` empties the cache and fails |
| OverlayList.ListOverlay.LoadCachedData | MixItUp.Base/Model/Overlay/OverlayListItemModelBase.cs:175-181 | the cache becomes the pending list and is emptied |
| OverlayList.ListOverlay.Disable | MixItUp.Base/Model/Overlay/OverlayListItemModelBase.cs:156-161 | both lists are emptied |
| OverlayList.ListOverlay.Default | MixItUp.Base/Model/Overlay/OverlayListItemModelBase.cs:131-135 | the default alignment is Top |
| OverlayList.ListOverlay.constructor | MixItUp.Base/Model/Overlay/OverlayListItemModelBase.cs:137-151 | keeps the given total and alignment, with empty lists |
| OverlayList.AtMostOneAlignment | MixItUp.Base/Model/Overlay/OverlayListItemModelBase.cs:117-122 | at most one `Force*Align` flag holds, and none exactly for the `None` alignment |
| TrovoUser.RoleStrings | MixItUp.Base/Model/User/Platform/TrovoUserPlatformV2Model.cs:80 | the set holds exactly the message's role strings |
| TrovoUser.KnownRolesAreDistinct | MixItUp.Base/Model/User/Platform/TrovoUserPlatformV2Model.cs:82-97 | the eight known strings and their eight roles are pairwise distinct |
| TrovoUser.SyncMembership | MixItUp.Base/Model/User/Platform/TrovoUserPlatformV2Model.cs:82-97 | after the sync lines, each table role is held iff its string was present, and every other role is as before |
| TrovoUser.RoleSync | MixItUp.Base/Model/User/Platform/TrovoUserPlatformV2Model.cs:78-104 | each of the eight mapped roles is held iff its string is listed; other roles (such as `User`) are untouched; custom roles are exactly the listed strings that are not known ones, replacing the old ones |
| TrovoUser.PropertiesCopied | MixItUp.Base/Model/User/Platform/TrovoUserPlatformV2Model.cs:66-79 | a null message changes nothing; null roles leave both role sets alone; the avatar link changes only for a non-empty avatar; ID, user name and display name come from the message |
| TrovoUser.AppliedIsIdempotent | MixItUp.Base/Model/User/Platform/TrovoUserPlatformV2Model.cs:66-106 | applying the same message twice equals applying it once |
| TrovoUser.TrovoUserPlatform.constructor | MixItUp.Base/Model/User/Platform/TrovoUserPlatformV2Model.cs:41-47 | ID, user name and display name as given, no avatar and no roles |
| TrovoUser.TrovoUserPlatform.SyncRole | MixItUp.Base/Model/User/Platform/TrovoUserPlatformV2Model.cs:82 | one sync line extends the synced prefix by one known role |
| TrovoUser.TrovoUserPlatform.SyncKnownRoles | MixItUp.Base/Model/User/Platform/TrovoUserPlatformV2Model.cs:80-97 | the eight sync lines give the synced role set and leave exactly the unknown strings |
| TrovoUser.TrovoUserPlatform.ReplaceCustomRoles | MixItUp.Base/Model/User/Platform/TrovoUserPlatformV2Model.cs:99-103 | the custom roles become exactly the left-over strings |
| TrovoUser.TrovoUserPlatform.SetUserProperties | MixItUp.Base/Model/User/Platform/TrovoUserPlatformV2Model.cs:66-106 | the new properties are `Applied` to the old properties, which the lemmas above characterise |
| Telemetry.LabelOrDefault | MixItUp.WPF/Services/WindowsTelemetryService.cs:69-72 | a null or empty label becomes its default, any other label is kept, and the result is never empty |
| Telemetry.CounterIsCappedCount | MixItUp.WPF/Services/WindowsTelemetryService.cs:127-139 | over any sequence of attempts, the counter equals the number of attempts not opted out, capped at 2000 |
| Telemetry.TelemetryService.constructor | MixItUp.WPF/Services/WindowsTelemetryService.cs:17-20 | the counter starts at 0, within the cap |
| Telemetry.TelemetryService.TrySendEvent | MixItUp.WPF/Services/WindowsTelemetryService.cs:127-139 | opted out (null settings are not): nothing; otherwise the event is tracked and counted iff fewer than 2000 were sent; the counter stays within 2000 |
| Telemetry.TelemetryService.TrackException | MixItUp.WPF/Services/WindowsTelemetryService.cs:57-60 | tracks the exception through the gate |
| Telemetry.TelemetryService.TrackPageView | MixItUp.WPF/Services/WindowsTelemetryService.cs:62-65 | tracks the page view through the gate |
| Telemetry.TelemetryService.TrackLogin | MixItUp.WPF/Services/WindowsTelemetryService.cs:67-75 | a "Login" event through the gate; an empty user type is reported as "Streamer" |
| Telemetry.TelemetryService.TrackCommand | MixItUp.WPF/Services/WindowsTelemetryService.cs:77-84 | a "Command" event through the gate; empty details are reported as "None" |
| Telemetry.TelemetryService.TrackAction | MixItUp.WPF/Services/WindowsTelemetryService.cs:86-89 | an "Action" event through the gate |
| Telemetry.TelemetryService.TrackService | MixItUp.WPF/Services/WindowsTelemetryService.cs:91-94 | a "Service" event through the gate |
| Telemetry.TelemetryService.TrackChannelMetrics | MixItUp.WPF/Services/WindowsTelemetryService.cs:96-104 | a "Channel" event through the gate; an empty channel type is reported as "Normal"; the counts are written in decimal |
| Telemetry.TelemetryService.TrackRemoteAuthentication | MixItUp.WPF/Services/WindowsTelemetryService.cs:106-109 | tracked past the opt-out and the cap, without touching the counter |
| Telemetry.TelemetryService.TrackRemoteSendProfiles | MixItUp.WPF/Services/WindowsTelemetryService.cs:111-114 | tracked past the opt-out and the cap, without touching the counter |
| Telemetry.TelemetryService.TrackRemoteSendBoard | MixItUp.WPF/Services/WindowsTelemetryService.cs:116-120 | tracked past the opt-out and the cap, without touching the counter |
| EventsControl.ServiceClassification | MixItUp.Base/ViewModel/MainControls/EventsMainControlViewModel.cs:24-82 | named donation, Patreon, Streamloots and StreamElements types map to their service whatever their number; any other type is Mixer in [100, 200), Twitch in [200, 300), Generic otherwise |
| EventsControl.FromCommand | MixItUp.Base/ViewModel/MainControls/EventsMainControlViewModel.cs:14-18 | the entry takes the command's event type and is an existing command, not a new one |
| EventsControl.FromEventType | MixItUp.Base/ViewModel/MainControls/EventsMainControlViewModel.cs:20 | the entry has the type and no command: a new command, not an existing one |
| EventsControl.GetEventCommand | MixItUp.Base/ViewModel/MainControls/EventsMainControlViewModel.cs:146-157 | the entry carries a command iff the events service returns one for the type |
| EventsControl.ListedEventsShape | MixItUp.Base/ViewModel/MainControls/EventsMainControlViewModel.cs:105-141 | the page lists 34 distinct event types, and the chat purge event is not among them |
| EventsControl.GetEventCommands | MixItUp.Base/ViewModel/MainControls/EventsMainControlViewModel.cs:103-141 | one entry per type, in order |
| EventsControl.EventsMainControl.RefreshCommands | MixItUp.Base/ViewModel/MainControls/EventsMainControlViewModel.cs:99-144 | the collection is replaced by one entry per listed type, in the listed order |
| EventsControl.EventsMainControl.constructor | MixItUp.Base/ViewModel/MainControls/EventsMainControlViewModel.cs:93-97 | a new page is already refreshed |
| EventsControl.RefreshedEntries | MixItUp.Base/ViewModel/MainControls/EventsMainControlViewModel.cs:99-157 | with a consistent events service, the refreshed entries are exactly the listed types in order, each with a command iff the service has one |
| SettingsRequirement.DeletionOverrides | MixItUp.Base/Model/Requirements/SettingsRequirementModel.cs:32 | the per-command delete flag always deletes; otherwise deletion happens iff the global setting is on and the "don't delete" flag is off |
| SettingsRequirement.ErrorCooldown.constructor | MixItUp.Base/Model/Requirements/SettingsRequirementModel.cs:8 | the shared cooldown starts at the minimum time |
| SettingsRequirement.SettingsRequirementModel.constructor | MixItUp.Base/Model/Requirements/SettingsRequirementModel.cs:18 | all three flags are off, over the shared cooldown |
| SettingsRequirement.SettingsRequirementModel.FromLegacy | MixItUp.Base/Model/Requirements/SettingsRequirementModel.cs:21-27 | the three flags are copied from the legacy requirement |
| SettingsRequirement.SettingsRequirementModel.SetRequirementErrorCooldown | MixItUp.Base/Model/Requirements/SettingsRequirementModel.cs:30 | after setting the cooldown through one requirement, every requirement sharing the static storage reads the new value |

## Left out

- The duel's threading (`AsyncRunner.RunAsyncBackground`, `Task.Delay`, the
  real `CancellationTokenSource`). The timer is the explicit event
  `TimerCallback(token)`, and steps are atomic, so interleavings inside one
  invocation are not modelled.
- Some duel helpers are not part of this model:
  - `GetBetAmount`, `SetSelectedUser`, `GenerateProbability`,
    `GetRoleProbabilityPayout` and the currency service;
  - the inner commands' `Perform`, the cooldown, and `Requirements.Refund`.

  These helpers' results are fields of `Invocation`. Their effects are entries
  in the effect log, and the ledger is a map from user to balance.
- Regular-expression semantics. This covers the word, emote, emoji, link and
  user-tag patterns, `Regex.Escape`, `ToLower` and the Unicode classifiers
  `char.IsUpper`, `IsSymbol` and `IsPunctuation`. They are uninterpreted
  fields of `TextEnv`.
- Moderation.ConvertCountToPercentage: the floating-point
  `(int)(count / length * 100.0)` is the uninterpreted `percentage` input.
  Only the guard of five code units is stated.
- The segment list of the punctuation check. The model keeps the emote and
  emoji matches as strings and the left-over text's single-code-unit
  segments as their number. A lone surrogate half is not a Dafny character,
  and only the list's length is read.
- Three moderation side effects appear only as `Verdict` flags:
  `AddModerationStrike`, `BanUser` and the chat service's `SendMessage`. The
  notice's text is appended to `sentMessages`.
- The file access in `Initialize`. The community file arrives as its
  non-empty lines, or `None` when the file does not exist.
- ChatMessages.PrimaryTaggedUsername: the "@" prefix test is ordinal. The
  source's `StartsWith("@")` compares in the current culture, which skips
  ignorable code points such as the soft hyphen U+00AD, so "\u00AD@bob hi"
  gives "@bob" there and null here. The `IndexOf` and `Substring` after it
  are ordinal in both.
- Moderation.ParticipationMet: the clock is whole seconds. Account age
  thresholds compare whole seconds rather than fractional `TimeSpan`
  values.
- The participation gate's unused message argument.
- `IsStreamerTagged`, `IsStreamerOrBot`, `ProcessingTime`, `Timestamp` and
  the font and timestamp settings of the chat message. They read application
  globals and the clock.
- `ContainsOnlyEmotes`: it is a virtual hook that returns false.
- The deletion event: it is returned as a value instead of being dispatched
  through the events service.
- The `Delete` exception handler: nothing in the modelled body throws.
- The overlay item's `GetUser` cache and the JSON `PerformReplacements`. They
  need service and settings lookups. The overlay text-height arithmetic is
  not part of this model.
- The overlay's base-class `GetProcessedItem`, and the list semaphore.
- OverlayList.ListOverlay.GetProcessedItem: with a negative `TotalToShow`, the
  source's `RemoveAt(0)` throws on the emptied cache. The model returns
  `false` at that point instead of raising an exception.
- The Trovo role string values. They are defined by the Trovo client library,
  which is not part of this model. The eight literals here stand in for them;
  only their distinctness is used.
- The other Trovo constructors and `Refresh`: they copy fields from API
  models or call the Trovo service.
- Trovo user IDs are formatted with `Strings.DecimalString`, which stands for
  `long.ToString()` in the invariant culture.
- The `TelemetryClient` calls, `Connect`, `Disconnect` and `SetUserID`.
  Tracked events are appended to the `tracked` log.
- Command and action enumeration names are given as their text.
- Guids are given as their text.
- The numeric values of the event type enumeration. They are in a file that
  is not part of this model, so `Service` takes the number as an argument.
- Event types the page does not mention collapse into `OtherEvent`.
- `Name`, which is a localisation lookup.
- The localised service names: they are the `ServiceName` datatype.
- The observable collection's change notifications and locking.
- `RefreshCommands` adds the 34 entries through a loop over the listed
  constant, not 34 separate `Add` lines.
- The settings requirement's base-class validation and its global
  `DeleteChatCommandsWhenRun` setting. The setting is a parameter.
- `DateTimeOffset` values are whole seconds, with 0 for the minimum value.

## Findings

| source | as written | input that shows it | evidently intended | confidence | as-written member | corrected member |
|---|---|---|---|---|---|---|
| MixItUp.Base/Model/Commands/Games/DuelGameCommandModel.cs:94-101 | the timer body commits the cooldown and calls `ClearData` whether or not its own session is still the running one | user 1 challenges user 2 for 30; user 2 accepts (the session's timer is cancelled but still pending); user 3 challenges user 4 for 20; the first timer fires and clears user 3's session, so its own timer later finds the game inactive, and user 3 is never refunded | a timer whose cancellation token was cancelled leaves a newer session alone | medium, not executed | DuelGame.StaleTimerClearsNewerSession | DuelGame.CheckedTimerKeepsOtherSessions |

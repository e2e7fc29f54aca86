/** The moderation decision logic (`ModerationService`).

    Regular expressions, `Regex.Escape`, `ToLower`, the Unicode character
    classes and the floating-point percentage are not interpreted: they are
    the fields of a `TextEnv` value the caller supplies. Time is an integer
    clock in seconds; viewing time is the user's whole minutes. */
module Moderation {
  import opened Wrappers
  import opened Users
  import opened Strings

  /** The chat participation setting. `Anyone` is the source's `None` (0); the
      last three members are obsolete values kept so that stored settings
      still mean something. */
  datatype Participation =
    | Anyone
    | AccountHour
    | AccountDay
    | AccountWeek
    | AccountMonth
    | ViewingTenMinutes
    | ViewingThirtyMinutes
    | ViewingOneHour
    | ViewingTwoHours
    | ViewingTenHours
    | FollowerOnly
    | SubscriberOnly
    | ModeratorOnly
    | EmotesSkillsOnly
    | SkillsOnly
    | EmberSkillsOnly

  /** The application settings the moderation rules read. */
  datatype Settings = Settings(
    filteredWordsExempt: Role,
    useCommunityFilteredWords: bool,
    filteredWordsApplyStrikes: bool,
    chatTextExempt: Role,
    capsBlockCount: int,
    capsBlockIsPercentage: bool,
    punctuationBlockCount: int,
    punctuationBlockIsPercentage: bool,
    chatTextApplyStrikes: bool,
    blockLinksExempt: Role,
    blockLinks: bool,
    blockLinksApplyStrikes: bool,
    participation: Participation,
    participationExempt: Role)

  /** The text machinery the rules use without looking inside:
      `isMatch(text, pattern)` is a case-insensitive `Regex.IsMatch`;
      `escape` is `Regex.Escape`; `stripUserTags` removes the user-name tag
      pattern; `emoteMatches`/`emojiMatches` list the matches of the emote and
      emoji patterns in order; `isLink` is the link pattern;
      `percentage(count, length)` is `(int)((double)count / length * 100.0)`. */
  datatype TextEnv = TextEnv(
    isMatch: (string, string) -> bool,
    escape: string -> string,
    toLower: string -> string,
    stripUserTags: string -> string,
    emoteMatches: string -> seq<string>,
    emojiMatches: string -> seq<string>,
    isLink: string -> bool,
    isUpper: char -> bool,
    isSymbolOrPunctuation: char -> bool,
    percentage: (int, int) -> int)

  /** The outcome of `ShouldTextBeModerated`: the reason (null when the text
      may stay), whether a moderation strike is added, and whether the user is
      banned. */
  datatype Verdict = Verdict(reason: Option<string>, strike: bool, ban: bool)

  /** The outcome of the filtered-word check: the reason and whether the user is banned. */
  datatype FilterResult = FilterResult(reason: Option<string>, ban: bool)

  const FilteredWordReason := "The previous message was deleted due to a filtered word"
  const BannedWordReason := "The previous message was deleted due to a banned Word"
  const CapsReason := "Too Many Caps"
  const PunctuationReason := "Too Many Punctuation/Symbols/Emotes"
  const LinkReason := "No Links"

  const WordRegexPrefix := "(^|[^\\w])"
  const WordRegexSuffix := "([^\\w]|$)"
  const WordWildcardRegex := "\\S*"

  const MinimumMessageLengthForPercentageModeration := 5
  /** Seconds between two participation chat notices. */
  const ParticipationNoticeInterval := 10

  const SecondsPerHour := 3600
  const SecondsPerDay := 86400

  // ---------------------------------------------------------------------------
  // String helpers

  /** `string.Replace(pattern, replacement)`: every non-overlapping occurrence, left to
      right. The source never passes an empty pattern (.NET would throw); here
      an empty pattern leaves the text as it is. */
  function ReplaceAll(s: string, pattern: string, replacement: string): string
    decreases |s|
  {
    if |pattern| == 0 || |s| < |pattern| then s
    else if s[..|pattern|] == pattern then replacement + ReplaceAll(s[|pattern|..], pattern, replacement)
    else [s[0]] + ReplaceAll(s[1..], pattern, replacement)
  }

  /** Removes each pattern of `patterns` in turn. */
  function RemoveEach(s: string, patterns: seq<string>): string {
    if patterns == [] then s
    else ReplaceAll(RemoveEach(s, patterns[..|patterns| - 1]), patterns[|patterns| - 1], "")
  }

  /** Whether `c` is a single UTF-16 code unit. A character outside the
      Basic Multilingual Plane is stored by .NET as two surrogate halves. */
  predicate InBmp(c: char) {
    c as int < 0x1_0000
  }

  /** The length of `s` as .NET measures it (`Length`, `Count()`,
      `ToCharArray()`): its number of UTF-16 code units. */
  function Utf16Length(s: string): (n: nat)
    ensures |s| <= n <= 2 * |s|
  {
    if s == [] then 0
    else Utf16Length(s[..|s| - 1]) + (if InBmp(s[|s| - 1]) then 1 else 2)
  }

  /** `s.Count(p)` over the UTF-16 code units of `s`. A surrogate half is in
      no letter, symbol or punctuation category, so a character outside the
      Basic Multilingual Plane never counts; every other character counts
      when `p` holds for it. */
  function CountWhere(s: string, p: char -> bool): (n: nat)
    ensures n <= |s|
  {
    if s == [] then 0
    else CountWhere(s[..|s| - 1], p) + (if InBmp(s[|s| - 1]) && p(s[|s| - 1]) then 1 else 0)
  }

  // ---------------------------------------------------------------------------
  // Text preparation and the percentage rule

  /** `PrepareTextForChecking`: lower-case (null or empty becomes empty), then
      strip user-name tags. */
  function PrepareTextForChecking(env: TextEnv, text: string): string {
    env.stripUserTags(if text == "" then "" else env.toLower(text))
  }

  /** `ConvertCountToPercentage`: texts shorter than five count as 0%. */
  function ConvertCountToPercentage(env: TextEnv, length: int, count: int): (r: int)
    ensures length < MinimumMessageLengthForPercentageModeration ==> r == 0
    ensures length >= MinimumMessageLengthForPercentageModeration ==> r == env.percentage(count, length)
  {
    if length >= MinimumMessageLengthForPercentageModeration then env.percentage(count, length) else 0
  }

  // ---------------------------------------------------------------------------
  // The excessive-text rule, as a function

  /** The caps measure: the upper-case code units of the ORIGINAL text, or
      their percentage of its UTF-16 length. */
  function CapsScore(env: TextEnv, settings: Settings, text: string): int {
    var count := CountWhere(text, env.isUpper);
    if settings.capsBlockIsPercentage then ConvertCountToPercentage(env, Utf16Length(text), count) else count
  }

  /** What is left of the prepared text once every emote and emoji match is removed. */
  function LeftOver(env: TextEnv, prepared: string): string {
    RemoveEach(prepared, env.emoteMatches(prepared) + env.emojiMatches(prepared))
  }

  /** The number of message segments: one per emote, one per emoji, then
      one per UTF-16 code unit of the left-over text (`ToCharArray`). */
  function SegmentCount(env: TextEnv, prepared: string): nat {
    var rest := LeftOver(env, prepared);
    |env.emoteMatches(prepared)| + |env.emojiMatches(prepared)| + (if rest != "" then Utf16Length(rest) else 0)
  }

  /** The punctuation count: one per emote, one per emoji, one per left-over
      symbol or punctuation code unit. */
  function PunctuationCount(env: TextEnv, prepared: string): int {
    var rest := LeftOver(env, prepared);
    |env.emoteMatches(prepared)| + |env.emojiMatches(prepared)| +
    (if rest != "" then CountWhere(rest, env.isSymbolOrPunctuation) else 0)
  }

  function PunctuationScore(env: TextEnv, settings: Settings, prepared: string): int {
    var count := PunctuationCount(env, prepared);
    if settings.punctuationBlockIsPercentage
    then ConvertCountToPercentage(env, SegmentCount(env, prepared), count)
    else count
  }

  /** `ShouldTextBeExcessiveModerated`: caps first, on the original text; then
      punctuation, on the prepared text; each rule only when its threshold is positive. */
  function ExcessiveReason(env: TextEnv, settings: Settings, user: ChatUser, text: string): Option<string> {
    if HasPermissionsTo(user, settings.chatTextExempt) then None
    else if settings.capsBlockCount > 0 && CapsScore(env, settings, text) >= settings.capsBlockCount then
      Some(CapsReason)
    else if settings.punctuationBlockCount > 0 &&
            PunctuationScore(env, settings, PrepareTextForChecking(env, text)) >= settings.punctuationBlockCount then
      Some(PunctuationReason)
    else None
  }

  /** The caps rule: with a positive threshold and a non-exempt user, the text
      is "Too Many Caps" iff the upper-case count of the original text (or its
      percentage of the UTF-16 length) reaches the threshold; with a threshold
      of 0 or less it never is. */
  lemma CapsRule(env: TextEnv, settings: Settings, user: ChatUser, text: string)
    requires !HasPermissionsTo(user, settings.chatTextExempt)
    ensures settings.capsBlockCount > 0 ==>
      (ExcessiveReason(env, settings, user, text) == Some(CapsReason) <==>
       (if settings.capsBlockIsPercentage
        then ConvertCountToPercentage(env, Utf16Length(text), CountWhere(text, env.isUpper))
        else CountWhere(text, env.isUpper)) >= settings.capsBlockCount)
    ensures settings.capsBlockCount <= 0 ==> ExcessiveReason(env, settings, user, text) != Some(CapsReason)
  {
  }

  /** In percentage mode, a text shorter than five UTF-16 code units is never "Too Many Caps". */
  lemma ShortTextNeverTooManyCaps(env: TextEnv, settings: Settings, user: ChatUser, text: string)
    requires settings.capsBlockIsPercentage && settings.capsBlockCount > 0 && Utf16Length(text) < 5
    ensures ExcessiveReason(env, settings, user, text) != Some(CapsReason)
  {
  }

  /** Lengths are UTF-16 lengths: "A" followed by two emoji is five code
      units, so in percentage mode its one capital is measured as a
      percentage of five (not of three characters), and the emoji themselves
      never count as capitals. */
  lemma EmojiCountTwiceForCaps(env: TextEnv, settings: Settings, user: ChatUser)
    requires !HasPermissionsTo(user, settings.chatTextExempt)
    requires settings.capsBlockIsPercentage && settings.capsBlockCount == 20
    requires env.isUpper('A') && env.percentage(1, 5) == 20
    ensures Utf16Length("A\U{1F600}\U{1F600}") == 5
    ensures ExcessiveReason(env, settings, user, "A\U{1F600}\U{1F600}") == Some(CapsReason)
  {
    var text := "A\U{1F600}\U{1F600}";
    assert text[..2][..1] == "A" && text[..2] == "A\U{1F600}" && text[..|text| - 1] == text[..2];
    assert CountWhere(text, env.isUpper) == 1;
  }

  /** An exempt user's text is never excessive. */
  lemma ExemptNeverExcessive(env: TextEnv, settings: Settings, user: ChatUser, text: string)
    requires HasPermissionsTo(user, settings.chatTextExempt)
    ensures ExcessiveReason(env, settings, user, text).None?
  {
  }

  // ---------------------------------------------------------------------------
  // The link rule

  /** `ShouldTextBeLinkModerated`. */
  function LinkModerationReason(env: TextEnv, settings: Settings, user: ChatUser, text: string, containsLink: bool): (r: Option<string>)
    ensures r.None? || r == Some(LinkReason)
  {
    var prepared := PrepareTextForChecking(env, text);
    if !HasPermissionsTo(user, settings.blockLinksExempt) && settings.blockLinks &&
       (containsLink || env.isLink(prepared))
    then Some(LinkReason)
    else None
  }

  /** "No Links" iff the user is not exempt, link blocking is on, and the
      message is flagged as containing a link or the prepared text matches the
      link pattern. */
  lemma LinkRule(env: TextEnv, settings: Settings, user: ChatUser, text: string, containsLink: bool)
    ensures LinkModerationReason(env, settings, user, text, containsLink) == Some(LinkReason) <==>
      && !HasPermissionsTo(user, settings.blockLinksExempt)
      && settings.blockLinks
      && (containsLink || env.isLink(PrepareTextForChecking(env, text)))
  {
  }

  // ---------------------------------------------------------------------------
  // The participation gate

  /** One row of the participation rule table: a role the user must hold, a
      minimum account age in seconds and a minimum viewing time in minutes
      (`None` where the setting does not check it). */
  datatype Rule = Rule(role: Option<Role>, minAccountAge: Option<int>, minViewingMinutes: Option<int>)

  function RuleFor(p: Participation): Rule {
    match p
    case AccountHour => Rule(None, Some(SecondsPerHour), None)
    case AccountDay => Rule(None, Some(SecondsPerDay), None)
    case AccountWeek => Rule(None, Some(7 * SecondsPerDay), None)
    case AccountMonth => Rule(None, Some(30 * SecondsPerDay), None)
    case ViewingTenMinutes => Rule(None, None, Some(10))
    case ViewingThirtyMinutes => Rule(None, None, Some(30))
    case ViewingOneHour => Rule(None, None, Some(60))
    case ViewingTwoHours => Rule(None, None, Some(120))
    case ViewingTenHours => Rule(None, None, Some(600))
    case FollowerOnly => Rule(Some(Follower), None, None)
    case SubscriberOnly => Rule(Some(Subscriber), None, None)
    case ModeratorOnly => Rule(Some(Mod), None, None)
    case _ => Rule(None, None, None)
  }

  /** `DoesUserMeetChatInteractiveParticipationRequirement`, with the clock `now` in seconds. */
  function ParticipationMet(settings: Settings, user: Option<ChatUser>, now: int): bool {
    var p := settings.participation;
    if p == Anyone then true
    else if user.None? then false
    else
      var u := user.value;
      if u.ignoreForQueries then true
      else if HasPermissionsTo(u, settings.participationExempt) then true
      else if p == FollowerOnly && !HasPermissionsTo(u, Follower) then false
      else if p == SubscriberOnly && !HasPermissionsTo(u, Subscriber) then false
      else if p == ModeratorOnly && !HasPermissionsTo(u, Mod) then false
      else if u.accountDate.None? then false
      else
        var age := now - u.accountDate.value;
        if p == AccountHour && age < SecondsPerHour then false
        else if p == AccountDay && age < SecondsPerDay then false
        else if p == AccountWeek && age < 7 * SecondsPerDay then false
        else if p == AccountMonth && age < 30 * SecondsPerDay then false
        else if p == ViewingTenMinutes && u.viewingMinutes < 10 then false
        else if p == ViewingThirtyMinutes && u.viewingMinutes < 30 then false
        else if p == ViewingOneHour && u.viewingMinutes < 60 then false
        else if p == ViewingTwoHours && u.viewingMinutes < 120 then false
        else if p == ViewingTenHours && u.viewingMinutes < 600 then false
        else true
  }

  /** With no participation setting everyone passes; otherwise a missing user
      fails, and an ignored or exempt user passes before any other check. */
  lemma ParticipationGate(settings: Settings, user: Option<ChatUser>, now: int)
    ensures settings.participation == Anyone ==> ParticipationMet(settings, user, now)
    ensures settings.participation != Anyone && user.None? ==> !ParticipationMet(settings, user, now)
    ensures settings.participation != Anyone && user.Some? &&
            (user.value.ignoreForQueries || HasPermissionsTo(user.value, settings.participationExempt))
            ==> ParticipationMet(settings, user, now)
  {
  }

  /** The gate is the rule table: under any setting but `Anyone`, a present,
      non-ignored, non-exempt user passes iff it holds the rule's role, HAS an
      account date, its account is at least the rule's age and it has viewed at
      least the rule's minutes (thresholds fail strictly below). */
  lemma ParticipationIsRuleTable(settings: Settings, u: ChatUser, now: int)
    requires settings.participation != Anyone
    requires !u.ignoreForQueries && !HasPermissionsTo(u, settings.participationExempt)
    ensures var rule := RuleFor(settings.participation);
      ParticipationMet(settings, Some(u), now) <==>
        && (rule.role.None? || HasPermissionsTo(u, rule.role.value))
        && u.accountDate.Some?
        && (rule.minAccountAge.None? || now - u.accountDate.value >= rule.minAccountAge.value)
        && (rule.minViewingMinutes.None? || u.viewingMinutes >= rule.minViewingMinutes.value)
  {
  }

  /** Who may participate, as the participation notice words it. */
  function ParticipationAudience(p: Participation): (r: string)
    ensures r == "" <==> RuleFor(p) == Rule(None, None, None)
  {
    match p
    case FollowerOnly => "Followers"
    case SubscriberOnly => "Subscribers"
    case ModeratorOnly => "Moderators"
    case AccountHour => "accounts older than 1 hour"
    case AccountDay => "accounts older than 1 day"
    case AccountWeek => "accounts older than 1 week"
    case AccountMonth => "accounts older than 1 month"
    case ViewingTenMinutes => "viewers who have watched for 10 minutes"
    case ViewingThirtyMinutes => "viewers who have watched for 30 minutes"
    case ViewingOneHour => "viewers who have watched for 1 hour"
    case ViewingTwoHours => "viewers who have watched for 2 hours"
    case ViewingTenHours => "viewers who have watched for 10 hours"
    case _ => ""
  }

  function ParticipationNotice(user: ChatUser, p: Participation): string {
    "@" + user.username + ": Your message has been deleted because only " + ParticipationAudience(p) +
    " can participate currently."
  }

  // ---------------------------------------------------------------------------
  // The order of the checks

  /** The reference definition of "the first non-empty reason wins": the
      index of the first non-empty entry, or |reasons| when there is none. */
  function FirstReason(reasons: seq<Option<string>>): (i: nat)
    ensures i <= |reasons|
    ensures i < |reasons| ==> !IsNullOrEmpty(reasons[i])
    ensures forall j :: 0 <= j < i ==> IsNullOrEmpty(reasons[j])
  {
    if reasons == [] then 0
    else if !IsNullOrEmpty(reasons[0]) then 0
    else 1 + FirstReason(reasons[1..])
  }

  /** The word pattern of a community word: the escaped word between word boundaries. */
  function CommunityPattern(env: TextEnv, word: string): string {
    WordRegexPrefix + env.escape(word) + WordRegexSuffix
  }

  /** The word pattern of a filtered or banned word, where `\S*` written in the word stays a wildcard. */
  function WordPattern(env: TextEnv, word: string): string {
    WordRegexPrefix + ReplaceAll(env.escape(word), env.escape(WordWildcardRegex), WordWildcardRegex) + WordRegexSuffix
  }

  function Patterns(env: TextEnv, words: seq<string>): (r: seq<string>)
    ensures |r| == |words|
  {
    seq(|words|, i requires 0 <= i < |words| => WordPattern(env, words[i]))
  }

  function CommunityPatterns(env: TextEnv, words: seq<string>): (r: seq<string>)
    ensures |r| == |words|
  {
    seq(|words|, i requires 0 <= i < |words| => CommunityPattern(env, words[i]))
  }

  predicate AnyMatch(env: TextEnv, text: string, patterns: seq<string>) {
    exists i :: 0 <= i < |patterns| && env.isMatch(text, patterns[i])
  }

  // ---------------------------------------------------------------------------
  // The service object

  class ModerationService {
    /** The static community word list loaded from the assets file. */
    var communityFilteredWords: seq<string>
    var communityWords: seq<string>
    var filteredWords: seq<string>
    var bannedWords: seq<string>
    /** Seconds on the model clock before which no further participation notice is sent. */
    var chatParticipationLastErrorMessage: nat
    /** The chat messages the service has sent. */
    var sentMessages: seq<string>

    constructor ()
      ensures communityFilteredWords == [] && communityWords == [] && filteredWords == [] && bannedWords == []
      ensures chatParticipationLastErrorMessage == 0 && sentMessages == []
    {
      communityFilteredWords, communityWords, filteredWords, bannedWords := [], [], [], [];
      chatParticipationLastErrorMessage, sentMessages := 0, [];
    }

    /** `Initialize`: `communityFile` holds the non-empty lines of the community
        word file, or `None` when the file does not exist. The community
        patterns are appended to what is already there. */
    method Initialize(env: TextEnv, communityFile: Option<seq<string>>, settingsFiltered: seq<string>, settingsBanned: seq<string>)
      modifies this
      ensures communityFile.Some? ==> communityFilteredWords == communityFile.value
      ensures communityFile.Some? ==> communityWords == old(communityWords) + CommunityPatterns(env, communityFile.value)
      ensures communityFile.None? ==> communityFilteredWords == old(communityFilteredWords)
      ensures communityFile.None? ==> communityWords == old(communityWords)
      ensures filteredWords == Patterns(env, settingsFiltered) && bannedWords == Patterns(env, settingsBanned)
      ensures chatParticipationLastErrorMessage == old(chatParticipationLastErrorMessage)
      ensures sentMessages == old(sentMessages)
    {
      if communityFile.Some? {
        communityFilteredWords := communityFile.value;
        var words := communityFilteredWords;
        var added: seq<string> := [];
        var i := 0;
        while i < |words|
          invariant 0 <= i <= |words|
          invariant added == CommunityPatterns(env, words[..i])
        {
          added := added + [CommunityPattern(env, words[i])];
          i := i + 1;
        }
        assert words[..i] == words;
        communityWords := communityWords + added;
      }
      RebuildCache(env, settingsFiltered, settingsBanned);
    }

    /** `RebuildCache`: the filtered and banned word lists become the patterns of the settings' words. */
    method RebuildCache(env: TextEnv, settingsFiltered: seq<string>, settingsBanned: seq<string>)
      modifies this`filteredWords, this`bannedWords
      ensures filteredWords == Patterns(env, settingsFiltered)
      ensures bannedWords == Patterns(env, settingsBanned)
    {
      var filtered: seq<string> := [];
      var i := 0;
      while i < |settingsFiltered|
        invariant 0 <= i <= |settingsFiltered|
        invariant filtered == Patterns(env, settingsFiltered[..i])
      {
        filtered := filtered + [WordPattern(env, settingsFiltered[i])];
        i := i + 1;
      }
      assert settingsFiltered[..i] == settingsFiltered;
      filteredWords := filtered;

      var banned: seq<string> := [];
      i := 0;
      while i < |settingsBanned|
        invariant 0 <= i <= |settingsBanned|
        invariant banned == Patterns(env, settingsBanned[..i])
      {
        banned := banned + [WordPattern(env, settingsBanned[i])];
        i := i + 1;
      }
      assert settingsBanned[..i] == settingsBanned;
      bannedWords := banned;
    }

    /** `ShouldTextBeFilteredWordModerated`: for a non-exempt user, community
        words (when enabled), then filtered words, then banned words (which also ban). */
    function ShouldTextBeFilteredWordModerated(env: TextEnv, settings: Settings, user: ChatUser, text: string): (r: FilterResult)
      reads this
      ensures r.ban <==> r.reason == Some(BannedWordReason)
      ensures HasPermissionsTo(user, settings.filteredWordsExempt) ==> r == FilterResult(None, false)
      ensures !HasPermissionsTo(user, settings.filteredWordsExempt) ==>
        var t := PrepareTextForChecking(env, text);
        var filtered := (settings.useCommunityFilteredWords && AnyMatch(env, t, communityWords)) ||
                        AnyMatch(env, t, filteredWords);
        && (r.reason == Some(FilteredWordReason) <==> filtered)
        && (r.reason == Some(BannedWordReason) <==> !filtered && AnyMatch(env, t, bannedWords))
        && (r.reason.None? <==> !filtered && !AnyMatch(env, t, bannedWords))
    {
      var prepared := PrepareTextForChecking(env, text);
      if HasPermissionsTo(user, settings.filteredWordsExempt) then FilterResult(None, false)
      else if settings.useCommunityFilteredWords && AnyMatch(env, prepared, communityWords) then
        FilterResult(Some(FilteredWordReason), false)
      else if AnyMatch(env, prepared, filteredWords) then FilterResult(Some(FilteredWordReason), false)
      else if AnyMatch(env, prepared, bannedWords) then FilterResult(Some(BannedWordReason), true)
      else FilterResult(None, false)
    }

    /** `ShouldTextBeFilteredWordModerated` as the source runs it: one
        first-match loop over each word list in turn. */
    method FilteredWordModeration(env: TextEnv, settings: Settings, user: ChatUser, text: string)
      returns (r: FilterResult)
      ensures r == ShouldTextBeFilteredWordModerated(env, settings, user, text)
    {
      var prepared := PrepareTextForChecking(env, text);
      if !HasPermissionsTo(user, settings.filteredWordsExempt) {
        if settings.useCommunityFilteredWords {
          var found := MatchesAny(env, prepared, communityWords);
          if found {
            return FilterResult(Some(FilteredWordReason), false);
          }
        }
        var found := MatchesAny(env, prepared, filteredWords);
        if found {
          return FilterResult(Some(FilteredWordReason), false);
        }
        found := MatchesAny(env, prepared, bannedWords);
        if found {
          return FilterResult(Some(BannedWordReason), true);
        }
      }
      return FilterResult(None, false);
    }

    /** `ShouldTextBeModerated`. */
    function ShouldTextBeModerated(env: TextEnv, settings: Settings, user: ChatUser, text: string, containsLink: bool): (v: Verdict)
      reads this
      ensures v.strike || v.ban ==> !IsNullOrEmpty(v.reason)
    {
      if text == "" || user.ignoreForQueries then Verdict(None, false, false)
      else
        var filtered := ShouldTextBeFilteredWordModerated(env, settings, user, text);
        if !IsNullOrEmpty(filtered.reason) then
          Verdict(filtered.reason, settings.filteredWordsApplyStrikes, filtered.ban)
        else
          var excessive := ExcessiveReason(env, settings, user, text);
          if !IsNullOrEmpty(excessive) then Verdict(excessive, settings.chatTextApplyStrikes, false)
          else
            var link := LinkModerationReason(env, settings, user, text, containsLink);
            if !IsNullOrEmpty(link) then Verdict(link, settings.blockLinksApplyStrikes, false)
            else Verdict(None, false, false)
    }

    /** Empty text or an ignored user gives no reason. Otherwise the checks run
        filtered-word, excessive, link: the verdict's reason is the first
        non-empty one, a strike is added iff that category's apply-strikes
        setting is on, and only a banned word bans. */
    lemma ModerationOrder(env: TextEnv, settings: Settings, user: ChatUser, text: string, containsLink: bool)
      ensures var v := ShouldTextBeModerated(env, settings, user, text, containsLink);
        && (text == "" || user.ignoreForQueries ==> v == Verdict(None, false, false))
        && (text != "" && !user.ignoreForQueries ==>
              var reasons := [ShouldTextBeFilteredWordModerated(env, settings, user, text).reason,
                              ExcessiveReason(env, settings, user, text),
                              LinkModerationReason(env, settings, user, text, containsLink)];
              var strikes := [settings.filteredWordsApplyStrikes, settings.chatTextApplyStrikes,
                              settings.blockLinksApplyStrikes];
              var i := FirstReason(reasons);
              && (i < 3 ==> v.reason == reasons[i] && v.strike == strikes[i])
              && (i == 3 ==> v == Verdict(None, false, false))
              && (v.ban <==> i == 0 && reasons[0] == Some(BannedWordReason)))
    {
      if text != "" && !user.ignoreForQueries {
        var reasons := [ShouldTextBeFilteredWordModerated(env, settings, user, text).reason,
                        ExcessiveReason(env, settings, user, text),
                        LinkModerationReason(env, settings, user, text, containsLink)];
        assert reasons[1..][1..] == [reasons[2]];
        assert reasons[1..][1..][1..] == [];
      }
    }

    /** `ShouldTextBeExcessiveModerated`, accumulating the counts and segments as the source does. */
    method ShouldTextBeExcessiveModerated(env: TextEnv, settings: Settings, user: ChatUser, text: string) returns (reason: Option<string>)
      ensures reason == ExcessiveReason(env, settings, user, text)
    {
      if !HasPermissionsTo(user, settings.chatTextExempt) {
        if settings.capsBlockCount > 0 {
          var count := CountMatching(text, env.isUpper);
          if settings.capsBlockIsPercentage {
            count := ConvertCountToPercentage(env, Utf16Length(text), count);
          }
          if count >= settings.capsBlockCount {
            return Some(CapsReason);
          }
        }

        var prepared := PrepareTextForChecking(env, text);
        if settings.punctuationBlockCount > 0 {
          var count := PunctuationScoreOf(env, settings, prepared);
          if count >= settings.punctuationBlockCount {
            return Some(PunctuationReason);
          }
        }
      }
      return None;
    }

    /** The punctuation part of `ShouldTextBeExcessiveModerated`: the
        segments and the count it accumulates over the prepared text. */
    method PunctuationScoreOf(env: TextEnv, settings: Settings, prepared: string) returns (count: int)
      ensures count == PunctuationScore(env, settings, prepared)
    {
      var emotes := env.emoteMatches(prepared);
      var emojis := env.emojiMatches(prepared);
      var leftOverText, messageSegments, matched := SegmentMatches(prepared, prepared, [], 0, emotes);
      assert messageSegments == emotes;
      leftOverText, messageSegments, matched := SegmentMatches(prepared, leftOverText, messageSegments, matched, emojis);
      assert leftOverText == LeftOver(env, prepared);
      count := matched;

      // The left-over code units are segments too; a lone surrogate half is
      // not a character here, so they are kept as their number.
      var segmentCount := |messageSegments|;
      if leftOverText != "" {
        var symbols := CountMatching(leftOverText, env.isSymbolOrPunctuation);
        count := count + symbols;
        segmentCount := segmentCount + Utf16Length(leftOverText);
      }
      assert count == PunctuationCount(env, prepared);
      assert segmentCount == SegmentCount(env, prepared);

      if settings.punctuationBlockIsPercentage {
        count := ConvertCountToPercentage(env, segmentCount, count);
      }
    }

    /** `SendChatInteractiveParticipationWhisper`: with a user and `isChat`,
        sends the participation notice unless one went out less than ten
        seconds ago; a suppressed call changes nothing. */
    method SendChatInteractiveParticipationWhisper(settings: Settings, user: Option<ChatUser>, isChat: bool, now: nat)
      modifies this`chatParticipationLastErrorMessage, this`sentMessages
      ensures var sends := user.Some? && isChat && old(chatParticipationLastErrorMessage) <= now;
        && (sends ==> chatParticipationLastErrorMessage == now + ParticipationNoticeInterval)
        && (sends ==> sentMessages == old(sentMessages) + [ParticipationNotice(user.value, settings.participation)])
        && (!sends ==> chatParticipationLastErrorMessage == old(chatParticipationLastErrorMessage))
        && (!sends ==> sentMessages == old(sentMessages))
    {
      if user.Some? {
        var reason := ParticipationAudience(settings.participation);
        if isChat {
          if chatParticipationLastErrorMessage > now {
            return;
          }
          chatParticipationLastErrorMessage := now + ParticipationNoticeInterval;
          sentMessages := sentMessages + ["@" + user.value.username + ": Your message has been deleted because only " +
                                          reason + " can participate currently."];
        }
      }
    }
  }

  /** One `foreach` over regex matches in `ShouldTextBeExcessiveModerated`:
      each match becomes a segment, is removed from the left-over text and
      is counted. */
  method SegmentMatches(prepared: string, leftOverIn: string, segmentsIn: seq<string>, countIn: int, matches: seq<string>)
    returns (leftOver: string, segments: seq<string>, count: int)
    requires leftOverIn == RemoveEach(prepared, segmentsIn)
    ensures segments == segmentsIn + matches
    ensures leftOver == RemoveEach(prepared, segments)
    ensures count == countIn + |matches|
  {
    leftOver, segments, count := leftOverIn, segmentsIn, countIn;
    var i := 0;
    while i < |matches|
      invariant 0 <= i <= |matches|
      invariant segments == segmentsIn + matches[..i]
      invariant leftOver == RemoveEach(prepared, segments)
      invariant count == countIn + i
    {
      assert (segmentsIn + matches[..i + 1])[..|segments|] == segments;
      segments := segments + [matches[i]];
      leftOver := ReplaceAll(leftOver, matches[i], "");
      count := count + 1;
      i := i + 1;
    }
    assert matches[..i] == matches;
  }

  /** One `foreach` over a word list: stops at the first pattern that matches. */
  method MatchesAny(env: TextEnv, text: string, patterns: seq<string>) returns (found: bool)
    ensures found <==> AnyMatch(env, text, patterns)
    ensures found ==> exists i :: 0 <= i < |patterns| && env.isMatch(text, patterns[i])
    ensures !found ==> forall i :: 0 <= i < |patterns| ==> !env.isMatch(text, patterns[i])
  {
    var i := 0;
    while i < |patterns|
      invariant 0 <= i <= |patterns|
      invariant forall j :: 0 <= j < i ==> !env.isMatch(text, patterns[j])
    {
      if env.isMatch(text, patterns[i]) {
        return true;
      }
      i := i + 1;
    }
    return false;
  }

  /** `text.Count(p)`, one character at a time; a character outside the
      Basic Multilingual Plane is two surrogate code units, neither of which
      counts. */
  method CountMatching(text: string, p: char -> bool) returns (count: nat)
    ensures count == CountWhere(text, p)
  {
    count := 0;
    var i := 0;
    while i < |text|
      invariant 0 <= i <= |text|
      invariant count == CountWhere(text[..i], p)
    {
      assert text[..i + 1][..i] == text[..i];
      if InBmp(text[i]) && p(text[i]) {
        count := count + 1;
      }
      i := i + 1;
    }
    assert text[..i] == text;
  }
}

/** The chat message view model: tag and argument extraction, incremental
    plain-text building, the one-shot deletion and the moderation check. */
module ChatMessages {
  import opened Wrappers
  import opened Users
  import opened Strings
  import Moderation

  // ---------------------------------------------------------------------------
  // Space-separated words

  /** The index of the first `c` in `s` (`IndexOf`), or `None`. */
  function IndexOf(s: string, c: char): (r: Option<nat>)
    ensures r.Some? ==> r.value < |s| && s[r.value] == c && c !in s[..r.value]
    ensures r.None? ==> c !in s
  {
    if s == [] then None
    else if s[0] == c then Some(0)
    else
      var rest := IndexOf(s[1..], c);
      assert s == [s[0]] + s[1..];
      if rest.Some? then
        assert s[..rest.value + 1] == [s[0]] + s[1..][..rest.value];
        Some(rest.value + 1)
      else None
  }

  /** The words of `words` joined by single spaces (`string.Join(" ", …)`). */
  function JoinSpaces(words: seq<string>): string {
    if words == [] then ""
    else if |words| == 1 then words[0]
    else words[0] + " " + JoinSpaces(words[1..])
  }

  /** `s` with every space removed. */
  function RemoveSpaces(s: string): string {
    if s == [] then ""
    else (if s[0] == ' ' then "" else [s[0]]) + RemoveSpaces(s[1..])
  }

  /** The concatenation of `words`. */
  function Concat(words: seq<string>): string {
    if words == [] then "" else words[0] + Concat(words[1..])
  }

  predicate IsWord(w: string) {
    w != "" && ' ' !in w
  }

  /** The longest prefix of `s` holding no space. */
  function LeadingWord(s: string): (w: string)
    ensures |w| <= |s| && w == s[..|w|] && ' ' !in w
    ensures |w| < |s| ==> s[|w|] == ' '
  {
    if s == [] || s[0] == ' ' then ""
    else
      var w := LeadingWord(s[1..]);
      assert s[..|w| + 1] == [s[0]] + s[1..][..|w|];
      [s[0]] + w
  }

  lemma {:induction false} RemoveSpacesOfWord(w: string, rest: string)
    requires ' ' !in w
    ensures RemoveSpaces(w + rest) == w + RemoveSpaces(rest)
    decreases |w|
  {
    if w != [] {
      assert (w + rest)[1..] == w[1..] + rest;
      RemoveSpacesOfWord(w[1..], rest);
    } else {
      assert w + rest == rest;
    }
  }

  /** `Split(" ", RemoveEmptyEntries)`: the maximal runs of non-space
      characters, in order. Every token is a non-empty word, and together
      they hold exactly the non-space characters of `s`. */
  function Tokens(s: string): (r: seq<string>)
    ensures forall i :: 0 <= i < |r| ==> IsWord(r[i])
    ensures Concat(r) == RemoveSpaces(s)
    decreases |s|
  {
    if s == [] then []
    else if s[0] == ' ' then Tokens(s[1..])
    else
      var w := LeadingWord(s);
      var rest := Tokens(s[|w|..]);
      assert s == w + s[|w|..];
      RemoveSpacesOfWord(w, s[|w|..]);
      [w] + rest
  }

  lemma {:induction false} LeadingWordOf(w: string, rest: string)
    requires ' ' !in w
    requires rest == [] || rest[0] == ' '
    ensures LeadingWord(w + rest) == w
    decreases |w|
  {
    if w == [] {
      assert w + rest == rest;
    } else {
      assert (w + rest)[1..] == w[1..] + rest;
      LeadingWordOf(w[1..], rest);
    }
  }

  /** Splitting undoes joining: the words of a single-space join of non-empty
      space-free words are those words. */
  lemma {:induction false} TokensOfJoin(words: seq<string>)
    requires forall i :: 0 <= i < |words| ==> IsWord(words[i])
    ensures Tokens(JoinSpaces(words)) == words
    decreases |words|
  {
    if words == [] {
    } else if |words| == 1 {
      var w := words[0];
      LeadingWordOf(w, "");
      assert w + "" == w;
      assert w[|w|..] == "";
    } else {
      var w := words[0];
      var tail := JoinSpaces(words[1..]);
      var s := w + " " + tail;
      assert s == w + (" " + tail);
      LeadingWordOf(w, " " + tail);
      assert s[|w|..] == " " + tail;
      assert (" " + tail)[1..] == tail;
      TokensOfJoin(words[1..]);
      assert words == [w] + words[1..];
    }
  }

  /** A single word is its only token. */
  lemma TokensOfWord(w: string)
    requires IsWord(w)
    ensures Tokens(w) == [w]
  {
    LeadingWordOf(w, "");
    assert w + "" == w;
    assert w[|w|..] == "";
  }

  /** Tokens never span a space: splitting at any one space splits the
      tokens there. With `Tokens("") == []` and `TokensOfWord` this fixes
      the tokens of every text, whatever its leading, trailing or repeated
      spaces. */
  lemma {:induction false} TokensOfSpaceJoin(s: string, t: string)
    ensures Tokens(s + " " + t) == Tokens(s) + Tokens(t)
    decreases |s|
  {
    var joined := s + " " + t;
    if s == [] {
      assert joined == " " + t;
      assert joined[1..] == t;
    } else if s[0] == ' ' {
      assert joined[1..] == s[1..] + " " + t;
      TokensOfSpaceJoin(s[1..], t);
    } else {
      var w := LeadingWord(s);
      var rest := s[|w|..];
      assert s == w + rest;
      assert joined == w + (rest + " " + t);
      LeadingWordOf(w, rest + " " + t);
      assert joined[|w|..] == rest + " " + t;
      TokensOfSpaceJoin(rest, t);
    }
  }

  /** `TokensOfSpaceJoin` at the space at index `i` of `s`. */
  lemma TokensSplitAt(s: string, i: nat)
    requires i < |s| && s[i] == ' '
    ensures Tokens(s) == Tokens(s[..i]) + Tokens(s[i + 1..])
  {
    SplitAround(s, i);
    TokensOfSpaceJoin(s[..i], s[i + 1..]);
  }

  lemma SplitAround(s: string, i: nat)
    requires i < |s| && s[i] == ' '
    ensures s == s[..i] + " " + s[i + 1..]
  {
    assert s == s[..i] + s[i..];
    assert s[i..] == " " + s[i + 1..];
  }

  /** `TokensSplitAt` at every space of `s`, and `TokensOfWord`. */
  lemma TokensSplitAtSpaces(s: string)
    ensures forall i :: 0 <= i < |s| && s[i] == ' ' ==> Tokens(s) == Tokens(s[..i]) + Tokens(s[i + 1..])
    ensures IsWord(s) ==> Tokens(s) == [s]
  {
    forall i | 0 <= i < |s| && s[i] == ' '
      ensures Tokens(s) == Tokens(s[..i]) + Tokens(s[i + 1..])
    {
      TokensSplitAt(s, i);
    }
    if IsWord(s) {
      TokensOfWord(s);
    }
  }

  /** `ToArguments`: null for an empty text, otherwise its words: a text
      without spaces is one argument, and at every space the arguments split
      into those of the text before it and those of the text after it. */
  function ToArguments(plainText: string): (r: Option<seq<string>>)
    ensures r.None? <==> plainText == ""
    ensures r.Some? ==> forall i :: 0 <= i < |r.value| ==> IsWord(r.value[i])
    ensures r.Some? ==> Concat(r.value) == RemoveSpaces(plainText)
    ensures IsWord(plainText) ==> r == Some([plainText])
    ensures forall i :: 0 <= i < |plainText| && plainText[i] == ' ' ==>
      r == Some(Tokens(plainText[..i]) + Tokens(plainText[i + 1..]))
  {
    TokensSplitAtSpaces(plainText);
    if plainText == "" then None else Some(Tokens(plainText))
  }

  /** `PrimaryTaggedUsername`: for a text starting with '@', what follows it
      up to the first space (or to the end when there is none); otherwise null. */
  function PrimaryTaggedUsername(plainText: string): (r: Option<string>)
    ensures r.None? <==> !(|plainText| > 0 && plainText[0] == '@')
    ensures r.Some? ==> ' ' !in r.value
    ensures r.Some? ==>
      plainText == "@" + r.value ||
      (|r.value| + 2 <= |plainText| && plainText[..|r.value| + 2] == "@" + r.value + " ")
  {
    if |plainText| > 0 && plainText[0] == '@' then
      var endIndex := IndexOf(plainText, ' ');
      if endIndex.Some? && endIndex.value > 0 then
        var name := plainText[1..endIndex.value];
        assert plainText[..endIndex.value] == "@" + name;
        assert plainText[..|name| + 2] == plainText[..endIndex.value] + [' '];
        Some(name)
      else
        assert plainText == "@" + plainText[1..];
        Some(plainText[1..])
    else None
  }

  /** The tagged name is unique: any space-free `name` with "@name" followed
      by a space or the end of the text IS the tagged user name. */
  lemma TaggedUsernameIsUnique(plainText: string, name: string)
    requires ' ' !in name
    requires plainText == "@" + name ||
             (|name| + 2 <= |plainText| && plainText[..|name| + 2] == "@" + name + " ")
    ensures PrimaryTaggedUsername(plainText) == Some(name)
  {
    var n := PrimaryTaggedUsername(plainText).value;
    assert plainText[1..|n| + 1] == n;
    if plainText == "@" + name {
      assert plainText[1..|name| + 1] == name;
    } else {
      assert plainText[1..|name| + 1] == plainText[..|name| + 2][1..|name| + 1];
      assert ("@" + name + " ")[1..|name| + 1] == name;
    }
    if |n| < |name| {
      assert false;
    } else if |n| > |name| {
      CharIn(n, |name|);
      assert false;
    }
  }

  lemma CharIn(s: string, i: int)
    ensures 0 <= i < |s| ==> s[i] in s
  {
  }

  /** The new plain text after `AddStringMessagePart(part)`. */
  function AppendPart(plainText: string, part: string): (r: string)
    ensures plainText == "" ==> r == part
    ensures plainText != "" ==> r == plainText + " " + part
  {
    if plainText == "" then part else plainText + " " + part
  }

  /** The plain text built from an empty message by adding `parts` in order. */
  function AppendAll(plainText: string, parts: seq<string>): string
    decreases |parts|
  {
    if parts == [] then plainText
    else AppendAll(AppendPart(plainText, parts[0]), parts[1..])
  }

  lemma {:induction false} AppendAllAfter(prefix: string, parts: seq<string>)
    requires prefix != ""
    requires forall i :: 0 <= i < |parts| ==> parts[i] != ""
    ensures AppendAll(prefix, parts) == if parts == [] then prefix else prefix + " " + JoinSpaces(parts)
    decreases |parts|
  {
    if parts != [] {
      var next := prefix + " " + parts[0];
      AppendAllAfter(next, parts[1..]);
      if |parts| > 1 {
        assert next + " " + JoinSpaces(parts[1..]) == prefix + " " + (parts[0] + " " + JoinSpaces(parts[1..]));
      }
    }
  }

  /** Adding non-empty parts one by one to an empty message gives their
      single-space join, so the arguments of the message are the parts again
      when they are words. */
  lemma {:induction false} PlainTextIsJoin(parts: seq<string>)
    requires forall i :: 0 <= i < |parts| ==> parts[i] != ""
    ensures AppendAll("", parts) == JoinSpaces(parts)
  {
    if parts != [] {
      AppendAllAfter(parts[0], parts[1..]);
    }
  }

  /** The text of `ToString` for a message with the given user display text,
      target user name and plain text. */
  function Render(user: Option<string>, targetUsername: Option<string>, plainText: string): (r: string)
    ensures user.None? ==> r == plainText
    ensures user.Some? ==> |r| >= |user.value| + 2 + |plainText| && r[..|user.value|] == user.value &&
                           r[|r| - |plainText|..] == plainText
    ensures user.Some? && IsWhisperTarget(targetUsername) ==>
      r == user.value + " -> " + targetUsername.value + ": " + plainText
    ensures user.Some? && !IsWhisperTarget(targetUsername) ==> r == user.value + ": " + plainText
  {
    if user.None? then plainText
    else if IsWhisperTarget(targetUsername) then
      var r := user.value + " -> " + targetUsername.value + ": " + plainText;
      assert r == user.value + (" -> " + targetUsername.value + ": ") + plainText;
      r
    else user.value + ": " + plainText
  }

  /** `IsWhisper`: a non-null, non-empty target user name. */
  predicate IsWhisperTarget(targetUsername: Option<string>) {
    targetUsername.Some? && targetUsername.value != ""
  }

  // ---------------------------------------------------------------------------
  // The message object

  /** The parts of a message: text, or anything else (emotes, links, …). */
  datatype MessagePart = TextPart(text: string) | OtherPart(kind: nat)

  /** The texts of the text parts, in order (other parts are skipped). */
  function TextOnly(parts: seq<MessagePart>): (r: seq<string>)
    ensures |r| <= |parts|
    ensures forall i :: 0 <= i < |r| ==> TextPart(r[i]) in parts
  {
    if parts == [] then []
    else (if parts[0].TextPart? then [parts[0].text] else []) + TextOnly(parts[1..])
  }

  /** The parts `AddStringMessagePart` adds for `texts`, in order. */
  function AsTextParts(texts: seq<string>): (r: seq<MessagePart>)
    ensures |r| == |texts|
  {
    seq(|texts|, i requires 0 <= i < |texts| => TextPart(texts[i]))
  }

  /** Filtering distributes over concatenation. */
  lemma {:induction false} TextOnlyOfAppend(a: seq<MessagePart>, b: seq<MessagePart>)
    ensures TextOnly(a + b) == TextOnly(a) + TextOnly(b)
    decreases |a|
  {
    if a != [] {
      assert (a + b)[1..] == a[1..] + b;
      TextOnlyOfAppend(a[1..], b);
    } else {
      assert a + b == b;
    }
  }

  /** Only non-text parts are dropped: wherever a part stands in a message,
      a text part contributes its text at that place and any other part
      contributes nothing. */
  lemma TextOnlyDropsOnlyOtherParts(before: seq<MessagePart>, part: MessagePart, after: seq<MessagePart>)
    ensures part.TextPart? ==> TextOnly(before + [part] + after) == TextOnly(before) + [part.text] + TextOnly(after)
    ensures part.OtherPart? ==> TextOnly(before + [part] + after) == TextOnly(before) + TextOnly(after)
  {
    TextOnlyOfOne(part);
    TextOnlyOfAppend(before + [part], after);
    TextOnlyOfAppend(before, [part]);
  }

  lemma TextOnlyOfOne(part: MessagePart)
    ensures TextOnly([part]) == if part.TextPart? then [part.text] else []
  {
    assert [part][1..] == [];
  }

  /** A message made of text parts only keeps all of them: their texts come back as they were. */
  lemma {:induction false} TextOnlyOfTexts(texts: seq<string>)
    ensures TextOnly(AsTextParts(texts)) == texts
    decreases |texts|
  {
    if texts != [] {
      assert AsTextParts(texts)[1..] == AsTextParts(texts[1..]);
      TextOnlyOfTexts(texts[1..]);
    }
  }

  /** For a message built only from non-empty string parts,
      `TextOnlyMessageContents` is the plain text. */
  lemma TextContentsArePlainText(texts: seq<string>)
    requires forall i :: 0 <= i < |texts| ==> texts[i] != ""
    ensures JoinSpaces(TextOnly(AsTextParts(texts))) == AppendAll("", texts)
  {
    TextOnlyOfTexts(texts);
    PlainTextIsJoin(texts);
  }

  /** The ChatMessageDeleted event `Delete` raises through the events service. */
  datatype DeletionEvent = DeletionEvent(
    performer: ChatUser, arguments: seq<string>, target: ChatUser, message: string, reason: string)

  /** The deletion fields of a message. */
  datatype DeletionState = DeletionState(
    isDeleted: bool, deletedBy: Option<string>, moderationReason: Option<string>, onDeletedRaised: nat)

  /** What `Delete` does to the deletion fields. */
  function Deleted(s: DeletionState, moderator: Option<ChatUser>, reason: Option<string>): DeletionState {
    if s.isDeleted then s
    else
      DeletionState(
        true,
        if moderator.Some? && moderator.value.fullDisplayName != "" then Some(moderator.value.fullDisplayName) else s.deletedBy,
        reason,
        s.onDeletedRaised + 1)
  }

  /** The event `Delete` raises, if any. */
  function DeletionEventOf(s: DeletionState, user: Option<ChatUser>, plainText: string,
                           moderator: Option<ChatUser>, reason: Option<string>): Option<DeletionEvent> {
    if s.isDeleted || user.None? || plainText == "" then None
    else
      Some(DeletionEvent(
        moderator.GetOr(user.value), [user.value.username], user.value, plainText,
        if IsNullOrEmpty(reason) then "Manual Deletion" else reason.value))
  }

  /** `Delete` is one-shot: a second call, with any moderator and reason,
      changes nothing and raises nothing; the first call raises `OnDeleted`
      exactly once and records the reason it was given. */
  lemma DeleteIsIdempotent(s: DeletionState, user: Option<ChatUser>, plainText: string,
                           m1: Option<ChatUser>, r1: Option<string>, m2: Option<ChatUser>, r2: Option<string>)
    ensures var once := Deleted(s, m1, r1);
      && once.isDeleted
      && Deleted(once, m2, r2) == once
      && DeletionEventOf(once, user, plainText, m2, r2).None?
      && (!s.isDeleted ==> once.onDeletedRaised == s.onDeletedRaised + 1 && once.moderationReason == r1)
      && (s.isDeleted ==> once == s)
  {
  }

  /** `DeletedBy` changes only for a moderator with a non-empty full display
      name; the reported reason falls back to "Manual Deletion". */
  lemma DeletedByAndReason(s: DeletionState, user: Option<ChatUser>, plainText: string,
                           moderator: Option<ChatUser>, reason: Option<string>)
    requires !s.isDeleted
    ensures Deleted(s, moderator, reason).deletedBy != s.deletedBy ==>
      moderator.Some? && moderator.value.fullDisplayName != "" &&
      Deleted(s, moderator, reason).deletedBy == Some(moderator.value.fullDisplayName)
    ensures var e := DeletionEventOf(s, user, plainText, moderator, reason);
      && (e.Some? <==> user.Some? && plainText != "")
      && (e.Some? ==> e.value.reason != "")
      && (e.Some? && IsNullOrEmpty(reason) ==> e.value.reason == "Manual Deletion")
  {
  }

  class ChatMessage {
    const id: string
    var messageParts: seq<MessagePart>
    var plainTextMessage: string
    var targetUsername: Option<string>
    var containsLink: bool
    var isDeleted: bool
    var deletedBy: Option<string>
    var moderationReason: Option<string>
    var user: Option<ChatUser>
    /** How many times the `OnDeleted` event has been raised. */
    var onDeletedRaised: nat

    constructor (id: string, user: Option<ChatUser>)
      ensures this.id == id && this.user == user
      ensures messageParts == [] && plainTextMessage == "" && targetUsername.None? && !containsLink
      ensures DeletionFields() == DeletionState(false, None, None, 0)
    {
      this.id := id;
      this.user := user;
      messageParts, plainTextMessage, targetUsername, containsLink := [], "", None, false;
      isDeleted, deletedBy, moderationReason, onDeletedRaised := false, None, None, 0;
    }

    function DeletionFields(): DeletionState
      reads this
    {
      DeletionState(isDeleted, deletedBy, moderationReason, onDeletedRaised)
    }

    predicate IsWhisper()
      reads this
    {
      IsWhisperTarget(targetUsername)
    }

    /** `TextOnlyMessageContents`. */
    function TextOnlyMessageContents(): string
      reads this
    {
      JoinSpaces(TextOnly(messageParts))
    }

    /** `AddStringMessagePart`. */
    method AddStringMessagePart(part: string)
      modifies this`messageParts, this`plainTextMessage
      ensures messageParts == old(messageParts) + [TextPart(part)]
      ensures plainTextMessage == AppendPart(old(plainTextMessage), part)
    {
      messageParts := messageParts + [TextPart(part)];
      if plainTextMessage == "" {
        plainTextMessage := part;
      } else {
        plainTextMessage := plainTextMessage + " " + part;
      }
    }

    /** `Delete`: returns the ChatMessageDeleted event it raises, if any. */
    method Delete(moderator: Option<ChatUser>, reason: Option<string>) returns (event: Option<DeletionEvent>)
      modifies this`isDeleted, this`deletedBy, this`moderationReason, this`onDeletedRaised
      ensures DeletionFields() == Deleted(old(DeletionFields()), moderator, reason)
      ensures event == DeletionEventOf(old(DeletionFields()), user, plainTextMessage, moderator, reason)
    {
      event := None;
      if !isDeleted {
        isDeleted := true;
        if moderator.Some? && moderator.value.fullDisplayName != "" {
          deletedBy := Some(moderator.value.fullDisplayName);
        }
        moderationReason := reason;
        onDeletedRaised := onDeletedRaised + 1;

        if user.Some? && plainTextMessage != "" {
          var reported := if !IsNullOrEmpty(moderationReason) then moderationReason.value else "Manual Deletion";
          event := Some(DeletionEvent(moderator.GetOr(user.value), [user.value.username], user.value,
                                      plainTextMessage, reported));
        }
      }
    }

    /** `CheckForModeration`: a message from a user that is not a whisper is
        deleted with "Chat Participation" when its user fails the
        participation gate (and the participation notice goes out, unless one
        went out less than ten seconds ago), or with the moderation reason
        when there is one. Only a failed gate touches the moderation service. */
    method CheckForModeration(service: Moderation.ModerationService, env: Moderation.TextEnv,
                              settings: Moderation.Settings, now: nat) returns (deleted: bool)
      modifies this`isDeleted, this`deletedBy, this`moderationReason, this`onDeletedRaised
      modifies service`chatParticipationLastErrorMessage, service`sentMessages
      ensures user.None? || IsWhisper() ==>
        !deleted && DeletionFields() == old(DeletionFields()) && service.sentMessages == old(service.sentMessages)
      ensures user.Some? && !IsWhisper() && !Moderation.ParticipationMet(settings, user, now) ==>
        deleted && DeletionFields() == Deleted(old(DeletionFields()), None, Some("Chat Participation"))
      ensures user.Some? && !IsWhisper() && !Moderation.ParticipationMet(settings, user, now) ==>
        var sends := old(service.chatParticipationLastErrorMessage) <= now;
        && (sends ==> service.chatParticipationLastErrorMessage == now + Moderation.ParticipationNoticeInterval)
        && (sends ==> service.sentMessages ==
                      old(service.sentMessages) + [Moderation.ParticipationNotice(user.value, settings.participation)])
        && (!sends ==> service.chatParticipationLastErrorMessage == old(service.chatParticipationLastErrorMessage))
        && (!sends ==> service.sentMessages == old(service.sentMessages))
      ensures user.None? || IsWhisper() || Moderation.ParticipationMet(settings, user, now) ==>
        service.chatParticipationLastErrorMessage == old(service.chatParticipationLastErrorMessage) &&
        service.sentMessages == old(service.sentMessages)
      ensures user.Some? && !IsWhisper() && Moderation.ParticipationMet(settings, user, now) ==>
        var v := old(service.ShouldTextBeModerated(env, settings, user.value, plainTextMessage, containsLink));
        && (deleted <==> !IsNullOrEmpty(v.reason))
        && (deleted ==> DeletionFields() == Deleted(old(DeletionFields()), None, v.reason))
        && (!deleted ==> DeletionFields() == old(DeletionFields()))
      ensures deleted ==> isDeleted
    {
      if user.Some? && !IsWhisper() {
        if !Moderation.ParticipationMet(settings, user, now) {
          var _ := Delete(None, Some("Chat Participation"));
          service.SendChatInteractiveParticipationWhisper(settings, user, true, now);
          return true;
        }

        var verdict := service.ShouldTextBeModerated(env, settings, user.value, plainTextMessage, containsLink);
        if !IsNullOrEmpty(verdict.reason) {
          var _ := Delete(None, verdict.reason);
          return true;
        }
      }
      return false;
    }

    /** `ToString`. */
    function ToString(): (r: string)
      reads this
      ensures user.None? ==> r == plainTextMessage
      ensures user.Some? && IsWhisper() ==> r == user.value.display + " -> " + targetUsername.value + ": " + plainTextMessage
      ensures user.Some? && !IsWhisper() ==> r == user.value.display + ": " + plainTextMessage
    {
      Render(if user.Some? then Some(user.value.display) else None, targetUsername, plainTextMessage)
    }

    /** `Equals`: two messages are equal iff their IDs are. */
    predicate Equals(other: ChatMessage)
      reads this, other
    {
      id == other.id
    }

    /** `GetHashCode`: the hash of the ID, for a string hash the runtime supplies. */
    function GetHashCode(hash: string -> int): int
      reads this
    {
      hash(id)
    }
  }

  /** Equality is an equivalence on IDs alone, and equal messages hash alike,
      whatever else differs between them. */
  lemma EqualityIsById(a: ChatMessage, b: ChatMessage, c: ChatMessage, hash: string -> int)
    ensures a.Equals(a)
    ensures a.Equals(b) <==> b.Equals(a)
    ensures a.Equals(b) && b.Equals(c) ==> a.Equals(c)
    ensures a.Equals(b) ==> a.GetHashCode(hash) == b.GetHashCode(hash)
  {
  }
}

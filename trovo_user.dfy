/** The Trovo platform user: copying a chat message's sender properties and
    syncing its role strings into the user's role set. */
module TrovoUser {
  import opened Wrappers
  import opened Users
  import opened Strings

  /** The eight role strings the Trovo chat message model defines. Their
      text lives in the Trovo client library; only their distinctness matters here. */
  const StreamerRole := "streamer"
  const AdminRole := "admin"
  const WardenRole := "warden"
  const SuperModRole := "supermod"
  const ModeratorRole := "moderator"
  const EditorRole := "editor"
  const FollowerRole := "follower"
  const SubscriberRole := "subscriber"

  /** A Trovo chat message as far as the sender's properties go.
      `avatar` is "" when null or empty; `fullAvatarUrl` is the message's
      computed full avatar URL; `roles` is `None` when null. */
  datatype TrovoChatMessage = TrovoChatMessage(
    senderId: int,
    userName: string,
    nickName: string,
    avatar: string,
    fullAvatarUrl: string,
    roles: Option<seq<string>>)

  /** A known role string and the role it grants. */
  datatype KnownRole = KnownRole(name: string, role: Role)

  /** The known roles, in the order they are synced. */
  const KnownRoles: seq<KnownRole> := [
    KnownRole(StreamerRole, Streamer),
    KnownRole(AdminRole, TrovoAdmin),
    KnownRole(WardenRole, TrovoWarden),
    KnownRole(SuperModRole, TrovoSuperMod),
    KnownRole(ModeratorRole, Moderator),
    KnownRole(EditorRole, TrovoEditor),
    KnownRole(FollowerRole, Follower),
    KnownRole(SubscriberRole, Subscriber)]

  function NamesOf(table: seq<KnownRole>): set<string> {
    set k | k in table :: k.name
  }

  function KnownNames(): set<string> {
    NamesOf(KnownRoles)
  }

  function MappedRoles(): set<Role> {
    set k | k in KnownRoles :: k.role
  }

  /** No two entries of the table share a name or a role. */
  predicate Distinct(table: seq<KnownRole>) {
    forall i, j :: 0 <= i < j < |table| ==> table[i].name != table[j].name && table[i].role != table[j].role
  }

  /** One sync step: the role is added when its string is present, removed otherwise. */
  function SyncOne(roles: set<Role>, names: set<string>, k: KnownRole): set<Role> {
    if k.name in names then roles + {k.role} else roles - {k.role}
  }

  /** The sync steps of `table`, in order. */
  function Sync(roles: set<Role>, names: set<string>, table: seq<KnownRole>): set<Role>
    decreases |table|
  {
    if table == [] then roles
    else SyncOne(Sync(roles, names, table[..|table| - 1]), names, table[|table| - 1])
  }

  /** After syncing a table of distinct roles, each table role is held iff its
      string was present, and every other role is as before. */
  lemma {:induction false} SyncMembership(roles: set<Role>, names: set<string>, table: seq<KnownRole>, r: Role)
    requires Distinct(table)
    ensures forall i :: 0 <= i < |table| && table[i].role == r ==> (r in Sync(roles, names, table) <==> table[i].name in names)
    ensures (forall i :: 0 <= i < |table| ==> table[i].role != r) ==> (r in Sync(roles, names, table) <==> r in roles)
    decreases |table|
  {
    if table != [] {
      var prefix := table[..|table| - 1];
      assert Distinct(prefix);
      SyncMembership(roles, names, prefix, r);
    }
  }

  lemma KnownRolesAreDistinct()
    ensures Distinct(KnownRoles)
  {
  }

  /** Syncing the `i`-th known role extends the synced prefix by its string,
      which no earlier entry has. */
  lemma NextKnownRole(i: nat)
    requires i < |KnownRoles|
    ensures KnownRoles[..i + 1][..i] == KnownRoles[..i]
    ensures KnownRoles[i].name !in NamesOf(KnownRoles[..i])
    ensures NamesOf(KnownRoles[..i + 1]) == NamesOf(KnownRoles[..i]) + {KnownRoles[i].name}
  {
    KnownRolesAreDistinct();
    assert KnownRoles[..i + 1] == KnownRoles[..i] + [KnownRoles[i]];
  }

  /** The user's properties that `SetUserProperties` writes. */
  datatype Profile = Profile(
    id: string,
    username: string,
    displayName: string,
    avatarLink: Option<string>,
    roles: set<Role>,
    customRoles: set<string>)

  /** The set of a message's role strings (`new HashSet<string>(roles)`). */
  function RoleStrings(roles: seq<string>): (r: set<string>)
    ensures forall s :: s in r <==> s in roles
  {
    set n | n in roles
  }

  /** What `SetUserProperties(message)` does to a user's profile. */
  function Applied(p: Profile, message: Option<TrovoChatMessage>): Profile {
    if message.None? then p
    else
      var m := message.value;
      var q := p.(id := DecimalString(m.senderId), username := m.userName, displayName := m.nickName,
                  avatarLink := if m.avatar != "" then Some(m.fullAvatarUrl) else p.avatarLink);
      if m.roles.None? then q
      else
        var names := RoleStrings(m.roles.value);
        q.(roles := Sync(p.roles, names, KnownRoles), customRoles := names - KnownNames())
  }

  /** `SyncMembership` for every role at once. */
  lemma SyncTable(roles: set<Role>, names: set<string>, table: seq<KnownRole>)
    requires Distinct(table)
    ensures forall i :: 0 <= i < |table| ==> (table[i].role in Sync(roles, names, table) <==> table[i].name in names)
    ensures forall r :: (forall i :: 0 <= i < |table| ==> table[i].role != r) ==> (r in Sync(roles, names, table) <==> r in roles)
  {
    forall i | 0 <= i < |table|
      ensures table[i].role in Sync(roles, names, table) <==> table[i].name in names
    {
      SyncMembership(roles, names, table, table[i].role);
    }
    forall r | forall i :: 0 <= i < |table| ==> table[i].role != r
      ensures r in Sync(roles, names, table) <==> r in roles
    {
      SyncMembership(roles, names, table, r);
    }
  }

  /** The role part of `SetUserProperties`: for each of the eight known
      strings, its role is held afterwards iff the message lists the string;
      every other role (such as `User`) is untouched; the custom roles are
      exactly the listed strings that are not known ones, replacing the old ones. */
  lemma RoleSync(p: Profile, m: TrovoChatMessage)
    requires m.roles.Some?
    ensures var q := Applied(p, Some(m));
      && (forall i :: 0 <= i < |KnownRoles| ==> (KnownRoles[i].role in q.roles <==> KnownRoles[i].name in m.roles.value))
      && (forall r :: r !in MappedRoles() ==> (r in q.roles <==> r in p.roles))
      && (forall s :: s in q.customRoles <==> s in m.roles.value && s !in KnownNames())
  {
    var names := RoleStrings(m.roles.value);
    var table := KnownRoles;
    KnownRolesAreDistinct();
    SyncTable(p.roles, names, table);
    assert Applied(p, Some(m)).roles == Sync(p.roles, names, table);
    forall r | r !in MappedRoles()
      ensures forall i :: 0 <= i < |table| ==> table[i].role != r
    {
      forall i | 0 <= i < |table|
        ensures table[i].role != r
      {
        assert table[i] in KnownRoles;
      }
    }
  }

  /** A null message changes nothing; a message with null roles leaves the
      roles and custom roles as they were; the avatar link changes only for a
      non-empty avatar; ID, user name and display name always come from the message. */
  lemma PropertiesCopied(p: Profile, message: Option<TrovoChatMessage>)
    ensures message.None? ==> Applied(p, message) == p
    ensures message.Some? && message.value.roles.None? ==>
      Applied(p, message).roles == p.roles && Applied(p, message).customRoles == p.customRoles
    ensures message.Some? ==>
      && Applied(p, message).id == DecimalString(message.value.senderId)
      && Applied(p, message).username == message.value.userName
      && Applied(p, message).displayName == message.value.nickName
      && (Applied(p, message).avatarLink != p.avatarLink ==> message.value.avatar != "")
  {
  }

  /** Applying the same message twice is applying it once. */
  lemma AppliedIsIdempotent(p: Profile, message: Option<TrovoChatMessage>)
    ensures Applied(Applied(p, message), message) == Applied(p, message)
  {
    if message.Some? && message.value.roles.Some? {
      var m := message.value;
      var once := Applied(p, message);
      var twice := Applied(once, message);
      RoleSync(p, m);
      RoleSync(once, m);
      forall r
        ensures r in twice.roles <==> r in once.roles
      {
        if r !in MappedRoles() {
        } else {
          var i :| 0 <= i < |KnownRoles| && KnownRoles[i].role == r;
        }
      }
      assert twice.roles == once.roles;
    }
  }

  class TrovoUserPlatform {
    var id: string
    var username: string
    var displayName: string
    var avatarLink: Option<string>
    var roles: set<Role>
    var customRoles: set<string>

    constructor (id: string, username: string, displayName: string)
      ensures Snapshot() == Profile(id, username, displayName, None, {}, {})
    {
      this.id, this.username, this.displayName := id, username, displayName;
      avatarLink, roles, customRoles := None, {}, {};
    }

    function Snapshot(): Profile
      reads this
    {
      Profile(id, username, displayName, avatarLink, roles, customRoles)
    }

    /** One line of the role sync: removes the `i`-th known string from the
        pending strings and adds its role when it was there, removes the role
        otherwise. The pending strings are `names` less the strings already synced. */
    method SyncRole(pending: set<string>, k: KnownRole, ghost names: set<string>, ghost start: set<Role>, ghost i: nat)
      returns (remaining: set<string>)
      requires i < |KnownRoles| && k == KnownRoles[i]
      requires pending == names - NamesOf(KnownRoles[..i])
      requires roles == Sync(start, names, KnownRoles[..i])
      modifies this`roles
      ensures remaining == names - NamesOf(KnownRoles[..i + 1])
      ensures roles == Sync(start, names, KnownRoles[..i + 1])
    {
      NextKnownRole(i);
      if k.name in pending {
        remaining := pending - {k.name};
        roles := roles + {k.role};
      } else {
        remaining := pending;
        roles := roles - {k.role};
      }
    }

    /** The role lines of `SetUserProperties`: the eight known strings in
        order; what is left of the message's strings is returned. */
    method SyncKnownRoles(names: set<string>) returns (rolesSet: set<string>)
      modifies this`roles
      ensures roles == Sync(old(roles), names, KnownRoles)
      ensures rolesSet == names - KnownNames()
    {
      ghost var start := roles;
      rolesSet := names;
      assert KnownRoles[..0] == [];
      rolesSet := SyncRole(rolesSet, KnownRoles[0], names, start, 0);
      rolesSet := SyncRole(rolesSet, KnownRoles[1], names, start, 1);
      rolesSet := SyncRole(rolesSet, KnownRoles[2], names, start, 2);
      rolesSet := SyncRole(rolesSet, KnownRoles[3], names, start, 3);
      rolesSet := SyncRole(rolesSet, KnownRoles[4], names, start, 4);
      rolesSet := SyncRole(rolesSet, KnownRoles[5], names, start, 5);
      rolesSet := SyncRole(rolesSet, KnownRoles[6], names, start, 6);
      rolesSet := SyncRole(rolesSet, KnownRoles[7], names, start, 7);
      assert KnownRoles[..8] == KnownRoles;
    }

    /** The custom-role lines: the set is cleared, then each left-over string is added. */
    method ReplaceCustomRoles(rolesSet: set<string>)
      modifies this`customRoles
      ensures customRoles == rolesSet
    {
      customRoles := {};
      var rest := rolesSet;
      while rest != {}
        invariant customRoles + rest == rolesSet && customRoles !! rest
        decreases |rest|
      {
        var role :| role in rest;
        customRoles := customRoles + {role};
        rest := rest - {role};
      }
    }

    /** `SetUserProperties(ChatMessageModel)`. */
    method SetUserProperties(message: Option<TrovoChatMessage>)
      modifies this
      ensures Snapshot() == Applied(old(Snapshot()), message)
    {
      if message.Some? {
        var m := message.value;
        id := DecimalString(m.senderId);
        username := m.userName;
        displayName := m.nickName;
        if m.avatar != "" {
          avatarLink := Some(m.fullAvatarUrl);
        }

        if m.roles.Some? {
          var rolesSet := SyncKnownRoles(RoleStrings(m.roles.value));

          ReplaceCustomRoles(rolesSet);
        }
      }
    }
  }
}

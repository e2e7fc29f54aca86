/** The user entities shared by the moderation rules, the chat message and
    the Trovo platform model. */
module Users {
  import opened Wrappers

  /** The members of the application's user role enumeration that the
      modelled code mentions. */
  datatype Role =
    | User
    | Follower
    | Regular
    | Subscriber
    | Mod
    | Moderator
    | Streamer
    | TrovoAdmin
    | TrovoWarden
    | TrovoSuperMod
    | TrovoEditor

  /** A chat user as the moderation rules and chat messages see it.
      `id` is the user's Guid (0 plays the role of `Guid.Empty`);
      `display` is what the user's `ToString()` prints;
      `permittedRoles` is the extension of `HasPermissionsTo`;
      `accountDate` is the account creation time in seconds on the model clock;
      `viewingMinutes` is the user's accumulated viewing time. */
  datatype ChatUser = ChatUser(
    id: nat,
    username: string,
    display: string,
    fullDisplayName: string,
    ignoreForQueries: bool,
    permittedRoles: set<Role>,
    accountDate: Option<int>,
    viewingMinutes: int)

  predicate HasPermissionsTo(user: ChatUser, role: Role) {
    role in user.permittedRoles
  }
}

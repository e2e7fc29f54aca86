/** The settings requirement of a command: whether the triggering chat
    message is deleted when the command runs, and the error cooldown that all
    settings requirements share. */
module SettingsRequirement {

  /** The storage of the static `requirementErrorCooldown` field: one object
      that every settings requirement refers to. Times are seconds on the
      model clock; 0 is `DateTimeOffset.MinValue`. */
  class ErrorCooldown {
    var until: nat

    constructor ()
      ensures until == 0
    {
      until := 0;
    }
  }

  /** `ShouldChatMessageBeDeletedWhenRun`, given the global
      `DeleteChatCommandsWhenRun` setting. */
  predicate ShouldDelete(deleteWhenRun: bool, dontDeleteWhenRun: bool, globalDeleteWhenRun: bool) {
    deleteWhenRun || (globalDeleteWhenRun && !dontDeleteWhenRun)
  }

  /** The per-command delete flag wins over everything; otherwise the global
      setting decides unless the per-command "don't delete" flag overrides it. */
  lemma DeletionOverrides(deleteWhenRun: bool, dontDeleteWhenRun: bool, globalDeleteWhenRun: bool)
    ensures deleteWhenRun ==> ShouldDelete(deleteWhenRun, dontDeleteWhenRun, globalDeleteWhenRun)
    ensures !deleteWhenRun ==>
      (ShouldDelete(deleteWhenRun, dontDeleteWhenRun, globalDeleteWhenRun) <==> globalDeleteWhenRun && !dontDeleteWhenRun)
    ensures !deleteWhenRun && dontDeleteWhenRun ==> !ShouldDelete(deleteWhenRun, dontDeleteWhenRun, globalDeleteWhenRun)
  {
  }

  class SettingsRequirementModel {
    var deleteChatMessageWhenRun: bool
    var dontDeleteChatMessageWhenRun: bool
    var showOnChatContextMenu: bool
    /** The shared static cooldown. */
    const cooldown: ErrorCooldown

    constructor (shared: ErrorCooldown)
      ensures cooldown == shared
      ensures !deleteChatMessageWhenRun && !dontDeleteChatMessageWhenRun && !showOnChatContextMenu
    {
      cooldown := shared;
      deleteChatMessageWhenRun, dontDeleteChatMessageWhenRun, showOnChatContextMenu := false, false, false;
    }

    /** The conversion from the legacy settings requirement view model: its
        three flags are copied. */
    constructor FromLegacy(shared: ErrorCooldown, deleteChatCommandWhenRun: bool,
                           dontDeleteChatCommandWhenRun: bool, showOnChatMenu: bool)
      ensures cooldown == shared
      ensures deleteChatMessageWhenRun == deleteChatCommandWhenRun
      ensures dontDeleteChatMessageWhenRun == dontDeleteChatCommandWhenRun
      ensures showOnChatContextMenu == showOnChatMenu
    {
      cooldown := shared;
      deleteChatMessageWhenRun := deleteChatCommandWhenRun;
      dontDeleteChatMessageWhenRun := dontDeleteChatCommandWhenRun;
      showOnChatContextMenu := showOnChatMenu;
    }

    function RequirementErrorCooldown(): nat
      reads cooldown
    {
      cooldown.until
    }

    /** The `RequirementErrorCooldown` setter: writes the shared value, so
        every requirement built on the same storage sees it. */
    method SetRequirementErrorCooldown(value: nat)
      modifies cooldown
      ensures RequirementErrorCooldown() == value
      ensures forall other: SettingsRequirementModel :: other.cooldown == cooldown ==> other.RequirementErrorCooldown() == value
    {
      cooldown.until := value;
    }

    predicate ShouldChatMessageBeDeletedWhenRun(globalDeleteChatCommandsWhenRun: bool)
      reads this
    {
      ShouldDelete(deleteChatMessageWhenRun, dontDeleteChatMessageWhenRun, globalDeleteChatCommandsWhenRun)
    }
  }
}

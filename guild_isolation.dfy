/**
 * GuildIsolationManager: the current guild and user of one thread, as two
 * slots that are set, cleared and temporarily replaced.
 */
module GuildIsolation {
  import opened Wrappers

  /** A (guild, user) pair as the two slots hold it. */
  datatype Context = Context(guild: Option<int>, user: Option<int>)

  /** A user is only ever set together with a guild. */
  predicate WellFormed(c: Context)
  {
    c.user.Some? ==> c.guild.Some?
  }

  /** The slots after `setContext(guild, user)`: a null guild changes nothing. */
  function SetContext(c: Context, guild: Option<int>, user: Option<int>): (r: Context)
    ensures guild.None? ==> r == c
    ensures guild.Some? ==> r.guild == guild && r.user == user
    ensures WellFormed(c) ==> WellFormed(r)
  {
    if guild.None? then c else Context(guild, user)
  }

  /** What the finally block of withContext leaves: the saved pair back, or nothing when no guild was saved. */
  function Restored(saved: Context): (r: Context)
    ensures WellFormed(r)
    ensures WellFormed(saved) ==> r == saved
  {
    if saved.guild.Some? then SetContext(Context(None, None), saved.guild, saved.user) else Context(None, None)
  }

  class GuildIsolationManager {
    var guildIdContext: Option<int>
    var userIdContext: Option<int>

    function Current(): Context
      reads this
    {
      Context(guildIdContext, userIdContext)
    }

    predicate Valid()
      reads this
    {
      WellFormed(Current())
    }

    constructor ()
      ensures Valid() && Current() == Context(None, None)
    {
      guildIdContext := None;
      userIdContext := None;
    }

    method SetContextSlots(guildId: Option<int>, userId: Option<int>)
      modifies this
      ensures Current() == SetContext(old(Current()), guildId, userId)
      ensures old(Valid()) ==> Valid()
    {
      if guildId.None? {
        return;
      }
      guildIdContext := guildId;
      userIdContext := userId;
    }

    /** getGuildId: the guild slot; an empty one means no user is set either. */
    function GetGuildId(): (r: Option<int>)
      reads this
      ensures r == Current().guild
      ensures Valid() && r.None? ==> Current().user.None?
    {
      guildIdContext
    }

    function GetUserId(): (r: Option<int>)
      reads this
      ensures Valid() && r.Some? ==> GetGuildId().Some?
    {
      userIdContext
    }

    method ClearContext()
      modifies this
      ensures Current() == Context(None, None) && Valid()
    {
      guildIdContext := None;
      userIdContext := None;
    }

    /**
     * withContext: with a null guild the action does not run; otherwise the
     * action runs under the new pair and whatever it does to the slots (or
     * whether it throws) is undone by the restore. The action is given as its
     * effect on the slots.
     */
    method WithContext(guildId: Option<int>, userId: Option<int>, action: Context -> Context) returns (ran: bool)
      modifies this
      ensures ran <==> guildId.Some?
      ensures guildId.None? ==> Current() == old(Current())
      ensures guildId.Some? ==> Current() == Restored(old(Current()))
      ensures old(Valid()) ==> Valid() && Current() == old(Current())
    {
      if guildId.None? {
        return false;
      }
      var prevGuildId := guildIdContext;
      var prevUserId := userIdContext;
      SetContextSlots(guildId, userId);
      var after := action(Current());
      guildIdContext, userIdContext := after.guild, after.user;
      if prevGuildId.Some? {
        SetContextSlots(prevGuildId, prevUserId);
      } else {
        ClearContext();
      }
      return true;
    }

    /** isCurrentGuild: false for null, else whether that guild is the one set. */
    function IsCurrentGuild(guildId: Option<int>): (r: bool)
      reads this
      ensures guildId.None? ==> !r
      ensures r <==> guildId.Some? && guildIdContext == guildId
    {
      guildId.Some? && guildIdContext.Some? && guildIdContext.value == guildId.value
    }
  }
}

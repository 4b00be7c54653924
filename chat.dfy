/** The bot's configuration, the responses it sends, and which command a
    chat message selects (the first-match `if/elif` chain of `on_pubmsg`). */
module Chat {
  import opened Strings
  import opened Fuzzy

  /** The `command` texts of the response table, each compared with the
      lower-cased message: exactly for info, open, close, join and show,
      as a prefix for the closed-queue gate, pick and remove. */
  datatype Commands = Commands(
    info: string,      // q_resp_1
    open: string,      // q_open_1
    close: string,     // q_close_1
    gate: string,      // q_resp_2
    join: string,      // q_join_1
    show: string,      // q_show_1
    pick: string,      // q_pick_1
    remove: string     // q_remove_1
  )

  /** What the configuration file supplies, fixed for the life of the bot. */
  datatype Config = Config(
    commands: Commands,
    operators: seq<string>,          // the `operators` entry split on whitespace
    defaultTimerMins: int,           // default_queue_timer_mins
    minMessagesForReminder: int,     // min_messages_for_reminder
    matcher: Matcher                 // process.extractOne
  )

  /** `default_time`: the configured minutes times 60. */
  function DefaultTime(cfg: Config): int {
    cfg.defaultTimerMins * 60
  }

  /** One message sent to the channel, named by its response-table entry;
      the template text itself is configuration and is not modelled. */
  datatype Response =
    | QueueInfo                    // q_resp_1
    | QueueOpened                  // q_open_1
    | QueueClosed                  // q_close_1
    | ClosedNotice                 // q_resp_2
    | Joined(user: string)         // q_join_1
    | AlreadyInQueue(user: string) // q_join_2
    | Show(names: seq<string>)     // q_show_1, the queue joined with ', '
    | ShowEmpty                    // q_show_2
    | Picked(user: string)         // q_pick_1
    | PickNotFound(user: string)   // q_pick_2
    | PickedHead(user: string)     // q_pick_3
    | PickEmpty                    // q_pick_4
    | Removed(user: string)        // q_remove_1
    | RemoveNotFound(user: string) // q_remove_2
    | InvalidName                  // q_remove_3, always formatted with the empty name
    | TimesUp(user: string)        // times_up
    | Reminder(minutes: int)       // reminder, formatted with int(default_time/60)

  /** A turn timer armed by `start_timer`: `time_up` runs for `user` after `seconds`. */
  datatype TurnTimer = TurnTimer(user: string, seconds: int)

  /** The duration handed to `start_timer`: `default_time` or a digit token typed after pick. */
  datatype Duration = DefaultDuration | Typed(digits: string)

  /** `start_timer`'s `int(duration) * 60`. The default is already
      minutes times 60, so the default turn lasts minutes times 3600 seconds. */
  function StartTimer(cfg: Config, user: string, d: Duration): (t: TurnTimer)
    requires d.Typed? ==> IsDigits(d.digits)
    ensures t.user == user
    ensures d == DefaultDuration ==> t.seconds == cfg.defaultTimerMins * 3600
    ensures d.Typed? ==> t.seconds == DecimalValue(d.digits) * 60
  {
    match d
    case DefaultDuration => TurnTimer(user, DefaultTime(cfg) * 60)
    case Typed(s) => TurnTimer(user, DecimalValue(s) * 60)
  }

  /** Which branch of `on_pubmsg` a message takes. */
  datatype Command =
    | InfoCmd | OpenCmd | CloseCmd | GatedCmd | JoinCmd | ShowCmd | PickCmd | RemoveCmd | NoCommand

  /** The first branch whose test the lower-cased message passes; the
      closed-queue gate is tested only after info, open and close. */
  function Classify(cmds: Commands, lowered: string, open: bool): Command {
    if lowered == cmds.info then InfoCmd
    else if lowered == cmds.open then OpenCmd
    else if lowered == cmds.close then CloseCmd
    else if StartsWith(lowered, cmds.gate) && !open then GatedCmd
    else if lowered == cmds.join then JoinCmd
    else if lowered == cmds.show then ShowCmd
    else if StartsWith(lowered, cmds.pick) then PickCmd
    else if StartsWith(lowered, cmds.remove) then RemoveCmd
    else NoCommand
  }

  /** Info, open and close are answered whatever the state of the queue. */
  lemma UngatedCommands(cmds: Commands, lowered: string, open: bool)
    requires lowered in {cmds.info, cmds.open, cmds.close}
    ensures Classify(cmds, lowered, open) in {InfoCmd, OpenCmd, CloseCmd}
    ensures Classify(cmds, lowered, open) == Classify(cmds, lowered, !open)
  {
  }

  /** While the queue is closed, every other message that starts with the
      gate prefix stops at the gate. */
  lemma ClosedGateCatches(cmds: Commands, lowered: string)
    requires lowered !in {cmds.info, cmds.open, cmds.close}
    requires StartsWith(lowered, cmds.gate)
    ensures Classify(cmds, lowered, false) == GatedCmd
  {
  }

  /** The join branch does not look at the open flag: a join command that
      the gate prefix does not cover is accepted while the queue is closed. */
  lemma JoinIgnoresOpenFlag(cmds: Commands, open: bool)
    requires cmds.join !in {cmds.info, cmds.open, cmds.close}
    requires !StartsWith(cmds.join, cmds.gate)
    ensures Classify(cmds, cmds.join, open) == JoinCmd
  {
  }
}

/** What one chat message and one reminder tick do to the bot's state, as
    functions of the old state: the specification the `QueueBot` methods
    are proved against. */
module Steps {
  import opened Strings
  import opened Lists
  import opened Fuzzy
  import opened Chat
  import opened Arguments

  /** The three fields `QueueBot.__init__` creates. */
  datatype BotState = BotState(queue: seq<string>, open: bool, messages: nat)

  const Initial: BotState := BotState([], false, 0)

  /** The effect of a message: the new state, the responses in the order
      they are sent, the turn timers armed, and whether a reminder chain
      was started. */
  datatype Outcome = Outcome(state: BotState, out: seq<Response>, timers: seq<TurnTimer>, reminderStarted: bool)

  /** The effect of a command on the queue alone. */
  datatype Effect = Effect(queue: seq<string>, out: seq<Response>, timers: seq<TurnTimer>)

  /** The show response: the queue when it has members, else the empty notice. */
  function QueueView(queue: seq<string>): Response {
    if |queue| > 0 then Show(queue) else ShowEmpty
  }

  /** The join branch: append the sender unless already queued. */
  function Join(queue: seq<string>, sender: string): Effect {
    if sender !in queue then Effect(queue + [sender], [Joined(sender)], [])
    else Effect(queue, [AlreadyInQueue(sender)], [])
  }

  /** The pick branch, for operators only: strip the duration tokens, resolve
      a name from the rest, and take that name out of the queue or, with no
      usable name, the head of the queue; a turn timer starts for whoever was taken. */
  function Pick(cfg: Config, queue: seq<string>, sender: string, message: string): Effect {
    if sender !in cfg.operators then Effect(queue, [], [])
    else if |queue| == 0 then Effect(queue, [PickEmpty], [])
    else
      var stripped := Stripped(Split(message), 0, DefaultDuration);
      var parts, duration := stripped.0, stripped.1;
      StrippedDuration(Split(message), 0, DefaultDuration);
      var name := PickName(cfg.matcher, queue, parts);
      if |name| > 2 then
        if name in queue then
          Effect(RemoveFirst(queue, name), [Picked(name)], [StartTimer(cfg, name, duration)])
        else
          Effect(queue, [PickNotFound(name)], [])
      else
        Effect(queue[1..], [PickedHead(queue[0])], [StartTimer(cfg, queue[0], duration)])
  }

  /** The target typed with a remove command before any name resolution:
      the sender for the bare command, the first word after it otherwise. */
  function TypedTarget(parts: seq<string>, sender: string): string {
    if |parts| == 2 then sender else if |parts| > 2 then parts[2] else ""
  }

  /** The invalid-name notices a remove on a non-empty queue sends. */
  function RemoveNotices(m: Matcher, queue: seq<string>, parts: seq<string>): seq<Response>
    requires |queue| > 0
  {
    if |parts| > 2 then InvalidNotices(m, queue, parts[2..]) else []
  }

  /** The target of a remove on a non-empty queue once the words are
      resolved, lower-cased. */
  function ResolvedTarget(m: Matcher, queue: seq<string>, parts: seq<string>, sender: string): string
    requires |queue| > 0
  {
    var typed := TypedTarget(parts, sender);
    Lower(if |parts| > 2 then RemoveTarget(m, queue, parts[2..], typed) else typed)
  }

  /** The remove branch: resolve a target, lower-case it, and take it out
      of the queue when it is longer than two characters and the sender is
      an operator or the target itself. */
  function Remove(cfg: Config, queue: seq<string>, sender: string, message: string): Effect {
    var parts := Split(message);
    if |queue| == 0 then Effect(queue, [RemoveNotFound(TypedTarget(parts, sender))], [])
    else
      var notices := RemoveNotices(cfg.matcher, queue, parts);
      var target := ResolvedTarget(cfg.matcher, queue, parts, sender);
      if |target| > 2 && (sender in cfg.operators || sender == target) then
        if target in queue then Effect(RemoveFirst(queue, target), notices + [Removed(target)], [])
        else Effect(queue, notices + [RemoveNotFound(target)], [])
      else Effect(queue, notices, [])
  }

  function WithEffect(st: BotState, e: Effect): Outcome {
    Outcome(st.(queue := e.queue), e.out, e.timers, false)
  }

  /** `on_pubmsg` for a message from `sender` (the nick with `@` in front). */
  function Handle(cfg: Config, st: BotState, sender: string, message: string): Outcome {
    var counted := st.(messages := st.messages + 1);
    var isOperator := sender in cfg.operators;
    match Classify(cfg.commands, Lower(message), st.open)
    case InfoCmd => Outcome(counted, [QueueInfo], [], false)
    case OpenCmd =>
      if isOperator then Outcome(counted.(open := true), [QueueOpened], [], true)
      else Outcome(counted, [], [], false)
    case CloseCmd =>
      if isOperator then Outcome(counted.(open := false, queue := []), [QueueClosed], [], false)
      else Outcome(counted, [], [], false)
    case GatedCmd => Outcome(counted, [ClosedNotice], [], false)
    case JoinCmd => WithEffect(counted, Join(st.queue, sender))
    case ShowCmd => Outcome(counted, [QueueView(st.queue)], [], false)
    case PickCmd => WithEffect(counted, Pick(cfg, st.queue, sender, message))
    case RemoveCmd => WithEffect(counted, Remove(cfg, st.queue, sender, message))
    case NoCommand => Outcome(counted, [], [], false)
  }

  /** The effect of one reminder tick: the new state, the responses, and
      whether the next tick is scheduled. */
  datatype Tick = Tick(state: BotState, out: seq<Response>, reschedule: bool)

  /** `remind`: only while the queue is open; it reminds when enough
      messages have been seen since the last reminder, and reschedules. */
  function RemindTick(cfg: Config, st: BotState): Tick {
    if !st.open then Tick(st, [], false)
    else if st.messages >= cfg.minMessagesForReminder then
      Tick(st.(messages := 0), [Reminder(cfg.defaultTimerMins), QueueView(st.queue)], true)
    else Tick(st, [], true)
  }
}

/** What the message handler and the reminder tick promise, proved about
    the step functions of module Steps. */
module Properties {
  import opened Strings
  import opened Lists
  import opened Fuzzy
  import opened Chat
  import opened Arguments
  import opened Steps

  // ---------------------------------------------------------------------
  // Every message

  /** Every message counts once towards the next reminder, whatever it says. */
  lemma HandleCountsMessage(cfg: Config, st: BotState, sender: string, message: string)
    ensures Handle(cfg, st, sender, message).state.messages == st.messages + 1
  {
  }

  /** No message puts a name into the queue twice. */
  lemma HandleKeepsNoDuplicates(cfg: Config, st: BotState, sender: string, message: string)
    requires NoDuplicates(st.queue)
    ensures NoDuplicates(Handle(cfg, st, sender, message).state.queue)
  {
    var q := st.queue;
    match Classify(cfg.commands, Lower(message), st.open)
    case JoinCmd =>
      if sender !in q { AppendAbsentKeepsNoDuplicates(q, sender); }
    case PickCmd =>
      var e := Pick(cfg, q, sender, message);
      if e.queue != q && e.queue != q[1..] {
        var parts := Stripped(Split(message), 0, DefaultDuration).0;
        RemoveFirstKeepsNoDuplicates(q, PickName(cfg.matcher, q, parts));
      }
    case RemoveCmd =>
      var e := Remove(cfg, q, sender, message);
      if e.queue != q {
        RemoveAuthority(cfg, q, sender, message);
        RemoveFirstKeepsNoDuplicates(q, e.out[|e.out| - 1].user);
      }
    case _ =>
  }

  /** Only an operator's open or close changes whether the queue is open. */
  lemma OnlyOperatorsToggleQueue(cfg: Config, st: BotState, sender: string, message: string)
    ensures var r := Handle(cfg, st, sender, message);
      r.state.open != st.open ==>
        sender in cfg.operators && Classify(cfg.commands, Lower(message), st.open) in {OpenCmd, CloseCmd}
  {
  }

  /** A reminder chain starts only from an operator's open command, and only
      pick arms turn timers. */
  lemma TimersComeFromOpenAndPick(cfg: Config, st: BotState, sender: string, message: string)
    ensures var r := Handle(cfg, st, sender, message);
      var c := Classify(cfg.commands, Lower(message), st.open);
      && (r.reminderStarted <==> c == OpenCmd && sender in cfg.operators)
      && (r.timers != [] ==> c == PickCmd && sender in cfg.operators)
  {
  }

  // ---------------------------------------------------------------------
  // Open, close and the closed-queue gate

  /** Open and close by anyone but an operator send nothing and change
      nothing but the message count. */
  lemma OpenCloseNeedOperator(cfg: Config, st: BotState, sender: string, message: string)
    requires Classify(cfg.commands, Lower(message), st.open) in {OpenCmd, CloseCmd}
    requires sender !in cfg.operators
    ensures Handle(cfg, st, sender, message) == Outcome(st.(messages := st.messages + 1), [], [], false)
  {
  }

  /** An operator's open opens the queue, keeps its members and starts a
      reminder chain, even when the queue was already open. */
  lemma OperatorOpens(cfg: Config, st: BotState, sender: string, message: string)
    requires Classify(cfg.commands, Lower(message), st.open) == OpenCmd
    requires sender in cfg.operators
    ensures var r := Handle(cfg, st, sender, message);
      r.state.open && r.state.queue == st.queue && r.out == [QueueOpened] && r.reminderStarted
  {
  }

  /** An operator's close closes the queue and empties it. */
  lemma OperatorCloses(cfg: Config, st: BotState, sender: string, message: string)
    requires Classify(cfg.commands, Lower(message), st.open) == CloseCmd
    requires sender in cfg.operators
    ensures var r := Handle(cfg, st, sender, message);
      !r.state.open && r.state.queue == [] && r.out == [QueueClosed] && r.timers == []
  {
  }

  /** While the queue is closed, a message under the gate prefix that is
      not info, open or close gets only the closed notice. */
  lemma ClosedQueueGate(cfg: Config, st: BotState, sender: string, message: string)
    requires !st.open
    requires StartsWith(Lower(message), cfg.commands.gate)
    requires Lower(message) !in {cfg.commands.info, cfg.commands.open, cfg.commands.close}
    ensures Handle(cfg, st, sender, message) == Outcome(st.(messages := st.messages + 1), [ClosedNotice], [], false)
  {
  }

  /** After an operator closes the queue, a join command that the gate
      prefix covers is turned away and the queue stays empty. */
  lemma JoinAfterCloseIsTurnedAway(cfg: Config, st: BotState, op: string, close: string, sender: string, join: string)
    requires op in cfg.operators
    requires Lower(close) == cfg.commands.close
    requires cfg.commands.close !in {cfg.commands.info, cfg.commands.open}
    requires Lower(join) == cfg.commands.join
    requires cfg.commands.join !in {cfg.commands.info, cfg.commands.open, cfg.commands.close}
    requires StartsWith(cfg.commands.join, cfg.commands.gate)
    ensures var closed := Handle(cfg, st, op, close).state;
      var r := Handle(cfg, closed, sender, join);
      r.out == [ClosedNotice] && r.state.queue == [] && !r.state.open
  {
  }

  // ---------------------------------------------------------------------
  // Join and show

  /** Join appends the sender only when absent; a second join changes
      nothing and says so. The open flag is not consulted. */
  lemma JoinAppendsOnce(cfg: Config, st: BotState, sender: string, message: string)
    requires Classify(cfg.commands, Lower(message), st.open) == JoinCmd
    ensures var r := Handle(cfg, st, sender, message);
      && r.state.open == st.open
      && (sender !in st.queue ==> r.state.queue == st.queue + [sender] && r.out == [Joined(sender)])
      && (sender in st.queue ==> r.state.queue == st.queue && r.out == [AlreadyInQueue(sender)])
  {
  }

  /** Show lists the queue, in order, or says that it is empty. */
  lemma ShowListsQueue(cfg: Config, st: BotState, sender: string, message: string)
    requires Classify(cfg.commands, Lower(message), st.open) == ShowCmd
    ensures var r := Handle(cfg, st, sender, message);
      r.state.queue == st.queue
      && (|st.queue| > 0 ==> r.out == [Show(st.queue)])
      && (|st.queue| == 0 ==> r.out == [ShowEmpty])
    ensures Handle(cfg, st, sender, message) == Outcome(st.(messages := st.messages + 1), [QueueView(st.queue)], [], false)
  {
  }

  // ---------------------------------------------------------------------
  // Pick

  /** A pick by anyone but an operator is ignored; on an empty queue it only says so. */
  lemma PickNeedsOperatorAndMembers(cfg: Config, queue: seq<string>, sender: string, message: string)
    ensures sender !in cfg.operators ==> Pick(cfg, queue, sender, message) == Effect(queue, [], [])
    ensures sender in cfg.operators && queue == [] ==> Pick(cfg, queue, sender, message) == Effect(queue, [PickEmpty], [])
  {
  }

  /** A pick takes at most one member out of the queue, keeps the order of
      the rest, and arms exactly one turn timer, for the member it took. */
  lemma PickTakesAtMostOne(cfg: Config, queue: seq<string>, sender: string, message: string)
    ensures var e := Pick(cfg, queue, sender, message);
      && |e.timers| <= 1
      && (e.timers == [] ==> e.queue == queue)
      && (e.timers != [] ==> e.timers[0].user in queue && e.queue == RemoveFirst(queue, e.timers[0].user))
  {
  }

  /** A pick's name, when longer than two characters, is taken out if
      queued and reported missing otherwise, with no timer; without such
      a name the head of the queue is taken. */
  lemma PickByNameOrHead(cfg: Config, queue: seq<string>, sender: string, message: string)
    requires sender in cfg.operators && |queue| > 0
    ensures var parts := Stripped(Split(message), 0, DefaultDuration).0;
      var name := PickName(cfg.matcher, queue, parts);
      var e := Pick(cfg, queue, sender, message);
      && (|name| > 2 && name in queue ==> e.queue == RemoveFirst(queue, name) && e.out == [Picked(name)] && |e.timers| == 1)
      && (|name| > 2 && name !in queue ==> e == Effect(queue, [PickNotFound(name)], []))
      && (|name| <= 2 ==> e.queue == queue[1..] && e.out == [PickedHead(queue[0])] && |e.timers| == 1)
  {
  }

  /** The name a pick resolves is the last word after the command, or its
      fuzzy match in the queue when that scores at least the threshold. */
  lemma PickNameIsLastWord(m: Matcher, queue: seq<string>, parts: seq<string>)
    requires |queue| > 0 && |parts| > 2
    ensures var last := parts[|parts| - 1];
      var name := PickName(m, queue, parts);
      && (ExtractOne(m, last, queue).score >= Threshold ==> name == ExtractOne(m, last, queue).name && name in queue)
      && (ExtractOne(m, last, queue).score < Threshold ==> name == last)
  {
  }

  /** With no number among the words of the message, the turn timer lasts
      the default: the configured minutes times 3600 seconds. */
  lemma PickDefaultTimer(cfg: Config, queue: seq<string>, sender: string, message: string)
    requires Pick(cfg, queue, sender, message).timers != []
    requires forall k :: 0 <= k < |Split(message)| ==> !IsDigits(Split(message)[k])
    ensures Pick(cfg, queue, sender, message).timers[0].seconds == cfg.defaultTimerMins * 3600
  {
    StrippedDuration(Split(message), 0, DefaultDuration);
    assert Stripped(Split(message), 0, DefaultDuration).1 == DefaultDuration;
  }

  /** With a number among the words of the message, the duration loop
      removes at least one word, and the turn timer lasts 60 seconds per
      unit of the last word it removed. */
  lemma PickTypedTimer(cfg: Config, queue: seq<string>, sender: string, message: string)
    requires Pick(cfg, queue, sender, message).timers != []
    requires exists k :: 0 <= k < |Split(message)| && IsDigits(Split(message)[k])
    ensures var removed := StrippedTokens(Split(message), 0);
      && removed != []
      && IsDigits(removed[|removed| - 1])
      && Pick(cfg, queue, sender, message).timers[0].seconds == DecimalValue(removed[|removed| - 1]) * 60
  {
    var words := Split(message);
    StrippedDuration(words, 0, DefaultDuration);
    StrippedDurationIsLastRemoved(words, 0, DefaultDuration);
    var d := Stripped(words, 0, DefaultDuration).1;
    var t := Pick(cfg, queue, sender, message).timers[0];
    assert t == StartTimer(cfg, t.user, d);
  }

  // ---------------------------------------------------------------------
  // Remove

  /** On an empty queue, remove answers not-found for the target as typed
      (not lower-cased), whoever asks, and changes nothing. */
  lemma RemoveOnEmptyQueue(cfg: Config, sender: string, message: string)
    ensures Remove(cfg, [], sender, message) == Effect([], [RemoveNotFound(TypedTarget(Split(message), sender))], [])
  {
  }

  /** A remove changes the queue only by taking out one lower-cased target
      longer than two characters, for an operator or for the target itself,
      and then it reports that target as removed. */
  lemma RemoveAuthority(cfg: Config, queue: seq<string>, sender: string, message: string)
    ensures var e := Remove(cfg, queue, sender, message);
      && e.timers == []
      && (e.queue != queue ==>
            && |e.out| > 0 && e.out[|e.out| - 1].Removed?
            && var t := e.out[|e.out| - 1].user;
            && t in queue && |t| > 2 && Lower(t) == t
            && (sender in cfg.operators || sender == t)
            && e.queue == RemoveFirst(queue, t))
  {
    var parts := Split(message);
    if |queue| > 0 {
      var typed := TypedTarget(parts, sender);
      LowerIsIdempotent(if |parts| > 2 then RemoveTarget(cfg.matcher, queue, parts[2..], typed) else typed);
    }
  }

  /** On a non-empty queue, the resolved target longer than two characters
      is taken out when the sender is an operator or the target itself and
      it is queued, and reported missing when it is not queued; any other
      remove sends only the invalid-name notices. */
  lemma RemoveByOperatorOrSelf(cfg: Config, queue: seq<string>, sender: string, message: string)
    requires |queue| > 0
    ensures var parts := Split(message);
      var t := ResolvedTarget(cfg.matcher, queue, parts, sender);
      var notices := RemoveNotices(cfg.matcher, queue, parts);
      var e := Remove(cfg, queue, sender, message);
      && (|t| > 2 && (sender in cfg.operators || sender == t) && t in queue ==>
            e == Effect(RemoveFirst(queue, t), notices + [Removed(t)], []))
      && (|t| > 2 && (sender in cfg.operators || sender == t) && t !in queue ==>
            e == Effect(queue, notices + [RemoveNotFound(t)], []))
      && (!(|t| > 2 && (sender in cfg.operators || sender == t)) ==> e == Effect(queue, notices, []))
  {
  }

  /** An operator's `remove @name`, for a queued lower-case name longer
      than two characters, takes that member out and says so. */
  lemma OperatorRemovesNamed(cfg: Config, queue: seq<string>, sender: string, message: string)
    requires sender in cfg.operators
    requires |Split(message)| == 3 && StartsWith(Split(message)[2], "@")
    requires Lower(Split(message)[2]) in queue && |Split(message)[2]| > 2
    ensures var t := Lower(Split(message)[2]);
      Remove(cfg, queue, sender, message) == Effect(RemoveFirst(queue, t), [Removed(t)], [])
  {
    var parts := Split(message);
    var rest := parts[2..];
    assert rest == [parts[2]];
    assert rest[..0] == [];
    assert RemoveTarget(cfg.matcher, queue, rest, TypedTarget(parts, sender)) == parts[2];
    assert !IsInvalid(cfg.matcher, queue, rest[0]);
    assert InvalidNotices(cfg.matcher, queue, rest) == [];
  }

  /** Anyone but an operator can take only themselves out of the queue, and
      otherwise hears nothing but invalid-name notices. */
  lemma NonOperatorRemovesOnlySelf(cfg: Config, queue: seq<string>, sender: string, message: string)
    requires |queue| > 0
    requires sender !in cfg.operators
    ensures var e := Remove(cfg, queue, sender, message);
      && (e.queue == queue || e.queue == RemoveFirst(queue, sender))
      && (forall k :: 0 <= k < |e.out| - 1 ==> e.out[k] == InvalidName)
      && (|e.out| > 0 ==> e.out[|e.out| - 1] in {InvalidName, Removed(sender), RemoveNotFound(sender)})
  {
    var parts := Split(message);
    var typed := TypedTarget(parts, sender);
    var notices := if |parts| > 2 then InvalidNotices(cfg.matcher, queue, parts[2..]) else [];
    var target := Lower(if |parts| > 2 then RemoveTarget(cfg.matcher, queue, parts[2..], typed) else typed);
    if |parts| > 2 {
      InvalidNoticesSpec(cfg.matcher, queue, parts[2..]);
    }
    assert forall k :: 0 <= k < |notices| ==> notices[k] == InvalidName;
    var e := Remove(cfg, queue, sender, message);
    if |target| > 2 && sender == target {
      if target in queue {
        assert e == Effect(RemoveFirst(queue, sender), notices + [Removed(sender)], []);
      } else {
        assert e == Effect(queue, notices + [RemoveNotFound(sender)], []);
      }
    } else {
      assert e == Effect(queue, notices, []);
    }
  }

  /** A non-operator naming someone else with `@` names gets no answer at
      all and the queue is unchanged. */
  lemma OthersRemoveIsSilent(cfg: Config, queue: seq<string>, sender: string, message: string)
    requires |queue| > 0
    requires sender !in cfg.operators
    requires |Split(message)| > 2
    requires forall k :: 2 <= k < |Split(message)| ==> StartsWith(Split(message)[k], "@")
    requires sender != Lower(Split(message)[|Split(message)| - 1])
    ensures Remove(cfg, queue, sender, message) == Effect(queue, [], [])
  {
    var parts := Split(message);
    var rest := parts[2..];
    assert rest[|rest| - 1] == parts[|parts| - 1];
    assert forall k :: 0 <= k < |rest| ==> !IsInvalid(cfg.matcher, queue, rest[k]) by {
      forall k | 0 <= k < |rest| ensures !IsInvalid(cfg.matcher, queue, rest[k]) {
        assert rest[k] == parts[k + 2];
      }
    }
    InvalidNoticesSpec(cfg.matcher, queue, rest);
    assert StartsWith(rest[|rest| - 1], "@");
    var target := RemoveTarget(cfg.matcher, queue, rest, TypedTarget(parts, sender));
    assert target == parts[|parts| - 1];
    assert sender != Lower(target);
  }

  /** The bare remove command takes the sender out, when the sender's name
      is already lower-case, longer than two characters and queued. */
  lemma SelfRemoval(cfg: Config, queue: seq<string>, sender: string, message: string)
    requires |Split(message)| == 2
    requires sender in queue && |sender| > 2 && Lower(sender) == sender
    ensures Remove(cfg, queue, sender, message) == Effect(RemoveFirst(queue, sender), [Removed(sender)], [])
  {
  }

  // ---------------------------------------------------------------------
  // Reminder tick

  /** A tick reschedules exactly while the queue is open, and a tick on a
      closed queue does nothing else either. */
  lemma TickReschedulesIffOpen(cfg: Config, st: BotState)
    ensures RemindTick(cfg, st).reschedule == st.open
    ensures !st.open ==> RemindTick(cfg, st) == Tick(st, [], false)
  {
  }

  /** On an open queue, a tick reminds and shows the queue when enough
      messages have been seen, and resets the count; below the threshold it
      sends nothing and leaves the count alone. It never touches the queue. */
  lemma TickReminds(cfg: Config, st: BotState)
    requires st.open
    ensures var r := RemindTick(cfg, st);
      && r.state.queue == st.queue && r.state.open
      && (st.messages >= cfg.minMessagesForReminder ==>
            r.out == [Reminder(cfg.defaultTimerMins), QueueView(st.queue)] && r.state.messages == 0)
      && (st.messages < cfg.minMessagesForReminder ==> r.out == [] && r.state == st)
  {
  }
}

/** The `QueueBot` object: its configuration, its three mutable fields, the
    message handler and the two timer callbacks. */
module Bot {
  import opened Strings
  import opened Lists
  import opened Fuzzy
  import opened Chat
  import opened Arguments
  import opened Steps
  import Properties

  class QueueBot {
    const config: Config

    var queue: seq<string>
    var queueOpen: bool
    var messagesSinceReminder: nat

    function State(): BotState
      reads this
    {
      BotState(queue, queueOpen, messagesSinceReminder)
    }

    /** The queue never holds a name twice. */
    predicate Valid()
      reads this
    {
      NoDuplicates(queue)
    }

    constructor (config: Config)
      ensures this.config == config
      ensures State() == Initial && Valid()
    {
      this.config := config;
      queue := [];
      queueOpen := false;
      messagesSinceReminder := 0;
    }

    /** `on_pubmsg`: handle one chat message from `nick`. */
    method OnPubMsg(nick: string, message: string)
      returns (out: seq<Response>, timers: seq<TurnTimer>, reminderStarted: bool)
      requires Valid()
      modifies this
      ensures Valid()
      ensures Outcome(State(), out, timers, reminderStarted) == Handle(config, old(State()), "@" + nick, message)
    {
      var sender := "@" + nick;
      ghost var expected := Handle(config, State(), sender, message);
      messagesSinceReminder := messagesSinceReminder + 1;
      out, timers, reminderStarted := [], [], false;
      var lowered := Lower(message);
      var commands := config.commands;
      ghost var command := Classify(commands, lowered, queueOpen);

      if lowered == commands.info {
        assert command == InfoCmd;
        out := [QueueInfo];
        assert Outcome(State(), out, timers, reminderStarted) == expected;
      } else if lowered == commands.open {
        assert command == OpenCmd;
        if sender in config.operators {
          queueOpen := true;
          out := [QueueOpened];
          reminderStarted := true;
        }
        assert Outcome(State(), out, timers, reminderStarted) == expected;
      } else if lowered == commands.close {
        assert command == CloseCmd;
        if sender in config.operators {
          queueOpen := false;
          queue := [];
          out := [QueueClosed];
        }
        assert Outcome(State(), out, timers, reminderStarted) == expected;
      } else if StartsWith(lowered, commands.gate) && !queueOpen {
        assert command == GatedCmd;
        out := [ClosedNotice];
        assert Outcome(State(), out, timers, reminderStarted) == expected;
      } else if lowered == commands.join {
        assert command == JoinCmd;
        if sender !in queue {
          queue := queue + [sender];
          out := [Joined(sender)];
        } else {
          out := [AlreadyInQueue(sender)];
        }
        assert Outcome(State(), out, timers, reminderStarted) == expected;
      } else if lowered == commands.show {
        assert command == ShowCmd;
        if |queue| > 0 {
          out := [Show(queue)];
        } else {
          out := [ShowEmpty];
        }
        assert Outcome(State(), out, timers, reminderStarted) == expected;
      } else if StartsWith(lowered, commands.pick) {
        assert command == PickCmd;
        out, timers := PickCommand(sender, message);
        assert Outcome(State(), out, timers, reminderStarted) == expected;
      } else if StartsWith(lowered, commands.remove) {
        assert command == RemoveCmd;
        out := RemoveCommand(sender, message);
        assert Outcome(State(), out, timers, reminderStarted) == expected;
      } else {
        assert command == NoCommand;
        assert Outcome(State(), out, timers, reminderStarted) == expected;
      }
      Properties.HandleKeepsNoDuplicates(config, old(State()), sender, message);
    }

    /** The pick branch of `on_pubmsg`. */
    method PickCommand(sender: string, message: string) returns (out: seq<Response>, timers: seq<TurnTimer>)
      requires Valid()
      modifies this`queue
      ensures Valid()
      ensures Effect(queue, out, timers) == Pick(config, old(queue), sender, message)
    {
      out, timers := [], [];
      if sender in config.operators {
        if |queue| == 0 {
          out := [PickEmpty];
        } else {
          var parts, duration := StripDurations(Split(message));
          StrippedDuration(Split(message), 0, DefaultDuration);
          var name := ResolvePickName(config.matcher, queue, parts);
          if |name| > 2 {
            if name in queue {
              queue := RemoveFirst(queue, name);
              out := [Picked(name)];
              timers := [StartTimer(config, name, duration)];
            } else {
              out := [PickNotFound(name)];
            }
          } else {
            name := queue[0];
            queue := queue[1..];
            out := [PickedHead(name)];
            timers := [StartTimer(config, name, duration)];
          }
        }
      }
    }

    /** The remove branch of `on_pubmsg`. */
    method RemoveCommand(sender: string, message: string) returns (out: seq<Response>)
      requires Valid()
      modifies this`queue
      ensures Valid()
      ensures Effect(queue, out, []) == Remove(config, old(queue), sender, message)
    {
      out := [];
      var parts := Split(message);
      var target := "";
      if |parts| == 2 {
        target := sender;
      }
      if |parts| > 2 {
        target := parts[2];
      }
      if |queue| == 0 {
        out := [RemoveNotFound(target)];
      } else {
        if |parts| > 2 {
          target, out := ResolveRemoveTarget(config.matcher, queue, parts[2..], target);
        }
        target := Lower(target);
        if |target| > 2 {
          if sender in config.operators || sender == target {
            if target in queue {
              queue := RemoveFirst(queue, target);
              out := out + [Removed(target)];
            } else {
              out := out + [RemoveNotFound(target)];
            }
          }
        }
      }
    }

    /** `time_up`, the body of a turn timer: announce that the turn is over. */
    method TimeUp(removedUser: string) returns (out: seq<Response>)
      ensures out == [TimesUp(removedUser)]
    {
      out := [TimesUp(removedUser)];
    }

    /** `remind`, the body of a reminder tick. */
    method Remind() returns (out: seq<Response>, reschedule: bool)
      requires Valid()
      modifies this`messagesSinceReminder
      ensures Valid()
      ensures Tick(State(), out, reschedule) == RemindTick(config, old(State()))
    {
      out, reschedule := [], false;
      if queueOpen {
        if messagesSinceReminder >= config.minMessagesForReminder {
          messagesSinceReminder := 0;
          out := [Reminder(config.defaultTimerMins)];
          if |queue| > 0 {
            out := out + [Show(queue)];
          } else {
            out := out + [ShowEmpty];
          }
        }
        reschedule := true;
      }
    }
  }
}

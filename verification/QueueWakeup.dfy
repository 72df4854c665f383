/** The condition variable of a PriorityFrameQueue: one consumer, any number of producers, one
    shared sync.Cond. Every step is one critical section of Push, Pop or Drain; a caller that
    finds the queue full (or empty) releases the lock and falls asleep in the same step. */
module QueueWakeup {
  import opened Options

  /** The bound of the queue and the number of goroutines that push. */
  datatype Config = Config(size: nat, producers: nat)

  datatype Consumer = Running | Asleep | Exited

  /** Producers are asleep, woken (inside Push, about to look again) or outside Push. */
  datatype State = State(len: nat, asleep: nat, woken: nat, consumer: Consumer, drain: bool)

  function Start(): State { State(0, 0, 0, Running, false) }

  /** Whom Signal wakes. */
  datatype Wake = Nobody | Producer | TheConsumer

  datatype Action =
    | ProducerSleeps(again: bool)
    | ProducerPushes(again: bool, wake: Wake)
    | ConsumerSleeps
    | ConsumerPops(wake: Wake)
    | ConsumerExits
    | Drain

  /** Signal wakes one sleeper, any one, if there is any. */
  predicate CanWake(s: State, wake: Wake) {
    match wake
    case Nobody => s.asleep == 0 && s.consumer != Asleep
    case Producer => s.asleep > 0
    case TheConsumer => s.consumer == Asleep
  }

  function Signal(s: State, wake: Wake): State
    requires CanWake(s, wake)
  {
    match wake
    case Nobody => s
    case Producer => s.(asleep := s.asleep - 1, woken := s.woken + 1)
    case TheConsumer => s.(consumer := Running)
  }

  /** Some producer can run: one that was woken, or one that enters Push afresh. */
  predicate HasProducer(c: Config, s: State, again: bool) {
    if again then s.woken > 0 else s.asleep + s.woken < c.producers
  }

  function LeaveWoken(s: State, again: bool): State
    requires again ==> s.woken > 0
  {
    if again then s.(woken := s.woken - 1) else s
  }

  predicate Enabled(c: Config, s: State, a: Action) {
    match a
    case ProducerSleeps(again) => HasProducer(c, s, again) && s.len >= c.size
    case ProducerPushes(again, wake) => HasProducer(c, s, again) && s.len < c.size && CanWake(s, wake)
    case ConsumerSleeps => s.consumer == Running && s.len == 0 && !s.drain
    case ConsumerPops(wake) => s.consumer == Running && s.len > 0 && CanWake(s, wake)
    case ConsumerExits => s.consumer == Running && s.len == 0 && s.drain
    case Drain => true
  }

  function Apply(c: Config, s: State, a: Action): State
    requires Enabled(c, s, a)
  {
    match a
    case ProducerSleeps(again) => LeaveWoken(s, again).(asleep := s.asleep + 1)
    case ProducerPushes(again, wake) => LeaveWoken(Signal(s, wake), again).(len := s.len + 1)
    case ConsumerSleeps => s.(consumer := Asleep)
    case ConsumerPops(wake) => Signal(s, wake).(len := s.len - 1)
    case ConsumerExits => s.(consumer := Exited)
    case Drain =>
      s.(asleep := 0, woken := s.woken + s.asleep, drain := true,
         consumer := if s.consumer == Asleep then Running else s.consumer)
  }

  /** The state after a run from the start, if every action of it is enabled in turn. */
  function Run(c: Config, acts: seq<Action>): Option<State> {
    if acts == [] then Some(Start())
    else
      var t := Run(c, acts[..|acts| - 1]);
      var a := acts[|acts| - 1];
      if t.Some? && Enabled(c, t.value, a) then Some(Apply(c, t.value, a)) else None
  }

  ghost predicate Reachable(c: Config, s: State) {
    exists acts :: Run(c, acts) == Some(s)
  }

  /** The consumer sleeps although there is something for it, and nobody who was woken is on
      the way to pass a signal on. */
  predicate LostWakeup(s: State) {
    s.consumer == Asleep && (s.len > 0 || s.drain) && s.woken == 0
  }

  // -------------------------------------------------------------------------
  // Safety

  ghost predicate Inv(c: Config, s: State) {
    && s.len <= c.size
    && s.asleep + s.woken <= c.producers
    && (s.asleep > 0 ==> s.asleep + c.size <= c.producers + s.len)
    && (s.drain ==> s.consumer != Asleep)
    && (s.consumer == Asleep ==>
          && (s.len > 0 ==> s.woken > 0)
          && (s.len + s.asleep + c.size <= c.producers || (s.len == 0 && s.asleep == 0)))
  }

  lemma InvStep(c: Config, s: State, a: Action)
    requires 0 < c.size && c.producers < 2 * c.size
    requires Inv(c, s) && Enabled(c, s, a)
    ensures Inv(c, Apply(c, s, a))
  {}

  lemma {:induction false} InvRun(c: Config, acts: seq<Action>, s: State)
    requires 0 < c.size && c.producers < 2 * c.size
    requires Run(c, acts) == Some(s)
    ensures Inv(c, s)
  {
    if acts != [] {
      var t := Run(c, acts[..|acts| - 1]).value;
      InvRun(c, acts[..|acts| - 1], t);
      InvStep(c, t, acts[|acts| - 1]);
    }
  }

  /** The use that Serve makes of a queue: one producer. The consumer sleeps only on an empty
      queue that is not drained, the producer only on a full one, so never both at once. */
  lemma OneProducer(c: Config, s: State)
    requires 0 < c.size && c.producers == 1 && Reachable(c, s)
    ensures s.consumer == Asleep ==> s.len == 0 && !s.drain && s.asleep == 0
    ensures s.asleep == 1 ==> s.len == c.size
    ensures s.asleep <= 1 && s.len <= c.size
  {
    var acts :| Run(c, acts) == Some(s);
    InvRun(c, acts, s);
  }

  // -------------------------------------------------------------------------
  // The exact threshold

  lemma Extend(c: Config, s: State, a: Action)
    requires Reachable(c, s) && Enabled(c, s, a)
    ensures Reachable(c, Apply(c, s, a))
  {
    var acts :| Run(c, acts) == Some(s);
    assert (acts + [a])[..|acts|] == acts;
    assert Run(c, acts + [a]) == Some(Apply(c, s, a));
  }

  lemma {:induction false} Fill(c: Config, i: nat)
    requires i <= c.size && 0 < c.producers
    ensures Reachable(c, State(i, 0, 0, Running, false))
  {
    if i == 0 {
      assert Run(c, []) == Some(Start());
    } else {
      Fill(c, i - 1);
      Extend(c, State(i - 1, 0, 0, Running, false), ProducerPushes(false, Nobody));
    }
  }

  lemma {:induction false} AllFallAsleep(c: Config, i: nat)
    requires i <= c.producers && 0 < c.producers
    ensures Reachable(c, State(c.size, i, 0, Running, false))
  {
    if i == 0 {
      Fill(c, c.size);
    } else {
      AllFallAsleep(c, i - 1);
      Extend(c, State(c.size, i - 1, 0, Running, false), ProducerSleeps(false));
    }
  }

  lemma {:induction false} Empty(c: Config, i: nat)
    requires i <= c.size <= c.producers && 0 < c.producers
    ensures Reachable(c, State(c.size - i, c.producers - i, i, Running, false))
  {
    if i == 0 {
      AllFallAsleep(c, c.producers);
    } else {
      Empty(c, i - 1);
      Extend(c, State(c.size - i + 1, c.producers - i + 1, i - 1, Running, false), ConsumerPops(Producer));
    }
  }

  lemma {:induction false} Refill(c: Config, i: nat)
    requires i <= c.size && 0 < c.size && 2 * c.size <= c.producers
    ensures Reachable(c, State(i, c.producers - c.size - i, c.size, Asleep, false))
  {
    if i == 0 {
      Empty(c, c.size);
      Extend(c, State(0, c.producers - c.size, c.size, Running, false), ConsumerSleeps);
    } else {
      Refill(c, i - 1);
      Extend(c, State(i - 1, c.producers - c.size - i + 1, c.size, Asleep, false),
             ProducerPushes(true, Producer));
    }
  }

  lemma {:induction false} FallAsleepAgain(c: Config, i: nat)
    requires i <= c.size && 0 < c.size && 2 * c.size <= c.producers
    ensures Reachable(c, State(c.size, c.producers - 2 * c.size + i, c.size - i, Asleep, false))
  {
    if i == 0 {
      Refill(c, c.size);
    } else {
      FallAsleepAgain(c, i - 1);
      Extend(c, State(c.size, c.producers - 2 * c.size + i - 1, c.size - i + 1, Asleep, false),
             ProducerSleeps(true));
    }
  }

  /** A wakeup can be lost exactly when there are at least twice as many producers as slots. The
      run that loses one: all producers sleep on a full queue, the consumer empties it, waking
      one producer a slot, and sleeps; the woken refill it, and each of their signals goes to
      a producer that has slept longer than the consumer and finds the queue full again. */
  lemma LostWakeupThreshold(c: Config)
    requires 0 < c.size
    ensures (exists s :: Reachable(c, s) && LostWakeup(s)) <==> 2 * c.size <= c.producers
  {
    if 2 * c.size <= c.producers {
      FallAsleepAgain(c, c.size);
      assert LostWakeup(State(c.size, c.producers - c.size, 0, Asleep, false));
    } else {
      forall s | Reachable(c, s) ensures !LostWakeup(s) {
        var acts :| Run(c, acts) == Some(s);
        InvRun(c, acts, s);
      }
    }
  }
}

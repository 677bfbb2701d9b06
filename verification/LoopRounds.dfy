/**
  The two views of the timer loop agree: the loop of the service class, which plays rounds,
  and the loop thread of the clocked model, which acts step by step.
*/
module LoopRounds {
  import opened Types
  import opened Session
  import opened SessionInvariant
  import opened Kiosk
  import opened TimerLoop

  /** The rounds completed so far, and the sections of other threads since: before the loop
      took the lock, and while it waits. */
  datatype Progress = Progress(rounds: seq<Round>, before: seq<Event>, others: seq<Event>)

  /** What one action adds to the rounds. */
  function Advance(p: Progress, t: Timed, a: Action): Progress
    requires Enabled(t, a)
  {
    match a
    case Serve(e, spent) =>
      if t.pc.Waiting? then p.(others := p.others + [e]) else p.(before := p.before + [e])
    case Check(c, spent) =>
      Progress(p.rounds + [Round(p.before, t.pc.read, p.others, t.now, t.pc.start, t.now + spent, c)], [], [])
    case _ => p
  }

  /** The rounds of the first n actions of a run. */
  ghost function ProgressOf(ts: seq<Timed>, actions: seq<Action>, n: nat): Progress
    requires n <= |actions| && Chain(ts, actions)
  {
    if n == 0 then Progress([], [], [])
    else
      assert StepAt(ts, actions, n - 1);
      Advance(ProgressOf(ts, actions, n - 1), ts[n - 1], actions[n - 1])
  }

  /** The state in which the loop took, or will take, the lock for the current round. */
  function Locked(s: State, p: Progress): State {
    Run(AfterRounds(s, p.rounds), p.before)
  }

  /** A run that started in s and has made this progress is now in t. */
  ghost predicate Matches(s: State, p: Progress, t: Timed) {
    var locked := Locked(s, p);
    && t.s == Run(locked, p.others)
    && match t.pc
       case AtTop(since) => p.others == []
       case Armed(since, read, timeout) =>
         p.others == [] && locked.running && timeout == NextTimeout(locked, read)
       case Waiting(since, read, start, deadline, notified) =>
         locked.running && deadline == start + NextTimeout(locked, read) && start <= t.now
       case Exited => p.others == []
  }

  // ----- Rounds -----

  lemma RunSnoc(s: State, events: seq<Event>, e: Event)
    ensures Run(s, events + [e]) == Next(Run(s, events), e)
  {
    assert (events + [e])[..|events|] == events;
  }

  lemma StopsForGood(s: State, e: Event)
    requires !s.running
    ensures !Next(s, e).running
  {
    if !e.LoopCheck? {
      NoUnloadElsewhere(s, e);
    } else {
      InterruptKeepsIdle(s, Callbacks.OnInterrupted(Timeout), e.closing);
    }
  }

  lemma {:induction false} RunStopsForGood(s: State, events: seq<Event>)
    requires !s.running
    ensures !Run(s, events).running
    decreases |events|
  {
    if events != [] {
      RunStopsForGood(s, events[..|events| - 1]);
      StopsForGood(Run(s, events[..|events| - 1]), events[|events| - 1]);
    }
  }

  /** One more round is played from where the others left off, unless the loop stopped. */
  lemma {:induction false} OneMoreRound(s: State, rounds: seq<Round>, r: Round)
    requires AfterRounds(s, rounds).running
    ensures AfterRounds(s, rounds + [r]) == Run(AfterRounds(s, rounds), RoundEvents(AfterRounds(s, rounds), r))
    decreases |rounds|
  {
    if rounds == [] {
      RoundThenRest(s, [r]);
      assert rounds + [r] == [r] && [r][1..] == [];
    } else {
      assert s.running;
      RoundThenRest(s, rounds);
      RoundThenRest(s, rounds + [r]);
      assert (rounds + [r])[1..] == rounds[1..] + [r];
      OneMoreRound(Run(s, RoundEvents(s, rounds[0])), rounds[1..], r);
    }
  }

  /** A round that finds the service running ends with its check. */
  lemma RoundEndsWithCheck(s: State, r: Round)
    requires Run(s, r.before).running
    ensures
      var locked := Run(s, r.before);
      Run(s, RoundEvents(s, r)) == Next(Run(locked, r.others), RoundCheck(locked, r))
  {
    var locked := Run(s, r.before);
    RunConcat(s, r.before, r.others + [RoundCheck(locked, r)]);
    RunSnoc(locked, r.others, RoundCheck(locked, r));
  }

  /** A round that finds the service unloading makes no check. */
  lemma UnloadingRoundMakesNoCheck(s: State, r: Round)
    requires !Run(s, r.before).running
    ensures RoundEvents(s, r) == r.before
  {}

  /** Once the loop has stopped, no further round is played. */
  lemma {:induction false} StoppedLoopIsDone(s: State, rounds: seq<Round>, more: seq<Round>)
    requires !AfterRounds(s, rounds).running
    ensures AfterRounds(s, rounds + more) == AfterRounds(s, rounds)
    decreases |rounds|
  {
    if rounds != [] && s.running {
      RoundThenRest(s, rounds);
      RoundThenRest(s, rounds + more);
      assert (rounds + more)[1..] == rounds[1..] + more;
      StoppedLoopIsDone(Run(s, RoundEvents(s, rounds[0])), rounds[1..], more);
    }
  }

  lemma LastRoundIsPlayed(s: State, rounds: seq<Round>, r: Round)
    requires Run(AfterRounds(s, rounds), r.before).running
    ensures
      var locked := Run(AfterRounds(s, rounds), r.before);
      AfterRounds(s, rounds + [r]) == Next(Run(locked, r.others), RoundCheck(locked, r))
  {
    var top := AfterRounds(s, rounds);
    if !top.running {
      RunStopsForGood(top, r.before);
    }
    OneMoreRound(s, rounds, r);
    RoundEndsWithCheck(top, r);
  }

  lemma SameCheck(t: Timed, locked: State, r: Round, c: Closing, spent: nat)
    requires t.pc.Waiting? && t.pc.deadline == t.pc.start + NextTimeout(locked, r.read) && t.pc.start <= t.now
    requires r.now == t.now && r.start == t.pc.start && r.end == t.now + spent && r.closing == c
    ensures CheckEvent(t, c, spent) == RoundCheck(locked, r)
  {}

  // ----- One action -----

  lemma ServeMatches(s: State, p: Progress, t: Timed, e: Event, spent: nat)
    requires Matches(s, p, t) && Enabled(t, Serve(e, spent))
    ensures Matches(s, Advance(p, t, Serve(e, spent)), Served(t, e, spent))
  {
    if t.pc.Waiting? {
      RunSnoc(Locked(s, p), p.others, e);
    } else {
      RunSnoc(AfterRounds(s, p.rounds), p.before, e);
    }
  }

  lemma TopMatches(s: State, rounds: seq<Round>, t: Timed)
    requires t.pc.AtTop? && t.s == AfterRounds(s, rounds)
    ensures Matches(s, Progress(rounds, [], []), t)
  {}

  lemma CheckMatches(s: State, p: Progress, t: Timed, c: Closing, spent: nat)
    requires Matches(s, p, t) && Enabled(t, Check(c, spent))
    ensures Matches(s, Advance(p, t, Check(c, spent)), Checked(t, c, spent))
  {
    var r := Round(p.before, t.pc.read, p.others, t.now, t.pc.start, t.now + spent, c);
    var locked := Locked(s, p);
    assert CheckEvent(t, c, spent) == RoundCheck(locked, r) by {
      SameCheck(t, locked, r, c, spent);
    }
    assert AfterRounds(s, p.rounds + [r]) == Next(t.s, RoundCheck(locked, r)) by {
      LastRoundIsPlayed(s, p.rounds, r);
    }
    TopMatches(s, p.rounds + [r], Checked(t, c, spent));
  }

  lemma ActMatches(s: State, p: Progress, t: Timed, a: Action)
    requires Matches(s, p, t) && Enabled(t, a)
    ensures Matches(s, Advance(p, t, a), Act(t, a))
  {
    match a
    case Serve(e, spent) => ServeMatches(s, p, t, e, spent);
    case Check(c, spent) => CheckMatches(s, p, t, c, spent);
    case _ =>
  }

  // ----- Theorems -----

  lemma {:induction false} RunMatches(ts: seq<Timed>, actions: seq<Action>, D: nat, L: nat, n: nat)
    requires TimedRun(ts, actions, D, L) && n < |ts|
    ensures Matches(ts[0].s, ProgressOf(ts, actions, n), ts[n])
  {
    if n > 0 {
      RunMatches(ts, actions, D, L, n - 1);
      assert StepAt(ts, actions, n - 1);
      ActMatches(ts[0].s, ProgressOf(ts, actions, n - 1), ts[n - 1], actions[n - 1]);
    }
  }

  /** After every check of a timed run, the service is where its loop is after the rounds of
      that run. So what is proved of timed runs (the expiry window, lost wakeups, idle
      unload) holds of the loop of the class. */
  lemma TheLoopPlaysTheRun(ts: seq<Timed>, actions: seq<Action>, D: nat, L: nat, n: nat)
    requires TimedRun(ts, actions, D, L) && n < |actions| && actions[n].Check?
    ensures
      var p := ProgressOf(ts, actions, n + 1);
      && p.before == p.others == []
      && ts[n + 1].s == AfterRounds(ts[0].s, p.rounds)
      && |p.rounds| == Checks(actions, 0, n + 1)
  {
    RunMatches(ts, actions, D, L, n + 1);
    assert StepAt(ts, actions, n);
    RoundsAreChecks(ts, actions, n + 1);
  }

  lemma {:induction false} RoundsAreChecks(ts: seq<Timed>, actions: seq<Action>, n: nat)
    requires n <= |actions| && Chain(ts, actions)
    ensures |ProgressOf(ts, actions, n).rounds| == Checks(actions, 0, n)
  {
    if n > 0 {
      RoundsAreChecks(ts, actions, n - 1);
    }
  }

  /** A round that finds the session expired closes it if its exit calls succeed. */
  lemma ExpiredRoundCloses(s: State, r: Round)
    requires Inv(s) && s.running
    requires
      var s1 := Run(Run(s, r.before), r.others);
      && Inv(s1) && Run(s, r.before).running
      && s1.session.active && s1.session.endpoint <= r.now
    requires AllPower(r.closing.exit.power) && Exits(r.closing.exit)
    ensures AfterRounds(s, [r]).session == NO_SESSION
  {
    OneMoreRound(s, [], r);
    assert [] + [r] == [r];
    RoundEndsWithCheck(s, r);
    var s1 := Run(s, r.before);
    SuccessfulCheckCloses(Run(s1, r.others), RoundCheck(s1, r));
  }
}

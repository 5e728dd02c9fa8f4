/** What an answer that wrote nothing is worth when it is told durable at once (`commit.rs`,
    `durable.rs`): exactly when what it reports is there after every crash that may come. */
module Told {
  import opened Wrappers
  import opened Records
  import opened Steps
  import opened Operations
  import opened Writers
  import opened Pipeline
  import opened Once

  /** The Publication of `message` is there whatever crash comes next. */
  ghost predicate PublicationStands(s: System, message: Id) {
    forall kept: nat | Enabled(s, Crash(kept)) :: PublishedAt(message) in Next(s, Crash(kept)).live.db
  }

  ghost predicate ReplayStands(s: System, queue: Id, message: Id) {
    forall kept: nat | Enabled(s, Crash(kept)) :: TakenOut(Next(s, Crash(kept)).live.db, queue, message)
  }

  lemma {:induction false} SurvivingParts(first: seq<Logged>, rest: seq<Logged>)
    ensures Surviving(first + rest) == Surviving(first) + Surviving(rest)
    decreases |rest|
  {
    hide Each;
    if rest == [] {
      assert first + rest == first;
    } else {
      var all, last := first + rest, |rest| - 1;
      assert all[..|all| - 1] == first + rest[..last] && all[|all| - 1] == rest[last];
      SurvivingParts(first, rest[..last]);
    }
  }

  /** The database at one batch's end goes on to the next. */
  lemma DecidedOn(log: seq<Logged>, n: nat, m: nat)
    requires n <= m <= |log|
    ensures Decided(log[..m]) == RunAsked(Decided(log[..n]), Surviving(log[n..m]))
  {
    assert log[..m] == log[..n] + log[n..m];
    SurvivingParts(log[..n], log[n..m]);
    DecidedRuns(log[..m]);
    DecidedRuns(log[..n]);
    RunAskedParts(EMPTY, Surviving(log[..n]), Surviving(log[n..m]));
  }

  lemma RecoversDecided(events: seq<Event>, group: Group, kept: nat)
    requires CanRun(STARTED, events) && Enabled(Run(STARTED, events), NothingWritten(group))
    requires Enabled(Next(Run(STARTED, events), NothingWritten(group)), Crash(kept))
    ensures var s := Run(STARTED, events);
            s.durable <= kept <= |s.log| && Next(Next(s, NothingWritten(group)), Crash(kept)).log == s.log[..kept]
            && Next(Next(s, NothingWritten(group)), Crash(kept)).live == Decided(s.log[..kept])
  {
    RunHolds(STARTED, events);
    StepHolds(Run(STARTED, events), NothingWritten(group));
    StepHolds(Next(Run(STARTED, events), NothingWritten(group)), Crash(kept));
  }

  lemma DurableIn(events: seq<Event>, group: Group)
    requires CanRun(STARTED, events) && Enabled(Run(STARTED, events), NothingWritten(group))
    ensures var s := Run(STARTED, events);
            s.durable <= |s.log| && Enabled(Next(s, NothingWritten(group)), Crash(s.durable))
  {
    RunHolds(STARTED, events);
  }

  /** A Publication asked again is there after every crash where, and only where, its record was
      in what was synced: whatever other batch awaits its sync. */
  lemma PublicationAgainStands(events: seq<Event>, group: Group, message: Id)
    requires CanRun(STARTED, events) && Enabled(Run(STARTED, events), NothingWritten(group))
    ensures var s := Run(STARTED, events);
            s.durable <= |s.log|
            && (PublicationStands(Next(s, NothingWritten(group)), message) <==>
                PublishedAt(message) in Decided(s.log[..s.durable]).db)
  {
    var s := Run(STARTED, events);
    DurableIn(events, group);
    RecoversDecided(events, group, s.durable);
    if PublishedAt(message) in Decided(s.log[..s.durable]).db {
      forall kept: nat | Enabled(Next(s, NothingWritten(group)), Crash(kept))
        ensures PublishedAt(message) in Next(Next(s, NothingWritten(group)), Crash(kept)).live.db
      {
        RecoversDecided(events, group, kept);
        DecidedOn(s.log, s.durable, kept);
        PublishedOnce(Decided(s.log[..s.durable]), Surviving(s.log[s.durable..kept]), message);
      }
    }
  }

  /** So of a Replay asked again: where its entry was remembered taken out in what was synced. */
  lemma ReplayAgainStands(events: seq<Event>, group: Group, queue: Id, message: Id)
    requires CanRun(STARTED, events) && Enabled(Run(STARTED, events), NothingWritten(group))
    ensures var s := Run(STARTED, events);
            s.durable <= |s.log|
            && (ReplayStands(Next(s, NothingWritten(group)), queue, message) <==>
                TakenOut(Decided(s.log[..s.durable]).db, queue, message))
  {
    var s := Run(STARTED, events);
    DurableIn(events, group);
    RecoversDecided(events, group, s.durable);
    if TakenOut(Decided(s.log[..s.durable]).db, queue, message) {
      forall kept: nat | Enabled(Next(s, NothingWritten(group)), Crash(kept))
        ensures TakenOut(Next(Next(s, NothingWritten(group)), Crash(kept)).live.db, queue, message)
      {
        RecoversDecided(events, group, kept);
        DecidedOn(s.log, s.durable, kept);
        ReplayedOnce(Decided(s.log[..s.durable]), Surviving(s.log[s.durable..kept]), queue, message);
      }
    }
  }

  // ---- Answers read from a record that may change again. ----

  /** At some time of a history the record was so: a claim granted, or ended by its hand-on. */
  ghost predicate WasSo(history: seq<Asked>, key: Key, value: Value) {
    exists n: nat :: SoAfter(history, key, value, n)
  }

  ghost predicate SoAfter(history: seq<Asked>, key: Key, value: Value, n: nat) {
    n <= |history| && Read(RunAsked(EMPTY, history[..n]).db, key) == Some(value)
  }

  ghost predicate HistoryStands(s: System, key: Key, value: Value) {
    forall kept: nat | Enabled(s, Crash(kept)) :: WasSo(Surviving(Next(s, Crash(kept)).log), key, value)
  }

  lemma WasSoLonger(history: seq<Asked>, more: seq<Asked>, key: Key, value: Value)
    requires WasSo(history, key, value)
    ensures WasSo(history + more, key, value)
  {
    var n: nat :| SoAfter(history, key, value, n);
    assert (history + more)[..n] == history[..n];
    assert SoAfter(history + more, key, value, n);
  }

  /** A hand-on answered again, or a claim under its own token: that its claim was ended so, or
      granted, is in the history every crash leaves where, and only where, it was by the last
      batch synced; and it is in the history that was answered from. */
  lemma AnswerAgainStands(events: seq<Event>, group: Group, key: Key, value: Value)
    requires CanRun(STARTED, events) && Enabled(Run(STARTED, events), NothingWritten(group))
    requires Read(Run(STARTED, events).live.db, key) == Some(value)
    ensures var s := Run(STARTED, events);
            && s.durable <= |s.log| && WasSo(Surviving(s.log), key, value)
            && (HistoryStands(Next(s, NothingWritten(group)), key, value) <==>
                WasSo(Surviving(s.log[..s.durable]), key, value))
  {
    var s := Run(STARTED, events);
    DurableIn(events, group);
    WasSoNow(events, key, value);
    RecoversDecided(events, group, s.durable);
    hide WasSo, Run, CanRun, Surviving, RunAsked;
    if WasSo(Surviving(s.log[..s.durable]), key, value) {
      forall kept: nat | Enabled(Next(s, NothingWritten(group)), Crash(kept))
        ensures WasSo(Surviving(Next(Next(s, NothingWritten(group)), Crash(kept)).log), key, value)
      {
        RecoversDecided(events, group, kept);
        assert s.log[..kept] == s.log[..s.durable] + s.log[s.durable..kept];
        SurvivingParts(s.log[..s.durable], s.log[s.durable..kept]);
        WasSoLonger(Surviving(s.log[..s.durable]), Surviving(s.log[s.durable..kept]), key, value);
      }
    }
  }

  lemma WasSoNow(events: seq<Event>, key: Key, value: Value)
    requires CanRun(STARTED, events) && Read(Run(STARTED, events).live.db, key) == Some(value)
    ensures WasSo(Surviving(Run(STARTED, events).log), key, value)
  {
    RunHolds(STARTED, events);
    var s := Run(STARTED, events);
    DecidedRuns(s.log);
    var all := Surviving(s.log);
    assert all[..|all|] == all;
    assert SoAfter(all, key, value, |all|);
  }
}

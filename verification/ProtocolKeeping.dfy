/**
 * When something sold offline is lost: exactly when the copy is given up while it holds what the server lacks. It
 * never is as long as finish isn't pressed twice and selling offline doesn't begin while the counter is being set up
 * or removed.
 */
module ProtocolKeeping {
  import opened FallbackProtocol
  import opened OutboxRows
  import opened ProtocolSafety
  import opened Rounding
  import opened ServerTables

  /** What can be asked of the person at the computer, and of the network, one thing at a time. */
  datatype Clause =
    | FinishOnce | StartAfterSetUp | StartAfterRemove
    | EveryAnswer | StartAfterAnswers | StartAfterRefresh | SetUpAfterRefresh | RefreshAfterSetUp

  /** Each is a condition on starting one thing while another waits; and that answers arrive. */
  predicate Meets(c: Clause, s: State, e: Event) {
    match c
    case FinishOnce => e.Finish? ==> s.desk.finishes == {}
    case StartAfterSetUp => e.StartOffline? ==> s.desk.setups == map[]
    case StartAfterRemove => e.StartOffline? ==> s.desk.removals == map[]
    case EveryAnswer => !e.AnswerLost?
    case StartAfterAnswers => e.StartOffline? ==> s.answers == map[]
    case StartAfterRefresh => e.StartOffline? ==> s.desk.refresh.Idle?
    case SetUpAfterRefresh => e.SetUp? ==> s.desk.refresh.Idle?
    case RefreshAfterSetUp => e.AskRefresh? ==> s.desk.setups == map[]
  }

  /** Finish isn't pressed while one waits, nor does selling offline begin while setting up or removing waits. */
  predicate OneAtATime(s: State, e: Event) {
    Meets(FinishOnce, s, e) && Meets(StartAfterSetUp, s, e) && Meets(StartAfterRemove, s, e)
  }

  /** Everything made offline is on the server, or in a copy that is still to be sent. */
  ghost predicate Kept(s: State) {
    forall id :: id in s.made ==> id in s.online.docs || (Pending(s.desk) && s.desk.copy.Some? && id in s.desk.copy.value.docs)
  }

  /** A finish that waits has sent all the copy holds, and nothing is added to it meanwhile. */
  ghost predicate Finishing(s: State) {
    s.desk.finishes != {} ==>
      && s.desk.syncing && Pending(s.desk) && s.desk.copy.Some? && s.desk.setups == map[] && s.desk.removals == map[]
      && forall h :: h in s.desk.finishes ==>
           s.desk.finishes == {h} && h in s.mail
           && s.mail[h].docs == s.desk.copy.value.docs && s.mail[h].last == s.desk.copy.value.last
  }

  ghost predicate Replacing(s: State) {
    && (s.desk.setups != map[] || s.desk.removals != map[] ==> !Pending(s.desk))
    && (s.desk.settings.Some? && s.desk.settings.value.ready ==> s.desk.copy.Some?)
    && (Pending(s.desk) ==> s.desk.copy.Some?)
  }

  /** What the server took, it has. */
  ghost predicate TookAll(s: State) {
    forall h :: h in s.took ==>
      && h in s.mail && (forall id :: id in s.mail[h].docs ==> id in s.online.docs)
      && (forall key :: Last(s.mail[h].last, key) <= Last(s.online.last, key))
  }

  ghost predicate Keeping(s: State) {
    Kept(s) && Finishing(s) && Replacing(s) && TookAll(s)
  }

  // ----- Exactly when something is lost

  /** The copy is given up: sent, or deleted with what the counter was set up with. */
  predicate GivesUp(e: Event) { e.FinishOk? || e.EndSetUp? || e.EndRemove? }

  predicate AllOnServer(s: State) { forall id :: id in s.made ==> id in s.online.docs }

  /** A step that gives the copy up does so only once the server has everything made offline. */
  predicate Spares(s: State, e: Event) { GivesUp(e) ==> AllOnServer(s) }

  /** What the server lacks is in the copy, when nothing was lost before. */
  lemma LacksOnlyCopied(s: State, id: DocId)
    requires Kept(s) && id in s.made && id !in s.online.docs
    ensures Pending(s.desk) && s.desk.copy.Some? && id in s.desk.copy.value.docs
  {
  }

  lemma GivingUp(s: State, e: Event)
    requires Kept(s) && Enabled(s, e) && GivesUp(e)
    ensures Kept(Next(s, e)) <==> AllOnServer(s)
  {
  }

  predicate Online(e: Event) { e.Sell? || e.OtherSells? || e.ServerTakes? }

  lemma OnlineLosesNothing(s: State, e: Event)
    requires Kept(s) && Enabled(s, e) && Online(e)
    ensures Kept(Next(s, e))
  {
    hide Higher, Last, Clashes;
    match e
    case ServerTakes(h) => TakenDocs(s.online, s.mail[h]);
    case _ =>
  }

  lemma OthersLoseNothing(s: State, e: Event)
    requires Kept(s) && Enabled(s, e) && (Active(s.desk) <==> Pending(s.desk)) && !GivesUp(e) && !Online(e)
    ensures Kept(Next(s, e))
  {
    hide Higher, Last, Issue, Taken, Takes;
  }

  /** A step loses something if and only if it gives up a copy that holds what the server lacks, whatever else is going on. */
  lemma LosesExactly(s: State, e: Event)
    requires Kept(s) && Sound(s) && Enabled(s, e)
    ensures Kept(Next(s, e)) <==> Spares(s, e)
  {
    hide Sound, Kept, Next, Enabled, AllOnServer, GivesUp, Online;
    SoundActive(s);
    if GivesUp(e) { GivingUp(s, e); } else if Online(e) { OnlineLosesNothing(s, e); } else { OthersLoseNothing(s, e); }
  }

  ghost predicate KeptThroughout(events: seq<Event>) {
    forall i :: 0 <= i <= |events| && Run(BEGINNING, events[..i]).Some? ==> Kept(Run(BEGINNING, events[..i]).value)
  }

  lemma KeptSoFar(events: seq<Event>, i: nat)
    requires KeptThroughout(events) && i <= |events|
    ensures Run(BEGINNING, events[..i]).Some? ==> Kept(Run(BEGINNING, events[..i]).value)
  {
  }

  lemma OneMore(events: seq<Event>, i: nat)
    requires i < |events| && Run(BEGINNING, events[..i + 1]).Some?
    ensures Run(BEGINNING, events[..i]).Some? && Enabled(Run(BEGINNING, events[..i]).value, events[i])
    ensures Run(BEGINNING, events[..i + 1]) == Some(Next(Run(BEGINNING, events[..i]).value, events[i]))
  {
    hide Next, Enabled;
    assert events[..i + 1][..i] == events[..i];
  }

  lemma {:induction false} BeginningOfRun(events: seq<Event>, i: nat)
    requires Run(BEGINNING, events).Some? && i <= |events|
    ensures Run(BEGINNING, events[..i]).Some?
    decreases |events| - i
  {
    hide Run;
    if i == |events| {
      assert events[..i] == events;
    } else {
      BeginningOfRun(events, i + 1);
      OneMore(events, i);
    }
  }

  lemma {:induction false} SparedSoFar(events: seq<Event>, i: nat)
    requires Run(BEGINNING, events).Some? && Throughout(events, Spares) && i <= |events|
    ensures Run(BEGINNING, events[..i]).Some? && Kept(Run(BEGINNING, events[..i]).value)
  {
    hide Run, Kept, Sound, Next, Enabled, Spares;
    BeginningOfRun(events, i);
    if i == 0 {
      NothingRun(events);
    } else {
      SparedSoFar(events, i - 1);
      OneMore(events, i - 1);
      RunsSound(events[..i - 1]);
      LosesExactly(Run(BEGINNING, events[..i - 1]).value, events[i - 1]);
    }
  }

  lemma NothingRun(events: seq<Event>)
    ensures Run(BEGINNING, events[..0]) == Some(BEGINNING) && Kept(BEGINNING)
  {
  }

  /**
   * Through a whole run everything made offline is on the server or in a copy to be sent, if and only if the copy is
   * never given up while the server lacks something made offline: no other step, whenever it is taken, loses anything.
   */
  lemma KeptExactlyWhen(events: seq<Event>)
    requires Run(BEGINNING, events).Some?
    ensures KeptThroughout(events) <==> Throughout(events, Spares)
  {
    hide Run, Kept, Sound, Next, Enabled, Spares;
    if KeptThroughout(events) {
      forall i | 0 <= i < |events| && Run(BEGINNING, events[..i]).Some? ensures Spares(Run(BEGINNING, events[..i]).value, events[i]) {
        BeginningOfRun(events, i + 1);
        OneMore(events, i);
        RunsSound(events[..i]);
        KeptSoFar(events, i);
        KeptSoFar(events, i + 1);
        LosesExactly(Run(BEGINNING, events[..i]).value, events[i]);
      }
    }
    if Throughout(events, Spares) {
      forall i | 0 <= i <= |events| && Run(BEGINNING, events[..i]).Some? ensures Kept(Run(BEGINNING, events[..i]).value) {
        SparedSoFar(events, i);
      }
    }
  }

  // ----- Each part

  lemma TookKeeps(s: State, e: Event)
    requires TookAll(s) && Enabled(s, e)
    ensures TookAll(Next(s, e))
  {
    match e
    case Sell(id, key) => LastGrows(s.online, id, key);
    case OtherSells(id, key) => LastGrows(s.online, id, key);
    case ServerTakes(h) =>
      if Takes(s.online, s.mail[h]) { TakenGrows(s, h); }
    case _ =>
  }

  lemma LastGrows(o: Online, id: DocId, key: SeqKey)
    ensures forall k :: Last(o.last, k) <= Last(Issue(o, id, key).last, k)
    ensures forall i :: i in o.docs ==> i in Issue(o, id, key).docs
  {
  }

  lemma TakenLast(o: Online, m: Message, key: SeqKey)
    ensures Last(Taken(o, m).last, key) == Max(Last(o.last, key), Last(m.last, key))
  {
  }

  lemma TakenGrows(s: State, h: nat)
    requires TookAll(s) && h in s.mail
    ensures TookAll(s.(online := Taken(s.online, s.mail[h]), took := s.took + {h}))
  {
    hide Taken;
    forall key ensures Last(Taken(s.online, s.mail[h]).last, key) == Max(Last(s.online.last, key), Last(s.mail[h].last, key)) {
      TakenLast(s.online, s.mail[h], key);
    }
    assert forall id :: id in Taken(s.online, s.mail[h]).docs <==> id in s.online.docs || id in s.mail[h].docs by { TakenDocs(s.online, s.mail[h]); }
  }

  lemma TakenDocs(o: Online, m: Message)
    ensures forall id :: id in Taken(o, m).docs <==> id in o.docs || id in m.docs
  {
  }

  lemma FinishingKeeps(s: State, e: Event)
    requires Finishing(s) && Replacing(s) && Sound(s) && Enabled(s, e) && OneAtATime(s, e)
    ensures Finishing(Next(s, e))
  {
    hide Sound, Issue, Taken, Takes, Higher, Last;
    SoundActive(s);
  }

  lemma SoundActive(s: State)
    requires Sound(s)
    ensures Active(s.desk) <==> Pending(s.desk)
    ensures s.online.bound.Here? ==> !s.online.open.OpenThere?
  {
  }

  lemma ReplacingKeeps(s: State, e: Event)
    requires Finishing(s) && Replacing(s) && Sound(s) && Enabled(s, e) && OneAtATime(s, e)
    ensures Replacing(Next(s, e))
  {
    hide Sound, Issue, Taken, Takes, Higher, Last;
    SoundActive(s);
  }

  lemma KeptKeeps(s: State, e: Event)
    requires Keeping(s) && Sound(s) && Enabled(s, e)
    ensures Kept(Next(s, e))
  {
    hide Sound, Higher, Last, Next;
    LosesExactly(s, e);
  }

  lemma NextKeepsAll(s: State, e: Event)
    requires Keeping(s) && Sound(s) && Enabled(s, e) && OneAtATime(s, e)
    ensures Keeping(Next(s, e)) && Sound(Next(s, e))
  {
    hide Kept, Finishing, Replacing, TookAll, Sound, Next, Enabled, OneAtATime;
    TookKeeps(s, e);
    FinishingKeeps(s, e);
    ReplacingKeeps(s, e);
    KeptKeeps(s, e);
    NextKeeps(s, e);
  }

  // ----- Whole runs

  /** A run each of whose steps meets a condition on the state it is taken in. */
  ghost predicate Throughout(events: seq<Event>, holds: (State, Event) -> bool) {
    forall i :: 0 <= i < |events| && Run(BEGINNING, events[..i]).Some? ==> holds(Run(BEGINNING, events[..i]).value, events[i])
  }

  lemma ThroughoutBefore(events: seq<Event>, holds: (State, Event) -> bool)
    requires Throughout(events, holds) && events != []
    ensures Throughout(events[..|events| - 1], holds)
    ensures Run(BEGINNING, events[..|events| - 1]).Some? ==> holds(Run(BEGINNING, events[..|events| - 1]).value, events[|events| - 1])
  {
    hide Run;
    var before := events[..|events| - 1];
    forall i | 0 <= i < |before| && Run(BEGINNING, before[..i]).Some? ensures holds(Run(BEGINNING, before[..i]).value, before[i]) {
      assert before[..i] == events[..i];
    }
  }

  lemma {:induction false} RunsKeep(events: seq<Event>)
    requires Run(BEGINNING, events).Some? && Throughout(events, OneAtATime)
    ensures Keeping(Run(BEGINNING, events).value) && Sound(Run(BEGINNING, events).value)
  {
    hide Keeping, Sound, Next, Enabled, OneAtATime, Throughout;
    if events == [] {
      BeginningSound();
      BeginningKeeps();
    } else {
      ThroughoutBefore(events, OneAtATime);
      RunsKeep(events[..|events| - 1]);
      NextKeepsAll(Run(BEGINNING, events[..|events| - 1]).value, events[|events| - 1]);
    }
  }

  lemma BeginningKeeps()
    ensures Keeping(BEGINNING)
  {
  }

  /**
   * With finish pressed once at a time, and selling offline not begun while setting up or removing, every document made offline is on the server or in a copy with a sync
   * pending: through syncs refused, taken with the answer lost, taken late, and copies refreshed, set up
   * anew or removed.
   */
  lemma NothingLost(events: seq<Event>, id: DocId)
    requires Run(BEGINNING, events).Some? && Throughout(events, OneAtATime)
    ensures var s := Run(BEGINNING, events).value;
            id in s.made ==> id in s.online.docs || (Pending(s.desk) && s.desk.copy.Some? && id in s.desk.copy.value.docs)
  {
    hide Throughout, Sound, Finishing, Replacing, TookAll, Run;
    RunsKeep(events);
  }
}

/**
 * Runs that show why each condition is needed: what goes wrong in the code as it is when a button is
 * pressed at the wrong moment, or an answer doesn't come.
 */
module ProtocolRuns {
  import opened FallbackProtocol
  import opened OutboxRows
  import opened ProtocolKeeping
  import opened ProtocolNumbers
  import opened ServerTables

  const KEY := SeqKey(InvoiceKind, "MAI/1", 2026)
  const FIRST := DocId(InvoiceKind, 1)
  const SECOND := DocId(InvoiceKind, 2)

  const NO_DOCS: Docs := map[]
  const NO_COUNTS: Counts := map[]

  /** Everything asked but one thing. */
  predicate MeetsAllBut(but: Clause, s: State, e: Event) {
    && (but != FinishOnce ==> Meets(FinishOnce, s, e)) && (but != StartAfterSetUp ==> Meets(StartAfterSetUp, s, e))
    && (but != StartAfterRemove ==> Meets(StartAfterRemove, s, e)) && (but != EveryAnswer ==> Meets(EveryAnswer, s, e))
    && (but != StartAfterAnswers ==> Meets(StartAfterAnswers, s, e)) && (but != StartAfterRefresh ==> Meets(StartAfterRefresh, s, e))
    && (but != SetUpAfterRefresh ==> Meets(SetUpAfterRefresh, s, e)) && (but != RefreshAfterSetUp ==> Meets(RefreshAfterSetUp, s, e))
  }

  /** A careful run is one that meets each of the things asked. */
  lemma CarefulMeets(s: State, e: Event)
    ensures Careful(s, e) <==> forall but: Clause :: Meets(but, s, e)
    ensures forall but: Clause :: Careful(s, e) <==> MeetsAllBut(but, s, e) && Meets(but, s, e)
  {
    hide Meets;
    forall but: Clause | Careful(s, e) ensures Meets(but, s, e) {
      match but
      case FinishOnce => case StartAfterSetUp => case StartAfterRemove => case EveryAnswer =>
      case StartAfterAnswers => case StartAfterRefresh => case SetUpAfterRefresh => case RefreshAfterSetUp =>
    }
  }

  ghost function AllBut(but: Clause): (State, Event) -> bool { (s: State, e: Event) => MeetsAllBut(but, s, e) }

  /** A state that a run gets to which meets everything asked but one thing. */
  ghost predicate Reached(but: Clause, s: State) { exists events :: IsRun(but, events, s) }

  ghost predicate IsRun(but: Clause, events: seq<Event>, s: State) {
    Run(BEGINNING, events) == Some(s) && Throughout(events, AllBut(but))
  }

  lemma ReachNext(but: Clause, s: State, e: Event)
    requires Reached(but, s) && Enabled(s, e) && MeetsAllBut(but, s, e)
    ensures Reached(but, Next(s, e))
  {
    hide Enabled, Next, MeetsAllBut, Run;
    var events :| IsRun(but, events, s);
    RunOneMore(BEGINNING, events, e);
    var more := events + [e];
    forall i | 0 <= i < |more| && Run(BEGINNING, more[..i]).Some? ensures AllBut(but)(Run(BEGINNING, more[..i]).value, more[i]) {
      if i < |events| {
        assert more[..i] == events[..i] && more[i] == events[i];
      } else {
        assert more[..i] == events;
      }
    }
    assert IsRun(but, more, Next(s, e));
  }

  lemma ReachStart(but: Clause)
    ensures Reached(but, BEGINNING)
  {
    assert IsRun(but, [], BEGINNING);
  }

  // ----- One step at a time

  lemma DoSetUp(but: Clause, s: State, h: nat)
    requires Reached(but, s) && !Pending(s.desk) && h !in s.desk.setups && (but == SetUpAfterRefresh || s.desk.refresh.Idle?)
    ensures Reached(but, s.(desk := s.desk.(setups := s.desk.setups[h := None])))
  {
    hide Reached;
    ReachNext(but, s, SetUp(h));
  }

  lemma DoDesignate(but: Clause, s: State, h: nat)
    requires Reached(but, s) && h in s.desk.setups && s.desk.setups[h].None? && s.online.open.Closed?
    ensures Reached(but, s.(online := s.online.(bound := Here(s.online.nextKey), nextKey := s.online.nextKey + 1),
                      desk := s.desk.(setups := s.desk.setups[h := Some(s.online.nextKey)])))
  {
    hide Reached;
    ReachNext(but, s, Designate(h));
  }

  lemma DoEndSetUp(but: Clause, s: State, h: nat)
    requires Reached(but, s) && h in s.desk.setups && s.desk.setups[h].Some?
    ensures Reached(but, s.(desk := CommitSetUp(s.desk, h)))
  {
    hide Reached;
    ReachNext(but, s, EndSetUp(h));
  }

  lemma DoAskRefresh(but: Clause, s: State)
    requires Reached(but, s) && MayRefresh(s.desk) && (but == RefreshAfterSetUp || s.desk.setups == map[])
    ensures Reached(but, s.(desk := s.desk.(refresh := Asked(s.desk.settings.value.key))))
  {
    hide Reached;
    ReachNext(but, s, AskRefresh);
  }

  lemma DoTakeSnapshot(but: Clause, s: State)
    requires Reached(but, s) && s.desk.refresh.Asked? && s.online.bound == Here(s.desk.refresh.key)
    ensures Reached(but, s.(desk := s.desk.(refresh := Got(s.desk.refresh.key, s.online.last))))
  {
    hide Reached;
    ReachNext(but, s, TakeSnapshot);
  }

  lemma DoEndRefresh(but: Clause, s: State)
    requires Reached(but, s) && s.desk.refresh.Got?
    ensures Reached(but, s.(desk := CommitRefresh(s.desk)))
  {
    hide Reached;
    ReachNext(but, s, EndRefresh);
  }

  lemma DoStartOffline(but: Clause, s: State)
    requires Reached(but, s) && MayStart(s.desk) && MeetsAllBut(but, s, StartOffline)
    ensures Reached(but, s.(desk := Start(s.desk)))
  {
    hide Reached;
    ReachNext(but, s, StartOffline);
  }

  lemma DoOfflineSale(but: Clause, s: State, id: DocId, key: SeqKey)
    requires Reached(but, s) && MaySellOffline(s.desk) && Unused(s, id)
    ensures Reached(but, s.(desk := SellOffline(s.desk, id, key), made := s.made[id := SellOffline(s.desk, id, key).copy.value.docs[id]]))
  {
    hide Reached;
    ReachNext(but, s, OfflineSale(id, key));
  }

  lemma DoFinish(but: Clause, s: State, h: nat)
    requires Reached(but, s) && Active(s.desk) && s.desk.copy.Some? && h !in s.mail && (but == FinishOnce || s.desk.finishes == {})
    ensures Reached(but, s.(desk := BeginFinish(s.desk, h), mail := s.mail[h := ToSend(s.desk)]))
  {
    hide Reached;
    ReachNext(but, s, Finish(h));
  }

  lemma DoServerTakes(but: Clause, s: State, h: nat)
    requires Reached(but, s) && h in s.mail && Takes(s.online, s.mail[h])
    ensures Reached(but, s.(online := Taken(s.online, s.mail[h]), took := s.took + {h}))
  {
    hide Reached;
    ReachNext(but, s, ServerTakes(h));
  }

  lemma DoFinishOk(but: Clause, s: State, h: nat)
    requires Reached(but, s) && h in s.desk.finishes && h in s.took
    ensures Reached(but, s.(desk := Finished(s.desk, h)))
  {
    hide Reached;
    ReachNext(but, s, FinishOk(h));
  }

  lemma DoFinishFails(but: Clause, s: State, h: nat)
    requires Reached(but, s) && h in s.desk.finishes
    ensures Reached(but, s.(desk := FinishFailed(s.desk, h)))
  {
    hide Reached;
    ReachNext(but, s, FinishFails(h));
  }

  lemma DoRemove(but: Clause, s: State, h: nat)
    requires Reached(but, s) && s.desk.settings.Some? && !Pending(s.desk) && h !in s.desk.removals
    ensures Reached(but, s.(desk := s.desk.(removals := s.desk.removals[h := false])))
  {
    hide Reached;
    ReachNext(but, s, Remove(h));
  }

  lemma DoRelease(but: Clause, s: State, h: nat)
    requires Reached(but, s) && h in s.desk.removals
    ensures Reached(but, s.(online := s.online.(bound := Nobody), desk := s.desk.(removals := s.desk.removals[h := true])))
  {
    hide Reached;
    ReachNext(but, s, Release(h));
  }

  lemma DoEndRemove(but: Clause, s: State, h: nat)
    requires Reached(but, s) && h in s.desk.removals && s.desk.removals[h]
    ensures Reached(but, s.(desk := CommitRemove(s.desk, h)))
  {
    hide Reached;
    ReachNext(but, s, EndRemove(h));
  }

  lemma DoOpen(but: Clause, s: State)
    requires Reached(but, s) && s.online.open.Closed? && !s.online.bound.Elsewhere?
    ensures Reached(but, s.(online := s.online.(open := OpenHere)))
  {
    hide Reached;
    ReachNext(but, s, OpenRegister);
  }

  lemma DoSell(but: Clause, s: State, id: DocId, key: SeqKey)
    requires Reached(but, s) && s.online.open.OpenHere? && ApiTarget(s.desk).TheServer? && Unused(s, id)
    ensures var sold := Issue(s.online, id, key); Reached(but, s.(online := sold, answers := s.answers[id := sold.docs[id]]))
  {
    hide Reached, Issue;
    ReachNext(but, s, Sell(id, key));
  }

  /** The counter is released, and opened on another computer. */
  lemma DoGoElsewhere(but: Clause, s: State)
    requires Reached(but, s) && s.online.open.Closed?
    ensures Reached(but, s.(online := s.online.(bound := Nobody, open := OpenThere)))
  {
    hide Reached;
    ReachNext(but, s, OtherReleases);
    ReachNext(but, s.(online := s.online.(bound := Nobody)), OtherOpens);
  }

  /** It sells there, and is closed. */
  lemma DoSellElsewhere(but: Clause, s: State, id: DocId, key: SeqKey)
    requires Reached(but, s) && s.online.open.OpenThere? && Unused(s, id)
    ensures Reached(but, s.(online := Issue(s.online, id, key).(open := Closed)))
  {
    hide Reached, Issue;
    ReachNext(but, s, OtherSells(id, key));
    IssueOpen(s.online, id, key);
    ReachNext(but, s.(online := Issue(s.online, id, key)), OtherCloses);
  }

  lemma IssueOpen(o: Online, id: DocId, key: SeqKey)
    ensures Issue(o, id, key).open == o.open
  {
  }

  /** A desk with nothing waiting. */
  function Resting(settings: Settings, copy: Copy, refresh: Refresh): (r: Desk) {
    Desk(Some(settings), Some(copy), false, refresh, {}, map[], map[])
  }

  function ServerWith(docs: Docs, last: Counts, open: Open): (r: Online) { Online(docs, last, Here(1), open, 2) }

  const SET_UP := Settings(1, true, false, false, NO_COUNTS)
  const EMPTY_COPY := Copy(NO_DOCS, NO_COUNTS)

  /** Set up and refreshed: ready, with nothing sold yet. */
  const READY := State(ServerWith(NO_DOCS, NO_COUNTS, Closed), Resting(SET_UP, EMPTY_COPY, Idle), NO_DOCS, map[], {}, NO_DOCS)

  lemma ReadyReached(but: Clause)
    ensures Reached(but, READY)
  {
    hide Reached, Next, Enabled;
    ReachStart(but);
    DoSetUp(but, BEGINNING, 0);
    var s1 := BEGINNING.(desk := NEW_DESK.(setups := map[0 := None]));
    assert NEW_DESK.setups[0 := None] == s1.desk.setups;
    DoDesignate(but, s1, 0);
    var s2 := s1.(online := s1.online.(bound := Here(1), nextKey := 2), desk := NEW_DESK.(setups := map[0 := Some(1)]));
    assert s1.desk.setups[0 := Some(1)] == s2.desk.setups;
    DoEndSetUp(but, s2, 0);
    assert s2.desk.setups - {0} == map[];
    RefreshFrom(but, State(ServerWith(NO_DOCS, NO_COUNTS, Closed),
      Desk(Some(Settings(1, false, false, false, NO_COUNTS)), None, false, Idle, {}, map[], map[]), NO_DOCS, map[], {}, NO_DOCS));
  }

  lemma RefreshFrom(but: Clause, s: State)
    requires Reached(but, s) && s.online == ServerWith(NO_DOCS, NO_COUNTS, Closed)
    requires s.desk == Desk(Some(Settings(1, false, false, false, NO_COUNTS)), None, false, Idle, {}, map[], map[])
    ensures Reached(but, s.(desk := Resting(SET_UP, EMPTY_COPY, Idle)))
  {
    hide Reached, Next, Enabled;
    DoAskRefresh(but, s);
    var asked := s.(desk := s.desk.(refresh := Asked(1)));
    DoTakeSnapshot(but, asked);
    DoEndRefresh(but, asked.(desk := asked.desk.(refresh := Got(1, NO_COUNTS))));
  }

  /** Selling offline on a copy that has sold nothing yet. */
  const SOLD_ONE := Copy(map[FIRST := Number(KEY, 1)], map[KEY := 1])
  const SELLING := Settings(1, true, true, true, NO_COUNTS)

  lemma Started(d: Desk, refresh: Refresh)
    requires d == Resting(SET_UP, EMPTY_COPY, refresh)
    ensures Start(d) == Resting(SELLING, EMPTY_COPY, refresh)
  {
    assert Higher(NO_COUNTS, NO_COUNTS) == NO_COUNTS;
  }

  lemma SoldFirst(d: Desk, refresh: Refresh)
    requires d == Resting(SELLING, EMPTY_COPY, refresh)
    ensures SellOffline(d, FIRST, KEY) == Resting(SELLING, SOLD_ONE, refresh)
  {
    assert NO_DOCS[FIRST := Number(KEY, 1)] == SOLD_ONE.docs;
    assert NO_COUNTS[KEY := 1] == SOLD_ONE.last;
  }

  lemma SellFirst(but: Clause, refresh: Refresh)
    requires but == StartAfterRefresh || refresh.Idle?
    requires Reached(but, READY.(desk := Resting(SET_UP, EMPTY_COPY, refresh)))
    ensures Reached(but, READY.(desk := Resting(SELLING, SOLD_ONE, refresh), made := SOLD_ONE.docs))
  {
    hide Reached, Next, Enabled, Start, SellOffline;
    var s := READY.(desk := Resting(SET_UP, EMPTY_COPY, refresh));
    Started(s.desk, refresh);
    DoStartOffline(but, s);
    var started := READY.(desk := Resting(SELLING, EMPTY_COPY, refresh));
    SoldFirst(started.desk, refresh);
    DoOfflineSale(but, started, FIRST, KEY);
    assert NO_DOCS[FIRST := Number(KEY, 1)] == SOLD_ONE.docs;
  }

  // ----- A refresh under way when selling offline begins

  const FIRST_MESSAGE := Message(1, SOLD_ONE.docs, SOLD_ONE.last)
  const AFTER_FIRST := ServerWith(SOLD_ONE.docs, SOLD_ONE.last, Closed)

  lemma FirstTaken(o: Online)
    requires o == ServerWith(NO_DOCS, NO_COUNTS, Closed)
    ensures Takes(o, FIRST_MESSAGE) && Taken(o, FIRST_MESSAGE) == AFTER_FIRST
  {
    assert Higher(NO_COUNTS, SOLD_ONE.last) == SOLD_ONE.last;
    assert SOLD_ONE.docs + NO_DOCS == SOLD_ONE.docs;
  }

  /** The first offline sale sent, taken and answered, a refresh having been under way all along. */
  lemma SendFirst(but: Clause, refresh: Refresh)
    requires Reached(but, READY.(desk := Resting(SELLING, SOLD_ONE, refresh), made := SOLD_ONE.docs))
    ensures Reached(but, State(AFTER_FIRST, Resting(SET_UP, SOLD_ONE, refresh), NO_DOCS, map[5 := FIRST_MESSAGE], {5}, SOLD_ONE.docs))
  {
    hide Reached, Next, Enabled, Takes, Taken;
    var s := READY.(desk := Resting(SELLING, SOLD_ONE, refresh), made := SOLD_ONE.docs);
    DoFinish(but, s, 5);
    var sent := s.(desk := s.desk.(syncing := true, finishes := {5}), mail := map[5 := FIRST_MESSAGE]);
    assert s.desk.finishes + {5} == {5} && s.mail[5 := FIRST_MESSAGE] == sent.mail;
    FirstTaken(sent.online);
    DoServerTakes(but, sent, 5);
    var took := sent.(online := AFTER_FIRST, took := {5});
    assert sent.took + {5} == {5};
    DoFinishOk(but, took, 5);
    assert took.desk.finishes - {5} == {};
  }

  /** The snapshot was taken before the offline sale, and is loaded after it was sent. */
  lemma SentWithOldSnapshot(but: Clause)
    requires but == StartAfterRefresh
    ensures Reached(but, State(AFTER_FIRST, Resting(SET_UP, EMPTY_COPY, Idle), NO_DOCS, map[5 := FIRST_MESSAGE], {5}, SOLD_ONE.docs))
  {
    hide Reached, Next, Enabled;
    ReadyReached(but);
    DoAskRefresh(but, READY);
    DoTakeSnapshot(but, READY.(desk := Resting(SET_UP, EMPTY_COPY, Asked(1))));
    SellFirst(but, Got(1, NO_COUNTS));
    SendFirst(but, Got(1, NO_COUNTS));
    DoEndRefresh(but, State(AFTER_FIRST, Resting(SET_UP, SOLD_ONE, Got(1, NO_COUNTS)), NO_DOCS, map[5 := FIRST_MESSAGE], {5}, SOLD_ONE.docs));
  }

  /** A copy that has sold nothing sells the second document under the number the server gave the first. */
  lemma SoldSecond(d: Desk)
    requires d == Resting(SELLING, EMPTY_COPY, Idle)
    ensures SellOffline(d, SECOND, KEY) == Resting(SELLING, Copy(map[SECOND := Number(KEY, 1)], map[KEY := 1]), Idle)
  {
    assert NO_DOCS[SECOND := Number(KEY, 1)] == map[SECOND := Number(KEY, 1)];
    assert NO_COUNTS[KEY := 1] == map[KEY := 1];
  }

  ghost predicate RefusedForNumber(s: State, h: nat) {
    h in s.mail && SECOND in s.mail[h].docs && FIRST in s.online.docs
    && s.mail[h].docs[SECOND] == s.online.docs[FIRST] && !Takes(s.online, s.mail[h])
  }

  /** From an empty copy while the server has the first number, the next offline sale's sync is refused. */
  lemma SecondClashes(but: Clause, s: State)
    requires Reached(but, s) && s.online.docs == SOLD_ONE.docs && s.desk == Resting(SELLING, EMPTY_COPY, Idle) && s.online.bound == Here(1)
    requires SECOND !in s.made && 6 !in s.mail
    ensures exists t :: Reached(but, t) && RefusedForNumber(t, 6) && !Fits(t) && t.made == s.made[SECOND := Number(KEY, 1)]
  {
    hide Reached, Next, Enabled, SellOffline, Takes;
    SoldSecond(s.desk);
    DoOfflineSale(but, s, SECOND, KEY);
    var copy := Copy(map[SECOND := Number(KEY, 1)], map[KEY := 1]);
    var sold := s.(desk := Resting(SELLING, copy, Idle), made := s.made[SECOND := Number(KEY, 1)]);
    DoFinish(but, sold, 6);
    var sent := sold.(desk := BeginFinish(sold.desk, 6), mail := sold.mail[6 := ToSend(sold.desk)]);
    assert sent.mail[6] == Message(1, copy.docs, copy.last);
    ClashOfSecond(sent.online, sent.mail[6]);
    assert !Takes(sent.online, sent.mail[6]) by { Refuses(sent.online, sent.mail[6]); }
    assert RefusedForNumber(sent, 6) && !Fits(sent);
  }

  lemma Refuses(o: Online, m: Message)
    requires Clashes(o, m)
    ensures !Takes(o, m)
  {
  }

  lemma ClashOfSecond(o: Online, m: Message)
    requires o.docs == SOLD_ONE.docs && m.docs == map[SECOND := Number(KEY, 1)]
    ensures Clashes(o, m)
  {
    assert SECOND in m.docs && FIRST in o.docs && FIRST !in m.docs && o.docs[FIRST] == m.docs[SECOND];
  }

  /**
   * Selling offline begun while a refresh was under way: once the sales are sent, the older snapshot is
   * loaded over the copy, the next offline sale takes a number already used, and its sync is refused.
   */
  lemma StartDuringRefreshClashes()
    ensures exists s :: Reached(StartAfterRefresh, s) && RefusedForNumber(s, 6) && !Fits(s)
              && FIRST in s.made && SECOND in s.made && s.made[FIRST] == s.made[SECOND]
  {
    hide Reached, Next, Enabled, Start, RefusedForNumber, Fits;
    var but := StartAfterRefresh;
    SentWithOldSnapshot(but);
    var s := State(AFTER_FIRST, Resting(SET_UP, EMPTY_COPY, Idle), NO_DOCS, map[5 := FIRST_MESSAGE], {5}, SOLD_ONE.docs);
    Started(s.desk, Idle);
    DoStartOffline(but, s);
    SecondClashes(but, s.(desk := Resting(SELLING, EMPTY_COPY, Idle)));
  }

  // ----- Two finishes at once

  /** Finish pressed twice, and the first one failed: requests go through while the second waits. */
  lemma FinishedTwice(but: Clause)
    requires but == FinishOnce
    ensures Reached(but, State(ServerWith(NO_DOCS, NO_COUNTS, Closed), Resting(SELLING, SOLD_ONE, Idle).(finishes := {6}),
              NO_DOCS, map[5 := FIRST_MESSAGE, 6 := FIRST_MESSAGE], {}, SOLD_ONE.docs))
  {
    hide Reached, Next, Enabled;
    ReadyReached(but);
    SellFirst(but, Idle);
    var s := READY.(desk := Resting(SELLING, SOLD_ONE, Idle), made := SOLD_ONE.docs);
    DoFinish(but, s, 5);
    var one := s.(desk := s.desk.(syncing := true, finishes := {5}), mail := map[5 := FIRST_MESSAGE]);
    assert s.desk.finishes + {5} == {5} && s.mail[5 := FIRST_MESSAGE] == one.mail;
    DoFinish(but, one, 6);
    var two := one.(desk := s.desk.(syncing := true, finishes := {5, 6}), mail := map[5 := FIRST_MESSAGE, 6 := FIRST_MESSAGE]);
    assert one.desk.finishes + {6} == {5, 6} && one.mail[6 := FIRST_MESSAGE] == two.mail;
    DoFinishFails(but, two, 5);
    assert two.desk.finishes - {5} == {6};
  }

  /**
   * Finish pressed again while one waits: the first fails and requests go through again, a sale is made,
   * and the second, which had read the sales before it, is taken: the sale is nowhere to be sent from.
   */
  lemma FinishTwiceLoses()
    ensures exists s :: Reached(FinishOnce, s) && SECOND in s.made && SECOND !in s.online.docs && !Kept(s) && !Level(s)
  {
    hide Reached, Next, Enabled, Takes, Taken, SellOffline;
    var but := FinishOnce;
    FinishedTwice(but);
    var s := State(ServerWith(NO_DOCS, NO_COUNTS, Closed), Resting(SELLING, SOLD_ONE, Idle).(finishes := {6}),
      NO_DOCS, map[5 := FIRST_MESSAGE, 6 := FIRST_MESSAGE], {}, SOLD_ONE.docs);
    SoldNext(s.desk);
    DoOfflineSale(but, s, SECOND, KEY);
    var sold := s.(desk := SellOffline(s.desk, SECOND, KEY), made := s.made[SECOND := SellOffline(s.desk, SECOND, KEY).copy.value.docs[SECOND]]);
    FirstTaken(sold.online);
    DoServerTakes(but, sold, 6);
    var took := sold.(online := AFTER_FIRST, took := sold.took + {6});
    DoFinishOk(but, took, 6);
    var done := took.(desk := Finished(took.desk, 6));
    assert SECOND in done.made && SECOND !in done.online.docs && !Pending(done.desk);
    assert Last(done.desk.copy.value.last, KEY) == 2 && Last(done.online.last, KEY) == 1;
    assert Ours(done) && !Level(done) && !Kept(done);
  }

  lemma SoldNext(d: Desk)
    requires d.copy == Some(SOLD_ONE)
    ensures var r := SellOffline(d, SECOND, KEY);
            r.copy.Some? && SECOND in r.copy.value.docs && Last(r.copy.value.last, KEY) == 2 && r.finishes == d.finishes && r.settings == d.settings
  {
  }

  // ----- Setting up or removing while selling offline begins

  /** Selling offline begins and a sale is made while setting up or removing waits. */
  lemma SoldWhileWaiting(but: Clause, s: State)
    requires Reached(but, s) && s.online == ServerWith(NO_DOCS, NO_COUNTS, Closed) && s.made == NO_DOCS && s.answers == NO_DOCS
    requires s.desk == Resting(SET_UP, EMPTY_COPY, Idle).(setups := s.desk.setups, removals := s.desk.removals)
    requires (s.desk.setups == map[] || but == StartAfterSetUp) && (s.desk.removals == map[] || but == StartAfterRemove)
    ensures Reached(but, s.(desk := Resting(SELLING, SOLD_ONE, Idle).(setups := s.desk.setups, removals := s.desk.removals), made := SOLD_ONE.docs))
  {
    hide Reached, Next, Enabled;
    DoStartOffline(but, s);
    var started := s.(desk := Start(s.desk));
    assert Higher(NO_COUNTS, NO_COUNTS) == NO_COUNTS;
    assert NO_DOCS[FIRST := Number(KEY, 1)] == SOLD_ONE.docs && NO_COUNTS[KEY := 1] == SOLD_ONE.last;
    DoOfflineSale(but, started, FIRST, KEY);
    assert SellOffline(started.desk, FIRST, KEY).copy == Some(SOLD_ONE);
  }

  /** What selling online gives next after an offline sale was lost. */
  lemma NumberAgain(but: Clause, s: State)
    requires Reached(but, s) && s.online.docs == NO_DOCS && s.online.last == NO_COUNTS && s.online.open.Closed? && s.made == SOLD_ONE.docs
    requires s.online.bound.Here? && s.desk.settings == Some(Settings(s.online.bound.key, false, false, false, NO_COUNTS)) && !s.desk.syncing
    ensures exists t :: Reached(but, t) && !Once(t) && FIRST in t.made && FIRST !in t.online.docs
  {
    hide Reached;
    DoOpen(but, s);
    var open := s.(online := s.online.(open := OpenHere));
    DoSell(but, open, SECOND, KEY);
    var sold := open.(online := Issue(open.online, SECOND, KEY), answers := open.answers[SECOND := Number(KEY, 1)]);
    assert sold.online.docs[SECOND] == Number(KEY, 1) == sold.made[FIRST];
    assert Ours(sold) && !Once(sold);
  }

  /** Set up pressed, and selling offline begun before the server answers: setting up then deletes the copy with the sale. */
  lemma StartDuringSetUpLoses()
    ensures exists s :: Reached(StartAfterSetUp, s) && FIRST in s.made && FIRST !in s.online.docs && s.desk.copy.None? && !Kept(s)
    ensures exists t :: Reached(StartAfterSetUp, t) && !Once(t) && FIRST in t.made && FIRST !in t.online.docs
  {
    hide Reached, Next, Enabled, Once;
    var but := StartAfterSetUp;
    ReadyReached(but);
    DoSetUp(but, READY, 7);
    var asked := READY.(desk := READY.desk.(setups := map[7 := None]));
    assert READY.desk.setups[7 := None] == asked.desk.setups;
    SoldWhileWaiting(but, asked);
    var sold := asked.(desk := Resting(SELLING, SOLD_ONE, Idle).(setups := map[7 := None]), made := SOLD_ONE.docs);
    DoDesignate(but, sold, 7);
    var bound := sold.(online := sold.online.(bound := Here(2), nextKey := 3), desk := sold.desk.(setups := sold.desk.setups[7 := Some(2)]));
    DoEndSetUp(but, bound, 7);
    var done := bound.(desk := CommitSetUp(bound.desk, 7));
    assert FIRST in done.made && FIRST !in done.online.docs && done.desk.copy.None? && !Kept(done);
    NumberAgain(but, done);
  }

  /** So does removing; and set up again, the counter gives the lost sale's number to another. */
  lemma StartDuringRemoveLoses()
    ensures exists s :: Reached(StartAfterRemove, s) && FIRST in s.made && FIRST !in s.online.docs && s.desk.copy.None? && !Kept(s)
    ensures exists t :: Reached(StartAfterRemove, t) && !Once(t) && FIRST in t.made && FIRST !in t.online.docs
  {
    hide Reached, Next, Enabled, Once;
    var but := StartAfterRemove;
    ReadyReached(but);
    DoRemove(but, READY, 7);
    var asked := READY.(desk := READY.desk.(removals := map[7 := false]));
    assert READY.desk.removals[7 := false] == asked.desk.removals;
    SoldWhileWaiting(but, asked);
    var sold := asked.(desk := Resting(SELLING, SOLD_ONE, Idle).(removals := map[7 := false]), made := SOLD_ONE.docs);
    DoRelease(but, sold, 7);
    var released := sold.(online := sold.online.(bound := Nobody), desk := sold.desk.(removals := sold.desk.removals[7 := true]));
    DoEndRemove(but, released, 7);
    var done := released.(desk := CommitRemove(released.desk, 7));
    assert FIRST in done.made && FIRST !in done.online.docs && done.desk.copy.None? && !Kept(done);
    DoSetUp(but, done, 8);
    var anew := done.(desk := done.desk.(setups := done.desk.setups[8 := None]));
    DoDesignate(but, anew, 8);
    var bound := anew.(online := anew.online.(bound := Here(2), nextKey := 3), desk := anew.desk.(setups := anew.desk.setups[8 := Some(2)]));
    DoEndSetUp(but, bound, 8);
    NumberAgain(but, bound.(desk := CommitSetUp(bound.desk, 8)));
  }

  // ----- An answer that doesn't come, or comes too late

  const ONLINE_FIRST := State(ServerWith(SOLD_ONE.docs, SOLD_ONE.last, OpenHere), Resting(SET_UP, EMPTY_COPY, Idle), SOLD_ONE.docs, map[], {}, NO_DOCS)

  lemma SoldOnline(but: Clause)
    ensures Reached(but, ONLINE_FIRST)
  {
    hide Reached;
    ReadyReached(but);
    DoOpen(but, READY);
    DoSell(but, READY.(online := READY.online.(open := OpenHere)), FIRST, KEY);
    assert NO_DOCS[FIRST := Number(KEY, 1)] == SOLD_ONE.docs && NO_COUNTS[KEY := 1] == SOLD_ONE.last;
  }

  /** An online sale whose answer is lost is not noted: the first offline sale takes its number, and the sync is refused. */
  lemma LostAnswerIsRefused()
    ensures exists t :: Reached(EveryAnswer, t) && RefusedForNumber(t, 6) && !Fits(t)
  {
    hide Reached, RefusedForNumber, Start, Fits;
    var but := EveryAnswer;
    SoldOnline(but);
    ReachNext(but, ONLINE_FIRST, AnswerLost(FIRST));
    var lost := ONLINE_FIRST.(answers := ONLINE_FIRST.answers - {FIRST});
    assert lost.answers == map[];
    Started(lost.desk, Idle);
    DoStartOffline(but, lost);
    SecondClashes(but, lost.(desk := Resting(SELLING, EMPTY_COPY, Idle)));
  }

  /** Nor is one whose answer comes after selling offline began. */
  lemma LateAnswerIsRefused()
    ensures exists t :: Reached(StartAfterAnswers, t) && RefusedForNumber(t, 6) && !Fits(t)
  {
    hide Reached, RefusedForNumber, Start, Fits;
    var but := StartAfterAnswers;
    SoldOnline(but);
    Started(ONLINE_FIRST.desk, Idle);
    DoStartOffline(but, ONLINE_FIRST);
    var started := ONLINE_FIRST.(desk := Resting(SELLING, EMPTY_COPY, Idle));
    ReachNext(but, started, AnswerArrives(FIRST));
    SecondClashes(but, started.(answers := started.answers - {FIRST}));
  }

  // ----- A refresh under way when the counter is set up anew

  /** The counter released, sold on elsewhere and closed again, this computer knowing nothing of it. */
  lemma SoldElsewhere(but: Clause, s: State)
    requires Reached(but, s) && s.online == ServerWith(NO_DOCS, NO_COUNTS, Closed) && s.made == NO_DOCS
    ensures Reached(but, s.(online := Online(SOLD_ONE.docs, SOLD_ONE.last, Nobody, Closed, 2)))
  {
    hide Reached;
    DoGoElsewhere(but, s);
    DoSellElsewhere(but, s.(online := s.online.(bound := Nobody, open := OpenThere)), FIRST, KEY);
    assert NO_DOCS[FIRST := Number(KEY, 1)] == SOLD_ONE.docs && NO_COUNTS[KEY := 1] == SOLD_ONE.last;
  }

  /** Set up with a snapshot on its way from before the counter was sold on elsewhere: it is loaded as if it were new. */
  lemma SetUpIsStale(but: Clause, s: State)
    requires Reached(but, s) && s.online == Online(SOLD_ONE.docs, SOLD_ONE.last, Nobody, Closed, 2) && s.answers == NO_DOCS
    requires s.desk == Resting(SET_UP, EMPTY_COPY, Got(1, NO_COUNTS)).(setups := map[8 := None])
    ensures exists t :: Reached(but, t) && !Level(t)
  {
    hide Reached, Next, Enabled;
    DoDesignate(but, s, 8);
    var bound := s.(online := s.online.(bound := Here(2), nextKey := 3), desk := s.desk.(setups := s.desk.setups[8 := Some(2)]));
    DoEndSetUp(but, bound, 8);
    var anew := bound.(desk := CommitSetUp(bound.desk, 8));
    DoEndRefresh(but, anew);
    var stale := anew.(desk := CommitRefresh(anew.desk));
    assert stale.desk.copy == Some(EMPTY_COPY) && Ours(stale);
    assert Last(stale.desk.copy.value.last, KEY) == 0 && Last(stale.desk.settings.value.issued, KEY) == 0 && Last(stale.online.last, KEY) == 1;
  }

  /** Set up begun during a refresh. */
  lemma SetUpDuringRefreshIsStale()
    ensures exists t :: Reached(SetUpAfterRefresh, t) && !Level(t)
  {
    hide Reached, Next, Enabled, Level;
    var but := SetUpAfterRefresh;
    ReadyReached(but);
    DoAskRefresh(but, READY);
    DoTakeSnapshot(but, READY.(desk := Resting(SET_UP, EMPTY_COPY, Asked(1))));
    var got := READY.(desk := Resting(SET_UP, EMPTY_COPY, Got(1, NO_COUNTS)));
    SoldElsewhere(but, got);
    var sold := got.(online := Online(SOLD_ONE.docs, SOLD_ONE.last, Nobody, Closed, 2));
    DoSetUp(but, sold, 8);
    assert sold.desk.setups[8 := None] == map[8 := None];
    SetUpIsStale(but, sold.(desk := sold.desk.(setups := map[8 := None])));
  }

  /** A refresh begun while setting up. */
  lemma RefreshDuringSetUpIsStale()
    ensures exists t :: Reached(RefreshAfterSetUp, t) && !Level(t)
  {
    hide Reached, Next, Enabled, Level;
    var but := RefreshAfterSetUp;
    ReadyReached(but);
    DoSetUp(but, READY, 8);
    var setting := READY.(desk := READY.desk.(setups := map[8 := None]));
    assert READY.desk.setups[8 := None] == setting.desk.setups;
    DoAskRefresh(but, setting);
    var asked := setting.(desk := setting.desk.(refresh := Asked(1)));
    DoTakeSnapshot(but, asked);
    var got := asked.(desk := asked.desk.(refresh := Got(1, NO_COUNTS)));
    SoldElsewhere(but, got);
    SetUpIsStale(but, got.(online := Online(SOLD_ONE.docs, SOLD_ONE.last, Nobody, Closed, 2)));
  }

  // ----- Nothing asked is too much

  /** Leave out any one thing that a careful run meets, and some run that meets all the others has its numbers wrong. */
  lemma EachIsNeeded(but: Clause)
    ensures exists s :: Reached(but, s) && !RightNumbers(s)
  {
    hide Reached, Level, Fits, Once, RefusedForNumber;
    match but
    case FinishOnce => FinishTwiceLoses();
    case StartAfterSetUp => StartDuringSetUpLoses();
    case StartAfterRemove => StartDuringRemoveLoses();
    case EveryAnswer => LostAnswerIsRefused();
    case StartAfterAnswers => LateAnswerIsRefused();
    case StartAfterRefresh => StartDuringRefreshClashes();
    case SetUpAfterRefresh => SetUpDuringRefreshIsStale();
    case RefreshAfterSetUp => RefreshDuringSetUpIsStale();
  }

  /** Leave out any of the three things that keep what is sold offline, and some run that meets all the others loses a sale. */
  lemma EachKeeps(but: Clause)
    requires but == FinishOnce || but == StartAfterSetUp || but == StartAfterRemove
    ensures exists s :: Reached(but, s) && !Kept(s)
  {
    hide Reached, Kept, Level, Once;
    match but
    case FinishOnce => FinishTwiceLoses();
    case StartAfterSetUp => StartDuringSetUpLoses();
    case _ => StartDuringRemoveLoses();
  }
}

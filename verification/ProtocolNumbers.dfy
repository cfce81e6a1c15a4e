/**
 * This computer's last counts are the server's: the copy's and those noted since it was made, whenever
 * nothing is pending, so that what is sold offline never clashes with what was sold online.
 */
module ProtocolNumbers {
  import opened FallbackProtocol
  import opened OutboxRows
  import opened ProtocolKeeping
  import opened ProtocolSafety
  import opened Rounding
  import opened ServerTables

  /**
   * One handler at a time; every answer arrives, and before selling offline begins; and selling offline
   * or setting up does not begin while a refresh is under way, nor a refresh while setting up.
   */
  predicate Careful(s: State, e: Event) {
    && OneAtATime(s, e) && Meets(EveryAnswer, s, e) && Meets(StartAfterAnswers, s, e) && Meets(StartAfterRefresh, s, e)
    && Meets(SetUpAfterRefresh, s, e) && Meets(RefreshAfterSetUp, s, e)
  }

  /** The server's last count is one of the computer's: of the counts given, noted, or in an answer on its way. */
  ghost predicate Reaches(s: State, counts: Counts, issued: Counts, key: SeqKey) {
    var last := Last(s.online.last, key);
    && Last(counts, key) <= last && Last(issued, key) <= last
    && (Last(counts, key) == last || Last(issued, key) == last || exists id :: id in s.answers && s.answers[id] == Number(key, last))
  }

  /** The server still takes this computer's key. */
  predicate Ours(s: State) { s.desk.settings.Some? && s.online.bound == Here(s.desk.settings.value.key) }

  ghost predicate CountsReach(s: State) {
    Ours(s) && !Pending(s.desk) ==>
      && (s.desk.settings.value.ready ==>
            s.desk.copy.Some? && forall key :: Reaches(s, s.desk.copy.value.last, s.desk.settings.value.issued, key))
      && (s.desk.refresh.Got? ==> forall key :: Reaches(s, s.desk.refresh.last, s.desk.settings.value.issued, key))
  }

  /** Documents in both places with one number are one document. */
  ghost predicate OneNumberEach(docs: Docs, online: Docs) {
    forall id, other :: id in docs && other in online && docs[id] == online[other] ==> id == other
  }

  ghost predicate CopyAhead(s: State) {
    Ours(s) && Pending(s.desk) ==>
      && s.desk.copy.Some?
      && (forall key :: Last(s.online.last, key) <= Last(s.desk.copy.value.last, key))
      && (forall key :: Last(s.desk.settings.value.issued, key) <= Last(s.desk.copy.value.last, key))
      && OneNumberEach(s.desk.copy.value.docs, s.online.docs)
  }

  /** Messages under the key the server takes hold nothing beyond what this computer has, or had sent. */
  ghost predicate MailBehind(s: State) {
    forall h :: h in s.mail && Ours(s) && s.mail[h].key == s.desk.settings.value.key ==>
      forall key :: Last(s.mail[h].last, key)
        <= if Pending(s.desk) && s.desk.copy.Some? then Last(s.desk.copy.value.last, key) else Last(s.online.last, key)
  }

  /** Keys are each given once. */
  ghost predicate KeysNew(s: State) {
    && (s.online.bound.Here? ==> s.online.bound.key < s.online.nextKey)
    && (s.desk.settings.Some? ==> s.desk.settings.value.key < s.online.nextKey)
    && (forall h :: h in s.mail ==> s.mail[h].key < s.online.nextKey)
    && (forall h :: h in s.desk.setups && s.desk.setups[h].Some? ==>
          && s.desk.setups[h].value < s.online.nextKey
          && (s.desk.settings.Some? ==> s.desk.settings.value.key != s.desk.setups[h].value)
          && (forall m :: m in s.mail ==> s.mail[m].key != s.desk.setups[h].value))
    && (forall h, other :: h in s.desk.setups && other in s.desk.setups && h != other && s.desk.setups[h].Some? ==> s.desk.setups[h] != s.desk.setups[other])
    && (s.desk.refresh.Asked? && s.desk.settings.Some? ==> s.desk.refresh.key == s.desk.settings.value.key)
    && (s.desk.refresh.Got? && s.desk.settings.Some? ==> s.desk.refresh.key == s.desk.settings.value.key)
  }

  /** While something is pending, nothing is under way online. */
  ghost predicate Quiet(s: State) {
    && (Pending(s.desk) ==> s.answers == map[] && s.desk.refresh.Idle?)
    && (s.desk.setups != map[] ==> s.desk.refresh.Idle?)
  }

  /** Answers and notes are of what the server issued. */
  ghost predicate FromServer(s: State) {
    && (forall id :: id in s.answers ==> id in s.online.docs && s.answers[id].count <= Last(s.online.last, s.answers[id].key))
    && (s.desk.settings.Some? ==> forall key :: Last(s.desk.settings.value.issued, key) <= Last(s.online.last, key))
  }

  ghost predicate InStep(s: State) {
    CountsReach(s) && CopyAhead(s) && MailBehind(s) && KeysNew(s) && Quiet(s) && FromServer(s)
  }

  // ----- Each part

  predicate SettingUp(e: Event) { e.SetUp? || e.Designate? || e.EndSetUp? || e.SetUpFails? }
  predicate Sending(e: Event) { e.Finish? || e.FinishOk? || e.FinishFails? || e.ServerTakes? }

  lemma SetUpKeys(s: State, e: Event)
    requires KeysNew(s) && Quiet(s) && Keeping(s) && Sound(s) && Enabled(s, e) && Careful(s, e) && SettingUp(e)
    ensures KeysNew(Next(s, e))
  {
    hide Sound, Higher, Last, Kept, TookAll, Finishing, Replacing;
  }

  lemma SendingKeys(s: State, e: Event)
    requires KeysNew(s) && Keeping(s) && Sound(s) && Enabled(s, e) && Sending(e)
    ensures KeysNew(Next(s, e))
  {
    hide Sound, Higher, Last, Kept, TookAll;
    SoundActive(s);
  }

  lemma RestKeys(s: State, e: Event)
    requires KeysNew(s) && Quiet(s) && Enabled(s, e) && Careful(s, e) && !SettingUp(e) && !Sending(e)
    ensures KeysNew(Next(s, e))
  {
    hide Higher, Last;
  }

  lemma KeysKeep(s: State, e: Event)
    requires KeysNew(s) && Quiet(s) && Keeping(s) && Sound(s) && Enabled(s, e) && Careful(s, e)
    ensures KeysNew(Next(s, e))
  {
    hide Next, Enabled, Sound, KeysNew, Quiet, Keeping, Careful, SettingUp, Sending;
    if SettingUp(e) { SetUpKeys(s, e); } else if Sending(e) { SendingKeys(s, e); } else { RestKeys(s, e); }
  }

  lemma QuietKeeps(s: State, e: Event)
    requires Quiet(s) && Keeping(s) && Sound(s) && Enabled(s, e) && Careful(s, e)
    ensures Quiet(Next(s, e))
  {
    hide Sound, Issue, Taken, Takes, Higher, Kept, TookAll, Last;
    SoundActive(s);
  }

  lemma SaleFromServer(s: State, e: Event)
    requires FromServer(s) && Enabled(s, e) && (e.Sell? || e.OtherSells?)
    ensures FromServer(Next(s, e))
  {
    LastGrows(s.online, e.id, e.key);
  }

  lemma AnswerFromServer(s: State, id: DocId)
    requires FromServer(s) && id in s.answers
    ensures FromServer(s.(desk := Note(s.desk, s.answers[id]), answers := s.answers - {id}))
  {
  }

  lemma SyncFromServer(s: State, h: nat)
    requires FromServer(s) && h in s.mail
    ensures FromServer(s.(online := Taken(s.online, s.mail[h]), took := s.took + {h}))
  {
    hide Higher;
    TakenAllLast(s.online, s.mail[h]);
  }

  lemma RestFromServer(s: State, e: Event)
    requires FromServer(s) && Finishing(s) && Enabled(s, e)
    requires !e.Sell? && !e.OtherSells? && !e.ServerTakes? && !e.AnswerArrives?
    ensures FromServer(Next(s, e))
  {
    hide Higher, Last;
    NothingNoted();
  }

  lemma NothingNoted()
    ensures forall key :: Last(map[], key) == 0
  {
  }

  lemma FromServerKeeps(s: State, e: Event)
    requires FromServer(s) && Finishing(s) && Enabled(s, e)
    ensures FromServer(Next(s, e))
  {
    hide FromServer, Taken, Note, Finishing;
    match e
    case Sell(id, key) => SaleFromServer(s, e);
    case OtherSells(id, key) => SaleFromServer(s, e);
    case AnswerArrives(id) => AnswerFromServer(s, id);
    case ServerTakes(h) => SyncFromServer(s, h);
    case _ => RestFromServer(s, e);
  }

  lemma TakenAllLast(o: Online, m: Message)
    ensures forall key :: Last(Taken(o, m).last, key) == Max(Last(o.last, key), Last(m.last, key))
  {
    forall key ensures Last(Taken(o, m).last, key) == Max(Last(o.last, key), Last(m.last, key)) {
      TakenLast(o, m, key);
    }
  }

  // ----- Mail

  lemma OnlineMail(s: State, e: Event)
    requires InStep(s) && Keeping(s) && Sound(s) && Enabled(s, e) && (e.Sell? || e.OtherSells? || e.ServerTakes?)
    ensures MailBehind(Next(s, e))
  {
    hide Sound, Takes, Higher, Kept, CountsReach, KeysNew, Quiet, FromServer, CopyAhead, Finishing, Replacing;
    match e
    case Sell(id, key) => LastGrows(s.online, id, key);
    case OtherSells(id, key) => LastGrows(s.online, id, key);
    case ServerTakes(h) => TakenAllLast(s.online, s.mail[h]);
  }

  lemma OfflineSaleMail(s: State, id: DocId, key: SeqKey)
    requires MailBehind(s) && Enabled(s, OfflineSale(id, key)) && Pending(s.desk)
    ensures MailBehind(Next(s, OfflineSale(id, key)))
  {
    hide Higher, Last;
    CopyGrows(s.desk, id, key);
  }

  lemma FinishMail(s: State, e: Event)
    requires InStep(s) && Keeping(s) && Sound(s) && Enabled(s, e) && (e.Finish? || e.FinishOk?)
    ensures MailBehind(Next(s, e))
  {
    hide Sound, Higher, Kept, CountsReach, Quiet, FromServer, Last;
    SoundActive(s);
  }

  lemma RestMail(s: State, e: Event)
    requires InStep(s) && Keeping(s) && Sound(s) && Enabled(s, e) && Careful(s, e)
    requires !e.Sell? && !e.OtherSells? && !e.ServerTakes? && !e.OfflineSale? && !e.StartOffline? && !e.Finish? && !e.FinishOk?
    ensures MailBehind(Next(s, e))
  {
    hide Sound, Higher, Kept, CountsReach, FromServer, CopyAhead, Finishing, TookAll, Last;
    SoundActive(s);
  }

  lemma MailKeeps(s: State, e: Event)
    requires InStep(s) && Keeping(s) && Sound(s) && Enabled(s, e) && Careful(s, e)
    ensures MailBehind(Next(s, e))
  {
    hide Sound, Next, Kept, CountsReach, KeysNew, Quiet, FromServer, CopyAhead, Finishing, MailBehind, TookAll, Careful;
    match e
    case Sell(id, key) => OnlineMail(s, e);
    case OtherSells(id, key) => OnlineMail(s, e);
    case ServerTakes(h) => OnlineMail(s, e);
    case StartOffline => StartMail(s);
    case OfflineSale(id, key) => SoundActive(s); OfflineSaleMail(s, id, key);
    case Finish(h) => FinishMail(s, e);
    case FinishOk(h) => FinishMail(s, e);
    case _ => RestMail(s, e);
  }

  lemma CopyGrows(d: Desk, id: DocId, key: SeqKey)
    requires d.copy.Some?
    ensures forall k :: Last(d.copy.value.last, k) <= Last(SellOffline(d, id, key).copy.value.last, k)
    ensures Last(SellOffline(d, id, key).copy.value.last, key) == Last(d.copy.value.last, key) + 1
  {
  }

  lemma HigherLast(a: Counts, b: Counts)
    ensures forall key :: Last(Higher(a, b), key) == Max(Last(a, key), Last(b, key))
  {
  }

  /** Nothing is on its way: the copy, caught up, has every count the server has. */
  lemma StartsLevel(s: State, key: SeqKey)
    requires CountsReach(s) && Ours(s) && !Pending(s.desk) && s.desk.settings.value.ready && s.answers == map[]
    ensures s.desk.copy.Some?
    ensures Max(Last(s.desk.copy.value.last, key), Last(s.desk.settings.value.issued, key)) == Last(s.online.last, key)
  {
    assert Reaches(s, s.desk.copy.value.last, s.desk.settings.value.issued, key);
  }

  lemma StartMail(s: State)
    requires CountsReach(s) && MailBehind(s) && Replacing(s) && Sound(s) && Enabled(s, StartOffline) && Careful(s, StartOffline)
    ensures MailBehind(Next(s, StartOffline))
  {
    hide Sound, Higher, CountsReach;
    SoundActive(s);
    if Ours(s) && !Pending(s.desk) {
      forall key ensures s.desk.copy.Some?
        && Max(Last(s.desk.copy.value.last, key), Last(s.desk.settings.value.issued, key)) == Last(s.online.last, key)
      {
        StartsLevel(s, key);
      }
      HigherLast(s.desk.copy.value.last, s.desk.settings.value.issued);
    }
  }

  // ----- Selling offline stays ahead of the server

  lemma AheadKeeps(s: State, e: Event)
    requires InStep(s) && Keeping(s) && Sound(s) && Enabled(s, e) && Careful(s, e)
    ensures CopyAhead(Next(s, e))
  {
    hide Sound, Takes, Higher, CountsReach, Finishing, TookAll, Kept, Below, UniqueDocs;
    SoundActive(s);
    match e
    case StartOffline => StartAhead(s);
    case OfflineSale(id, key) => SaleAhead(s, id, key);
    case ServerTakes(h) => if Takes(s.online, s.mail[h]) { TakenAhead(s, h); }
    case _ =>
  }

  lemma StartAhead(s: State)
    requires CountsReach(s) && CopyAhead(s) && Keeping(s) && Sound(s) && Enabled(s, StartOffline) && Careful(s, StartOffline)
    ensures CopyAhead(Next(s, StartOffline))
  {
    hide Higher, CountsReach, Finishing, TookAll, Below, MailSound;
    if Ours(s) && !Pending(s.desk) {
      forall key ensures s.desk.copy.Some?
        && Max(Last(s.desk.copy.value.last, key), Last(s.desk.settings.value.issued, key)) == Last(s.online.last, key)
      {
        StartsLevel(s, key);
      }
      HigherLast(s.desk.copy.value.last, s.desk.settings.value.issued);
      var docs := s.desk.copy.value.docs;
      forall id, other | id in docs && other in s.online.docs && docs[id] == s.online.docs[other] ensures id == other {
        assert id in s.made && id in s.online.docs;
      }
    }
  }

  lemma SaleAhead(s: State, id: DocId, key: SeqKey)
    requires CopyAhead(s) && Sound(s) && Enabled(s, OfflineSale(id, key))
    ensures CopyAhead(Next(s, OfflineSale(id, key)))
  {
    hide UniqueDocs, MailSound;
    CopyGrows(s.desk, id, key);
  }

  lemma TakenAhead(s: State, h: nat)
    requires CopyAhead(s) && MailBehind(s) && Keeping(s) && Sound(s) && h in s.mail && Takes(s.online, s.mail[h])
    ensures CopyAhead(s.(online := Taken(s.online, s.mail[h]), took := s.took + {h}))
  {
    hide Finishing, TookAll, Below, Higher, Replacing;
    TakenAllLast(s.online, s.mail[h]);
    if Ours(s) && Pending(s.desk) {
      assert forall key :: Last(s.mail[h].last, key) <= Last(s.desk.copy.value.last, key);
      var docs, online := s.desk.copy.value.docs, Taken(s.online, s.mail[h]).docs;
      forall id, other | id in docs && other in online && docs[id] == online[other] ensures id == other {
        TakenFrom(s, h, other);
      }
    }
  }

  lemma TakenFrom(s: State, h: nat, other: DocId)
    requires Kept(s) && Sound(s) && h in s.mail && other in Taken(s.online, s.mail[h]).docs && Pending(s.desk) && s.desk.copy.Some?
    ensures var number := Taken(s.online, s.mail[h]).docs[other];
            (other in s.online.docs && number == s.online.docs[other])
            || (other in s.desk.copy.value.docs && number == s.desk.copy.value.docs[other])
    ensures UniqueDocs(s.desk.copy.value.docs)
  {
    hide Below;
    assert other in s.mail[h].docs ==> other in s.made;
  }

  // ----- The counts reach the server's

  lemma ReachesStill(s: State, s': State, counts: Counts, issued: Counts, key: SeqKey)
    requires Reaches(s, counts, issued, key)
    requires Last(s'.online.last, key) == Last(s.online.last, key)
    requires forall id :: id in s.answers && s.answers[id].key == key ==> id in s'.answers && s'.answers[id] == s.answers[id]
    ensures Reaches(s', counts, issued, key)
  {
    if exists id :: id in s.answers && s.answers[id] == Number(key, Last(s.online.last, key)) {
      var id :| id in s.answers && s.answers[id] == Number(key, Last(s.online.last, key));
      assert id in s'.answers;
    }
  }

  lemma SellReaches(s: State, id: DocId, sold: SeqKey, counts: Counts, issued: Counts, key: SeqKey)
    requires Enabled(s, Sell(id, sold)) && Reaches(s, counts, issued, key) && FromServer(s)
    ensures Reaches(Next(s, Sell(id, sold)), counts, issued, key)
  {
    var s' := Next(s, Sell(id, sold));
    LastGrows(s.online, id, sold);
    if key == sold {
      assert s'.answers[id] == Number(key, Last(s'.online.last, key));
    } else {
      ReachesStill(s, s', counts, issued, key);
    }
  }

  /** The computer and the server once an answer is here. */
  function Answered(s: State, id: DocId): (r: State)
    requires id in s.answers
  {
    s.(desk := Note(s.desk, s.answers[id]), answers := s.answers - {id})
  }

  lemma NoteReaches(s: State, id: DocId, counts: Counts, key: SeqKey)
    requires id in s.answers && FromServer(s) && s.desk.settings.Some? && !Active(s.desk)
    requires Reaches(s, counts, s.desk.settings.value.issued, key)
    ensures var s' := Answered(s, id);
            s'.desk.settings.Some? && Reaches(s', counts, s'.desk.settings.value.issued, key)
  {
    var last, s' := Last(s.online.last, key), Answered(s, id);
    NotedLast(s.desk, s.answers[id], key);
    if exists other :: other in s.answers && s.answers[other] == Number(key, last) {
      var other :| other in s.answers && s.answers[other] == Number(key, last);
      if other != id { assert other in s'.answers && s'.answers[other] == Number(key, last); }
    }
  }

  lemma NotedLast(d: Desk, number: Number, key: SeqKey)
    requires d.settings.Some? && !Active(d)
    ensures var d' := Note(d, number);
            d'.settings.Some? && Last(d'.settings.value.issued, key)
              == if key == number.key then Max(Last(d.settings.value.issued, key), number.count) else Last(d.settings.value.issued, key)
  {
  }

  lemma ReachKeeps(s: State, e: Event)
    requires InStep(s) && Keeping(s) && Sound(s) && Enabled(s, e) && Careful(s, e)
    requires e.Sell? || e.AnswerArrives? || e.ServerTakes?
    ensures CountsReach(Next(s, e))
  {
    hide Sound, Higher, Finishing, Kept, CopyAhead, Reaches, Note;
    SoundActive(s);
    var s' := Next(s, e);
    if Ours(s) && !Pending(s.desk) {
      match e
      case Sell(id, sold) =>
        forall counts, issued, key | Reaches(s, counts, issued, key) ensures Reaches(s', counts, issued, key) {
          SellReaches(s, id, sold, counts, issued, key);
        }
      case AnswerArrives(id) =>
        NoteKeepsRest(s, id);
        forall counts, key | Reaches(s, counts, s.desk.settings.value.issued, key)
          ensures s'.desk.settings.Some? && Reaches(s', counts, s'.desk.settings.value.issued, key)
        {
          assert s' == Answered(s, id);
          NoteReaches(s, id, counts, key);
        }
      case ServerTakes(h) =>
        TakenAllLast(s.online, s.mail[h]);
        forall counts, issued, key | Reaches(s, counts, issued, key) ensures Reaches(s', counts, issued, key) {
          ReachesStill(s, s', counts, issued, key);
        }
    } else {
      NotOurs(s, e);
    }
  }

  lemma NoteKeepsRest(s: State, id: DocId)
    requires id in s.answers && s.desk.settings.Some?
    ensures var s' := Next(s, AnswerArrives(id));
            && s'.desk.settings.Some? && s'.desk.copy == s.desk.copy && s'.desk.refresh == s.desk.refresh && s'.online == s.online
            && s'.desk.settings.value.ready == s.desk.settings.value.ready && s'.desk.settings.value.pending == s.desk.settings.value.pending
            && s'.desk.settings.value.key == s.desk.settings.value.key
  {
  }

  /** Neither selling online, an answer nor a sync makes the server take a key it didn't, or ends a pending sync. */
  lemma NotOurs(s: State, e: Event)
    requires Enabled(s, e) && (e.Sell? || e.AnswerArrives? || e.ServerTakes?)
    ensures Ours(Next(s, e)) <==> Ours(s)
    ensures Pending(Next(s, e).desk) <==> Pending(s.desk)
  {
  }

  /** A sync taken and answered: the copy's counts are the server's. */
  lemma FinishReaches(s: State, h: nat)
    requires CopyAhead(s) && Finishing(s) && TookAll(s) && Enabled(s, FinishOk(h)) && Quiet(s)
    ensures CountsReach(Next(s, FinishOk(h)))
  {
    var s' := Next(s, FinishOk(h));
    if Ours(s') {
      forall key ensures Reaches(s', s.desk.copy.value.last, s.desk.settings.value.issued, key) {
        assert Last(s.mail[h].last, key) <= Last(s.online.last, key);
      }
    }
  }

  lemma OtherReachKeeps(s: State, e: Event)
    requires InStep(s) && Keeping(s) && Sound(s) && Enabled(s, e) && Careful(s, e)
    requires !e.Sell? && !e.AnswerArrives? && !e.ServerTakes? && !e.FinishOk?
    ensures CountsReach(Next(s, e))
  {
    hide Sound, Higher, Finishing, Kept, CopyAhead, MailBehind, Last;
    SoundActive(s);
    var s' := Next(s, e);
    if Ours(s') && !Pending(s'.desk) && Ours(s) && !Pending(s.desk) && !e.OtherSells? {
      SameReach(s, s');
    }
  }

  lemma SameReach(s: State, s': State)
    requires s'.online.last == s.online.last && s'.answers == s.answers
    ensures forall counts, issued, key :: Reaches(s', counts, issued, key) <==> Reaches(s, counts, issued, key)
  {
  }

  // ----- Whole runs

  lemma NextInStep(s: State, e: Event)
    requires InStep(s) && Keeping(s) && Sound(s) && Enabled(s, e) && Careful(s, e)
    ensures InStep(Next(s, e))
  {
    hide Sound, Next, Enabled, Careful, Kept, Replacing, CopyAhead, MailBehind, CountsReach, KeysNew, Quiet, FromServer, TookAll, Finishing;
    KeysKeep(s, e);
    QuietKeeps(s, e);
    FromServerKeeps(s, e);
    MailKeeps(s, e);
    AheadKeeps(s, e);
    if e.Sell? || e.AnswerArrives? || e.ServerTakes? {
      ReachKeeps(s, e);
    } else if e.FinishOk? {
      FinishReaches(s, e.h);
    } else {
      OtherReachKeeps(s, e);
    }
  }

  lemma CarefulIsOneAtATime(events: seq<Event>)
    requires Throughout(events, Careful)
    ensures Throughout(events, OneAtATime)
  {
    hide Run, OneAtATime;
  }

  lemma BeginningInStep()
    ensures InStep(BEGINNING)
  {
  }

  lemma {:induction false} RunsInStep(events: seq<Event>)
    requires Run(BEGINNING, events).Some? && Throughout(events, Careful)
    ensures InStep(Run(BEGINNING, events).value)
  {
    hide InStep, Sound, Keeping, Next, Enabled, Careful, Throughout;
    if events == [] {
      BeginningInStep();
    } else {
      var before := events[..|events| - 1];
      ThroughoutBefore(events, Careful);
      RunsInStep(before);
      CarefulIsOneAtATime(before);
      RunsKeep(before);
      NextInStep(Run(BEGINNING, before).value, events[|events| - 1]);
    }
  }

  /**
   * In every careful run, whenever the copy is ready, the server takes its key, nothing is pending and no
   * answer is on its way, the higher of the copy's last count and the one noted is the server's last, in
   * every series and year: what is sold offline next takes the very next number.
   */
  lemma NumbersAgree(events: seq<Event>, key: SeqKey)
    requires Run(BEGINNING, events).Some? && Throughout(events, Careful)
    ensures var s := Run(BEGINNING, events).value;
            Ours(s) && s.desk.settings.value.ready && !Pending(s.desk) && s.answers == map[] ==>
              && s.desk.copy.Some?
              && Max(Last(s.desk.copy.value.last, key), Last(s.desk.settings.value.issued, key)) == Last(s.online.last, key)
  {
    hide Throughout, Run, CopyAhead, MailBehind, KeysNew, Quiet, FromServer, CountsReach;
    RunsInStep(events);
    var s := Run(BEGINNING, events).value;
    if Ours(s) && s.desk.settings.value.ready && !Pending(s.desk) && s.answers == map[] { StartsLevel(s, key); }
  }

  /** In every careful run, no message under the key the server takes is ever refused for its numbers. */
  lemma SyncNeverClashes(events: seq<Event>, h: nat)
    requires Run(BEGINNING, events).Some? && Throughout(events, Careful)
    ensures var s := Run(BEGINNING, events).value;
            h in s.mail && Ours(s) && s.mail[h].key == s.desk.settings.value.key ==> Takes(s.online, s.mail[h])
  {
    hide Throughout, Run, Sound, InStep, Keeping, Takes;
    RunsInStep(events);
    CarefulIsOneAtATime(events);
    RunsKeep(events);
    var s := Run(BEGINNING, events).value;
    if h in s.mail && Ours(s) && s.mail[h].key == s.desk.settings.value.key { MessageFits(s, h); }
  }

  lemma MessageFits(s: State, h: nat)
    requires InStep(s) && Keeping(s) && Sound(s) && h in s.mail && Ours(s) && s.mail[h].key == s.desk.settings.value.key
    ensures Takes(s.online, s.mail[h])
  {
    hide CountsReach, MailBehind, KeysNew, Quiet, FromServer, TookAll, Finishing, Below;
    var docs := s.mail[h].docs;
    forall id, other | id in docs && other in s.online.docs && s.online.docs[other] == docs[id] ensures other in docs {
      assert id in s.made && s.made[id] == docs[id];
    }
  }

  // ----- All that the care is for

  /** With nothing pending or on its way, the computer's last counts are the server's. */
  ghost predicate Level(s: State) {
    Ours(s) && s.desk.settings.value.ready && !Pending(s.desk) && s.answers == map[] ==>
      && s.desk.copy.Some?
      && forall key :: Max(Last(s.desk.copy.value.last, key), Last(s.desk.settings.value.issued, key)) == Last(s.online.last, key)
  }

  /** No message of this computer's is refused. */
  ghost predicate Fits(s: State) {
    forall h :: h in s.mail && Ours(s) && s.mail[h].key == s.desk.settings.value.key ==> Takes(s.online, s.mail[h])
  }

  /** No two documents ever made, offline or online, have one number. */
  ghost predicate Once(s: State) {
    Ours(s) ==> forall a, b :: a in s.made && b in s.online.docs && s.made[a] == s.online.docs[b] ==> a == b
  }

  ghost predicate RightNumbers(s: State) { Level(s) && Fits(s) && Once(s) }

  lemma MadeOnce(s: State)
    requires InStep(s) && Keeping(s) && Sound(s)
    ensures Once(s)
  {
    hide CountsReach, MailBehind, KeysNew, Quiet, FromServer, TookAll, Finishing, Below, MailSound;
    if Ours(s) {
      forall a, b | a in s.made && b in s.online.docs && s.made[a] == s.online.docs[b] ensures a == b {
        if a !in s.online.docs { LacksOnlyCopied(s, a); }
      }
    }
  }

  lemma IsLevel(s: State)
    requires CountsReach(s)
    ensures Level(s)
  {
    hide CountsReach, Last;
    if Ours(s) && s.desk.settings.value.ready && !Pending(s.desk) && s.answers == map[] {
      StartsLevel(s, SeqKey(InvoiceKind, "", 0));
      forall key: SeqKey ensures Max(Last(s.desk.copy.value.last, key), Last(s.desk.settings.value.issued, key)) == Last(s.online.last, key) {
        StartsLevel(s, key);
      }
    }
  }

  lemma AllFit(s: State)
    requires InStep(s) && Keeping(s) && Sound(s)
    ensures Fits(s)
  {
    hide InStep, Keeping, Sound, Takes;
    forall h | h in s.mail && Ours(s) && s.mail[h].key == s.desk.settings.value.key ensures Takes(s.online, s.mail[h]) { MessageFits(s, h); }
  }

  /** In every careful run the numbers are right: level, fitting, and given once. */
  lemma NumbersRight(events: seq<Event>)
    requires Run(BEGINNING, events).Some? && Throughout(events, Careful)
    ensures RightNumbers(Run(BEGINNING, events).value)
  {
    hide Throughout, Run, Sound, Keeping, Level, Fits, Once, CountsReach, CopyAhead, MailBehind, KeysNew, Quiet, FromServer;
    RunsInStep(events);
    CarefulIsOneAtATime(events);
    RunsKeep(events);
    var s := Run(BEGINNING, events).value;
    IsLevel(s);
    AllFit(s);
    MadeOnce(s);
  }
}

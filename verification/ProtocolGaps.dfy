/** Consecutive numbers: in every run, whatever is pressed when, each series' numbers on the server run from one to its last. */
module ProtocolGaps {
  import opened FallbackProtocol
  import opened OutboxRows
  import opened ProtocolSafety
  import opened ServerTables

  ghost predicate Given(docs: Docs, number: Number) { exists id :: id in docs && docs[id] == number }

  /** Every number up to these counts is on a document, here or on the server. */
  ghost predicate Filled(counts: Counts, docs: Docs, online: Docs) {
    forall number: Number :: 0 < number.count <= Last(counts, number.key) ==> Given(docs, number) || Given(online, number)
  }

  ghost predicate Within(counts: Counts, last: Counts) { forall key :: Last(counts, key) <= Last(last, key) }

  ghost predicate MailFilled(s: State) {
    forall h :: h in s.mail ==> Filled(s.mail[h].last, s.mail[h].docs, s.online.docs)
  }

  ghost predicate NoGaps(s: State) {
    && Filled(s.online.last, map[], s.online.docs) && MailFilled(s)
    && (s.desk.copy.Some? ==> Filled(s.desk.copy.value.last, s.desk.copy.value.docs, s.online.docs))
    && (s.desk.refresh.Got? ==> Within(s.desk.refresh.last, s.online.last))
    && (s.desk.settings.Some? ==> Within(s.desk.settings.value.issued, s.online.last))
    && forall id :: id in s.answers ==> s.answers[id].count <= Last(s.online.last, s.answers[id].key)
  }

  lemma FilledAs(counts: Counts, docs: Docs, online: Docs, counts': Counts, docs': Docs, online': Docs)
    requires Filled(counts, docs, online) && Within(counts', counts)
    requires Part(docs, docs') && Part(online, online')
    ensures Filled(counts', docs', online')
  {
    forall number: Number | 0 < number.count <= Last(counts', number.key) ensures Given(docs', number) || Given(online', number) {
      assert 0 < number.count <= Last(counts, number.key);
      if Given(docs, number) {
        var id :| id in docs && docs[id] == number;
        assert id in docs' && docs'[id] == number;
      } else {
        var id :| id in online && online[id] == number;
        assert id in online' && online'[id] == number;
      }
    }
  }

  /** One more document takes the very next number. */
  lemma FilledOneMore(counts: Counts, docs: Docs, online: Docs, id: DocId, key: SeqKey)
    requires Filled(counts, docs, online) && id !in docs
    ensures var count := Last(counts, key) + 1;
            Filled(counts[key := count], docs[id := Number(key, count)], online)
  {
    var count := Last(counts, key) + 1;
    var docs' := docs[id := Number(key, count)];
    forall number: Number | 0 < number.count <= Last(counts[key := count], number.key) ensures Given(docs', number) || Given(online, number) {
      if number == Number(key, count) {
        assert id in docs' && docs'[id] == number;
      } else if Given(docs, number) {
        var other :| other in docs && docs[other] == number;
        assert other in docs' && docs'[other] == number;
      }
    }
  }

  lemma OnServer(counts: Counts, online: Docs)
    ensures Filled(counts, map[], online) <==> Filled(counts, online, map[])
  {
    assert forall number :: !Given(map[], number);
  }

  lemma FilledHigher(a: Counts, b: Counts, docs: Docs, online: Docs)
    requires Filled(a, docs, online) && Filled(b, docs, online)
    ensures Filled(Higher(a, b), docs, online)
  {
    forall number: Number | 0 < number.count <= Last(Higher(a, b), number.key) ensures Given(docs, number) || Given(online, number) {
      assert number.count <= Last(a, number.key) || number.count <= Last(b, number.key);
    }
  }

  // ----- Every step

  /** The server's documents only grow, and its counts only rise. */
  ghost predicate Grows(s: State, s': State) {
    Part(s.online.docs, s'.online.docs) && Within(s.online.last, s'.online.last)
  }

  lemma RestGrows(s: State, s': State)
    requires NoGaps(s) && Grows(s, s') && s'.desk == s.desk && s'.mail == s.mail
    ensures MailFilled(s')
    ensures s.desk.copy.Some? ==> Filled(s.desk.copy.value.last, s.desk.copy.value.docs, s'.online.docs)
    ensures s.desk.refresh.Got? ==> Within(s.desk.refresh.last, s'.online.last)
    ensures s.desk.settings.Some? ==> Within(s.desk.settings.value.issued, s'.online.last)
  {
    hide Filled;
    forall h | h in s.mail ensures Filled(s.mail[h].last, s.mail[h].docs, s'.online.docs) {
      FilledAs(s.mail[h].last, s.mail[h].docs, s.online.docs, s.mail[h].last, s.mail[h].docs, s'.online.docs);
    }
    if s.desk.copy.Some? {
      var copy := s.desk.copy.value;
      FilledAs(copy.last, copy.docs, s.online.docs, copy.last, copy.docs, s'.online.docs);
    }
  }

  lemma IssueFills(o: Online, id: DocId, key: SeqKey)
    requires Filled(o.last, map[], o.docs) && id !in o.docs
    ensures Filled(Issue(o, id, key).last, map[], Issue(o, id, key).docs)
    ensures Part(o.docs, Issue(o, id, key).docs) && Within(o.last, Issue(o, id, key).last)
    ensures var number := Issue(o, id, key).docs[id]; number.key == key && number.count == Last(Issue(o, id, key).last, key)
  {
    hide Filled;
    OnServer(o.last, o.docs);
    FilledOneMore(o.last, o.docs, map[], id, key);
    OnServer(Issue(o, id, key).last, Issue(o, id, key).docs);
  }

  lemma SaleFills(s: State, e: Event)
    requires NoGaps(s) && Sound(s) && Enabled(s, e) && (e.Sell? || e.OtherSells?)
    ensures NoGaps(Next(s, e))
  {
    hide Filled, Sound, MailFilled, Issue, Within;
    IssueFills(s.online, e.id, e.key);
    var sold := s.(online := Issue(s.online, e.id, e.key));
    RestGrows(s, sold);
    AnswersStay(s, sold);
    SameRest(sold, Next(s, e));
  }

  lemma AnswersStay(s: State, s': State)
    requires NoGaps(s) && Within(s.online.last, s'.online.last)
    ensures forall id :: id in s.answers ==> s.answers[id].count <= Last(s'.online.last, s.answers[id].key)
  {
  }

  lemma SameRest(s: State, s': State)
    requires s.online.docs == s'.online.docs && s.mail == s'.mail
    ensures MailFilled(s) <==> MailFilled(s')
  {
  }

  lemma TakenFills(s: State, h: nat)
    requires NoGaps(s) && Sound(s) && h in s.mail && Takes(s.online, s.mail[h])
    ensures NoGaps(s.(online := Taken(s.online, s.mail[h]), took := s.took + {h}))
  {
    hide Filled, Sound, Higher, MailFilled, Takes;
    var o, m := s.online, s.mail[h];
    var s' := s.(online := Taken(o, m), took := s.took + {h});
    TakenGrows(o, m);
    InMailFilled(s, h);
    FilledAs(o.last, map[], o.docs, o.last, m.docs, o.docs);
    FilledHigher(o.last, m.last, m.docs, o.docs);
    Together(Higher(o.last, m.last), m.docs, o.docs, s'.online.docs, s, h);
    RestGrows(s, s');
    AnswersStay(s, s');
  }

  lemma InMailFilled(s: State, h: nat)
    requires MailFilled(s) && h in s.mail
    ensures Filled(s.mail[h].last, s.mail[h].docs, s.online.docs)
  {
  }

  lemma TakenGrows(o: Online, m: Message)
    ensures Part(o.docs, Taken(o, m).docs) && Within(o.last, Taken(o, m).last)
  {
  }

  lemma Together(counts: Counts, docs: Docs, online: Docs, all: Docs, s: State, h: nat)
    requires Filled(counts, docs, online) && Sound(s) && h in s.mail && docs == s.mail[h].docs && online == s.online.docs
    requires all == docs + online
    ensures Filled(counts, map[], all)
  {
    hide Below, CopySound, UniqueDocs;
    forall number: Number | 0 < number.count <= Last(counts, number.key) ensures Given(all, number) {
      if Given(docs, number) {
        var id :| id in docs && docs[id] == number;
        assert id in all && all[id] == number;
      } else {
        var id :| id in online && online[id] == number;
        assert id in all && all[id] == number;
      }
    }
  }

  lemma OfflineSaleFills(s: State, id: DocId, key: SeqKey)
    requires NoGaps(s) && Sound(s) && Enabled(s, OfflineSale(id, key))
    ensures NoGaps(Next(s, OfflineSale(id, key)))
  {
    hide Filled, Sound, MailFilled, Within;
    NotInCopy(s, id);
    FilledOneMore(s.desk.copy.value.last, s.desk.copy.value.docs, s.online.docs, id, key);
    SameRest(s, Next(s, OfflineSale(id, key)));
  }

  lemma StartFills(s: State)
    requires NoGaps(s) && Enabled(s, StartOffline)
    ensures NoGaps(Next(s, StartOffline))
  {
    hide Filled, MailFilled, Within;
    if s.desk.copy.Some? {
      var copy, issued := s.desk.copy.value, s.desk.settings.value.issued;
      FilledAs(s.online.last, map[], s.online.docs, issued, copy.docs, s.online.docs);
      FilledHigher(copy.last, issued, copy.docs, s.online.docs);
    }
    SameRest(s, Next(s, StartOffline));
  }

  lemma RefreshFills(s: State)
    requires NoGaps(s) && Enabled(s, EndRefresh)
    ensures NoGaps(Next(s, EndRefresh))
  {
    hide Filled, MailFilled, Within;
    FilledAs(s.online.last, map[], s.online.docs, s.desk.refresh.last, map[], s.online.docs);
    SameRest(s, Next(s, EndRefresh));
  }

  lemma SendingFills(s: State, h: nat)
    requires NoGaps(s) && Enabled(s, Finish(h))
    ensures NoGaps(Next(s, Finish(h)))
  {
    hide Filled, Within;
  }

  lemma NoteFills(s: State, id: DocId)
    requires NoGaps(s) && Enabled(s, AnswerArrives(id))
    ensures NoGaps(Next(s, AnswerArrives(id)))
  {
    hide Filled, MailFilled;
    SameRest(s, Next(s, AnswerArrives(id)));
  }

  /** Steps that give no number and load or send no copy. */
  lemma OthersFill(s: State, e: Event)
    requires NoGaps(s) && Enabled(s, e)
    requires !e.Sell? && !e.OtherSells? && !e.OfflineSale? && !e.StartOffline? && !e.EndRefresh? && !e.Finish? && !e.ServerTakes? && !e.AnswerArrives?
    ensures NoGaps(Next(s, e))
  {
    hide Filled, MailFilled, Higher, Issue, Taken, Takes, Note, Start, CommitRefresh, SellOffline, ToSend, Unused, ApiTarget;
    SameRest(s, Next(s, e));
    assert e.TakeSnapshot? ==> Within(s.online.last, s.online.last);
    assert Within(map[], s.online.last);
  }

  lemma NextFills(s: State, e: Event)
    requires NoGaps(s) && Sound(s) && Enabled(s, e)
    ensures NoGaps(Next(s, e))
  {
    hide NoGaps, Sound, Takes;
    match e
    case Sell(_, _) => SaleFills(s, e);
    case OtherSells(_, _) => SaleFills(s, e);
    case OfflineSale(id, key) => OfflineSaleFills(s, id, key);
    case StartOffline => StartFills(s);
    case EndRefresh => RefreshFills(s);
    case Finish(h) => SendingFills(s, h);
    case AnswerArrives(id) => NoteFills(s, id);
    case ServerTakes(h) => if Takes(s.online, s.mail[h]) { TakenFills(s, h); }
    case _ => OthersFill(s, e);
  }

  // ----- Whole runs

  lemma {:induction false} RunsFilled(events: seq<Event>)
    requires Run(BEGINNING, events).Some?
    ensures NoGaps(Run(BEGINNING, events).value) && Sound(Run(BEGINNING, events).value)
  {
    hide NoGaps, Sound, Next, Enabled;
    RunsSound(events);
    if events == [] {
      BeginningFilled();
    } else {
      var before := events[..|events| - 1];
      RunsFilled(before);
      NextFills(Run(BEGINNING, before).value, events[|events| - 1]);
    }
  }

  lemma BeginningFilled()
    ensures NoGaps(BEGINNING)
  {
  }

  /**
   * In every run, careful or not, the numbers of a series' and year's documents on the server are those from one to its
   * last, and each is of one document: none is skipped, however they were sold, sent, refused or sent again.
   */
  lemma NumbersRunOn(events: seq<Event>, number: Number)
    requires Run(BEGINNING, events).Some?
    ensures var s := Run(BEGINNING, events).value;
            && ((exists id :: id in s.online.docs && s.online.docs[id] == number) <==> 0 < number.count <= Last(s.online.last, number.key))
            && forall a, b :: a in s.online.docs && b in s.online.docs && s.online.docs[a] == number == s.online.docs[b] ==> a == b
  {
    hide Run, Agree, CopySound, MailSound, MailFilled;
    RunsFilled(events);
    var s := Run(BEGINNING, events).value;
    if 0 < number.count <= Last(s.online.last, number.key) {
      assert !Given(map[], number) && Given(s.online.docs, number);
    }
  }

  /** Selling offline, what the copy and the server hold together runs on from one just so. */
  lemma CopyRunsOn(events: seq<Event>, number: Number)
    requires Run(BEGINNING, events).Some?
    ensures var s := Run(BEGINNING, events).value;
            s.desk.copy.Some? && 0 < number.count <= Last(s.desk.copy.value.last, number.key) ==>
              exists id :: (id in s.desk.copy.value.docs && s.desk.copy.value.docs[id] == number)
                        || (id in s.online.docs && s.online.docs[id] == number)
  {
    hide Run, Sound, MailFilled;
    RunsFilled(events);
    var s := Run(BEGINNING, events).value;
    if s.desk.copy.Some? && 0 < number.count <= Last(s.desk.copy.value.last, number.key) {
      assert Given(s.desk.copy.value.docs, number) || Given(s.online.docs, number);
    }
  }
}

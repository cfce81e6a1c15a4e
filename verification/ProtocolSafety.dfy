/** What holds in every run of the fallback counter's protocol, whatever is pressed when and whichever answers are lost. */
module ProtocolSafety {
  import opened FallbackProtocol
  import opened OutboxRows
  import opened ServerTables

  ghost predicate UniqueDocs(docs: Docs) {
    forall a, b :: a in docs && b in docs && docs[a] == docs[b] ==> a == b
  }

  /** Every count has been issued. */
  ghost predicate Below(docs: Docs, last: Counts) {
    forall id :: id in docs ==> 0 < docs[id].count <= Last(last, docs[id].key)
  }

  ghost predicate Part(docs: Docs, all: Docs) {
    forall id :: id in docs ==> id in all && all[id] == docs[id]
  }

  ghost predicate Agree(a: Docs, b: Docs) {
    forall id :: id in a && id in b ==> a[id] == b[id]
  }

  /** Documents numbered well: each number once, none above the last. */
  ghost predicate Numbered(docs: Docs, last: Counts) { UniqueDocs(docs) && Below(docs, last) }

  ghost predicate CopySound(d: Desk, made: Docs) {
    d.copy.Some? ==> Numbered(d.copy.value.docs, d.copy.value.last) && Part(d.copy.value.docs, made)
  }

  ghost predicate MailSound(mail: map<nat, Message>, made: Docs) {
    forall h :: h in mail ==> Numbered(mail[h].docs, mail[h].last) && Part(mail[h].docs, made)
  }

  ghost predicate Sound(s: State) {
    && Numbered(s.online.docs, s.online.last) && Agree(s.online.docs, s.made)
    && CopySound(s.desk, s.made) && MailSound(s.mail, s.made)
    && (s.desk.settings.Some? ==> s.desk.settings.value.active == s.desk.settings.value.pending)
    && (s.online.bound.Here? ==> !s.online.open.OpenThere?)
  }

  // ----- Numbering one more document

  lemma NumbersOneMore(docs: Docs, last: Counts, id: DocId, key: SeqKey)
    requires Numbered(docs, last) && id !in docs
    ensures var count := Last(last, key) + 1;
            Numbered(docs[id := Number(key, count)], last[key := count])
  {
  }

  lemma BelowHigher(docs: Docs, last: Counts, other: Counts)
    requires Below(docs, last)
    ensures Below(docs, Higher(last, other)) && Below(docs, Higher(other, last))
  {
  }

  /** A sync that reports no clash gives no number twice. */
  lemma TakenNumbered(o: Online, m: Message, made: Docs)
    requires Numbered(o.docs, o.last) && Numbered(m.docs, m.last)
    requires Agree(o.docs, made) && Part(m.docs, made) && !Clashes(o, m)
    ensures Numbered(Taken(o, m).docs, Taken(o, m).last) && Agree(Taken(o, m).docs, made)
  {
    hide Clashes, Higher;
    var docs := Taken(o, m).docs;
    BelowHigher(o.docs, o.last, m.last);
    BelowHigher(m.docs, m.last, o.last);
    ServerWins(o, m, made);
    NoClash(o, m);
  }

  lemma ServerWins(o: Online, m: Message, made: Docs)
    requires Agree(o.docs, made) && Part(m.docs, made)
    ensures forall id :: id in m.docs ==> Taken(o, m).docs[id] == m.docs[id]
  {
  }

  lemma NoClash(o: Online, m: Message)
    requires !Clashes(o, m)
    ensures forall id, other :: id in m.docs && other in o.docs && other !in m.docs ==> o.docs[other] != m.docs[id]
  {
  }

  // ----- Every step

  lemma OnlineKeeps(s: State, e: Event)
    requires Sound(s) && Enabled(s, e)
    requires e.Sell? || e.OtherSells? || e.ServerTakes? || e.OpenRegister? || e.CloseRegister? || e.OtherOpens? || e.OtherCloses?
             || e.OtherDesignates? || e.OtherReleases?
    ensures Sound(Next(s, e))
  {
    hide Numbered, Agree, CopySound, MailSound, Higher;
    match e
    case Sell(id, key) => IssueKeeps(s.online, s.made, id, key);
    case OtherSells(id, key) => IssueKeeps(s.online, s.made, id, key);
    case ServerTakes(h) =>
      InMail(s, h);
      if Takes(s.online, s.mail[h]) { TakenNumbered(s.online, s.mail[h], s.made); }
    case _ =>
  }

  lemma InMail(s: State, h: nat)
    requires MailSound(s.mail, s.made) && h in s.mail
    ensures Numbered(s.mail[h].docs, s.mail[h].last) && Part(s.mail[h].docs, s.made)
  {
  }

  lemma IssueKeeps(o: Online, made: Docs, id: DocId, key: SeqKey)
    requires Numbered(o.docs, o.last) && Agree(o.docs, made) && id !in o.docs && id !in made
    ensures Numbered(Issue(o, id, key).docs, Issue(o, id, key).last) && Agree(Issue(o, id, key).docs, made)
  {
    hide Numbered;
    NumbersOneMore(o.docs, o.last, id, key);
  }

  lemma MadeMore(docs: Docs, made: Docs, id: DocId, number: Number)
    requires id !in made
    ensures Part(docs, made) ==> Part(docs, made[id := number])
    ensures Agree(docs, made) && id !in docs ==> Agree(docs, made[id := number])
  {
  }

  lemma OfflineSaleKeeps(s: State, id: DocId, key: SeqKey)
    requires Sound(s) && Enabled(s, OfflineSale(id, key))
    ensures Sound(Next(s, OfflineSale(id, key)))
  {
    hide Numbered, Agree, Part;
    var s' := Next(s, OfflineSale(id, key));
    var copy, number := s.desk.copy.value, s'.desk.copy.value.docs[id];
    NotInCopy(s, id);
    NumbersOneMore(copy.docs, copy.last, id, key);
    MadeMore(s.online.docs, s.made, id, number);
    CopyMore(copy.docs, s.made, id, number);
    forall h | h in s.mail ensures Part(s.mail[h].docs, s'.made) {
      MadeMore(s.mail[h].docs, s.made, id, number);
    }
  }

  lemma NotInCopy(s: State, id: DocId)
    requires Sound(s) && id !in s.made && s.desk.copy.Some?
    ensures id !in s.desk.copy.value.docs
  {
  }

  lemma CopyMore(docs: Docs, made: Docs, id: DocId, number: Number)
    requires Part(docs, made) && id !in made
    ensures Part(docs[id := number], made[id := number])
  {
  }

  lemma StartKeeps(s: State)
    requires Sound(s) && Enabled(s, StartOffline)
    ensures Sound(Next(s, StartOffline))
  {
    hide Agree, UniqueDocs, MailSound;
    if s.desk.copy.Some? {
      BelowHigher(s.desk.copy.value.docs, s.desk.copy.value.last, s.desk.settings.value.issued);
    }
  }

  /** Steps that leave every document and count where it is. */
  predicate Plain(e: Event) {
    e.AnswerArrives? || e.AnswerLost? || e.AskRefresh? || e.TakeSnapshot? || e.RefreshFails? || e.FinishOk? || e.FinishFails?
    || e.SetUp? || e.Designate? || e.SetUpFails? || e.Remove? || e.Release? || e.RemoveFails?
  }

  lemma PlainKeeps(s: State, e: Event)
    requires Sound(s) && Enabled(s, e) && Plain(e)
    ensures Sound(Next(s, e))
  {
    hide Agree, MailSound, Numbered, Part, Higher, Last;
  }

  lemma CopyReplaced(s: State, e: Event)
    requires Sound(s) && Enabled(s, e) && (e.EndRefresh? || e.EndSetUp? || e.EndRemove? || e.Finish?)
    ensures Sound(Next(s, e))
  {
    hide Agree, MailSound, Numbered, Part, Higher, Last;
    match e
    case Finish(h) => SentSound(s, h);
    case EndRefresh => NothingNumbered(s);
    case _ =>
  }

  lemma NothingNumbered(s: State)
    ensures forall last: Counts :: Numbered(map[], last)
    ensures Part(map[], s.made)
  {
  }

  lemma SentSound(s: State, h: nat)
    requires Sound(s) && Enabled(s, Finish(h)) && s.desk.settings.Some?
    ensures MailSound(s.mail[h := ToSend(s.desk)], s.made)
  {
    hide Numbered, Part;
  }

  lemma NextKeeps(s: State, e: Event)
    requires Sound(s) && Enabled(s, e)
    ensures Sound(Next(s, e))
  {
    hide Sound, Next;
    match e
    case Sell(id, key) => OnlineKeeps(s, e);
    case OtherSells(id, key) => OnlineKeeps(s, e);
    case ServerTakes(h) => OnlineKeeps(s, e);
    case OfflineSale(id, key) => OfflineSaleKeeps(s, id, key);
    case StartOffline => StartKeeps(s);
    case EndRefresh => CopyReplaced(s, e);
    case EndSetUp(h) => CopyReplaced(s, e);
    case EndRemove(h) => CopyReplaced(s, e);
    case Finish(h) => CopyReplaced(s, e);
    case OpenRegister => OnlineKeeps(s, e);
    case CloseRegister => OnlineKeeps(s, e);
    case OtherOpens => OnlineKeeps(s, e);
    case OtherCloses => OnlineKeeps(s, e);
    case OtherDesignates => OnlineKeeps(s, e);
    case OtherReleases => OnlineKeeps(s, e);
    case _ => PlainKeeps(s, e);
  }

  lemma BeginningSound()
    ensures Sound(BEGINNING)
  {
  }

  lemma {:induction false} RunsSound(events: seq<Event>)
    requires Run(BEGINNING, events).Some?
    ensures Sound(Run(BEGINNING, events).value)
  {
    hide Sound, Next, Enabled;
    if events == [] {
      BeginningSound();
    } else {
      var before := events[..|events| - 1];
      RunsSound(before);
      NextKeeps(Run(BEGINNING, before).value, events[|events| - 1]);
    }
  }

  /**
   * In every run, including those with answers lost, syncs refused, handlers overlapping and messages
   * arriving late or twice, the server never holds two documents with one number, and this computer
   * sells offline exactly while it has a sync pending.
   */
  lemma NoNumberTwice(events: seq<Event>)
    requires Run(BEGINNING, events).Some?
    ensures var s := Run(BEGINNING, events).value;
            && (forall a, b :: a in s.online.docs && b in s.online.docs && s.online.docs[a] == s.online.docs[b] ==> a == b)
            && (Active(s.desk) <==> Pending(s.desk))
  {
    hide Numbered, Agree, CopySound, MailSound;
    RunsSound(events);
    SoundUnique(Run(BEGINNING, events).value);
  }

  lemma SoundUnique(s: State)
    requires Sound(s)
    ensures UniqueDocs(s.online.docs)
  {
  }
}

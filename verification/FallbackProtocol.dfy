/**
 * The fallback counter's protocol as steps of one state: the online server, this computer's settings and
 * local copy, and what is on its way between them (apps/desktop/src/fallback.ts,
 * apps/desktop/src/ipc-fallback.ts, apps/desktop/src/fallback-counter.ts,
 * apps/api/src/fallback/fallback.service.ts, apps/api/src/registers/registers.service.ts).
 */
module FallbackProtocol {
  import opened OutboxRows
  import opened Rounding
  import opened ServerTables

  /** A document's number: its kind's series, the financial year, and the count. */
  datatype Number = Number(key: SeqKey, count: nat)

  /** Invoices and returns have ids of their own. */
  datatype DocId = DocId(kind: DocumentKind, id: Id)

  type Counts = map<SeqKey, nat>
  type Docs = map<DocId, Number>

  function Last(counts: Counts, key: SeqKey): (r: nat) { if key in counts then counts[key] else 0 }

  /** Each series' and year's higher count. */
  function Higher(a: Counts, b: Counts): (r: Counts) {
    map key | key in a.Keys + b.Keys :: Max(Last(a, key), Last(b, key))
  }

  // ----- The server

  /** Whose computer the counter is bound to, and the register open on it. */
  datatype Bound = Nobody | Here(key: nat) | Elsewhere
  datatype Open = Closed | OpenHere | OpenThere

  datatype Online = Online(docs: Docs, last: Counts, bound: Bound, open: Open, nextKey: nat)

  /** A document sold online takes its series' next number. */
  function Issue(s: Online, id: DocId, key: SeqKey): (r: Online) {
    var count := Last(s.last, key) + 1;
    s.(docs := s.docs[id := Number(key, count)], last := s.last[key := count])
  }

  datatype Message = Message(key: nat, docs: Docs, last: Counts)

  /** A number in the outbox that the server used for another document. */
  predicate Clashes(s: Online, m: Message) {
    exists id, other :: id in m.docs && other in s.docs && other !in m.docs && s.docs[other] == m.docs[id]
  }

  predicate Takes(s: Online, m: Message) { s.bound == Here(m.key) && !Clashes(s, m) }

  function Taken(s: Online, m: Message): (r: Online) {
    s.(docs := m.docs + s.docs, last := Higher(s.last, m.last))
  }

  // ----- This computer

  datatype Settings = Settings(key: nat, ready: bool, active: bool, pending: bool, issued: Counts)

  /** The local copy: what was made on it since, and its series' last counts. */
  datatype Copy = Copy(docs: Docs, last: Counts)

  datatype Refresh = Idle | Asked(key: nat) | Got(key: nat, last: Counts)

  /** `finishes`, `setups` and `removals`: handlers still waiting for the server, and what they have of it. */
  datatype Desk = Desk(
    settings: Option<Settings>, copy: Option<Copy>, syncing: bool, refresh: Refresh,
    finishes: set<nat>, setups: map<nat, Option<nat>>, removals: map<nat, bool>)

  predicate Active(d: Desk) { d.settings.Some? && d.settings.value.active }
  predicate Pending(d: Desk) { d.settings.Some? && d.settings.value.pending }

  /** A number the server issued through this computer, unless it is selling offline. */
  function Note(d: Desk, number: Number): (r: Desk) {
    if d.settings.None? || d.settings.value.active || Last(d.settings.value.issued, number.key) >= number.count then d
    else d.(settings := Some(d.settings.value.(issued := d.settings.value.issued[number.key := number.count])))
  }

  predicate MayRefresh(d: Desk) {
    d.settings.Some? && !Active(d) && !Pending(d) && d.refresh.Idle? && !d.syncing
  }

  /** The snapshot replaces the copy, unless selling offline began meanwhile. */
  function CommitRefresh(d: Desk): (r: Desk) {
    if !d.refresh.Got? || d.settings.None? || Active(d) || Pending(d) then d.(refresh := Idle)
    else d.(copy := Some(Copy(map[], d.refresh.last)), settings := Some(d.settings.value.(ready := true)), refresh := Idle)
  }

  predicate MayStart(d: Desk) { d.settings.Some? && d.settings.value.ready }

  /** Selling offline begins: the copy's counts move past those noted. */
  function Start(d: Desk): (r: Desk) {
    if d.settings.None? || Active(d) then d
    else
      var settings := d.settings.value;
      d.(copy := if d.copy.Some? then Some(d.copy.value.(last := Higher(d.copy.value.last, settings.issued))) else None,
         settings := Some(settings.(active := true, pending := true)))
  }

  /** Where the page's requests go: nowhere while the offline sales are being sent. */
  datatype Target = Unavailable | LocalCopy | TheServer

  function ApiTarget(d: Desk): (r: Target) {
    if d.syncing then Unavailable else if Active(d) then LocalCopy else TheServer
  }

  predicate MaySellOffline(d: Desk) { ApiTarget(d).LocalCopy? && d.copy.Some? }

  function SellOffline(d: Desk, id: DocId, key: SeqKey): (r: Desk)
    requires d.copy.Some?
  {
    var copy := d.copy.value;
    var count := Last(copy.last, key) + 1;
    d.(copy := Some(Copy(copy.docs[id := Number(key, count)], copy.last[key := count])))
  }

  /** Everything made offline is read to be sent; requests wait meanwhile. */
  function ToSend(d: Desk): (r: Message)
    requires d.settings.Some? && d.copy.Some?
  {
    Message(d.settings.value.key, d.copy.value.docs, d.copy.value.last)
  }

  function BeginFinish(d: Desk, h: nat): (r: Desk) { d.(syncing := true, finishes := d.finishes + {h}) }

  /** The server took it: this computer works with the server again. */
  function Finished(d: Desk, h: nat): (r: Desk) {
    var settings := if d.settings.Some? then d.settings.value.(active := false, pending := false) else Settings(0, false, false, false, map[]);
    d.(settings := Some(settings), syncing := false, finishes := d.finishes - {h})
  }

  function FinishFailed(d: Desk, h: nat): (r: Desk) { d.(syncing := false, finishes := d.finishes - {h}) }

  function CommitSetUp(d: Desk, h: nat): (r: Desk)
    requires h in d.setups && d.setups[h].Some?
  {
    d.(settings := Some(Settings(d.setups[h].value, false, false, false, map[])), copy := None, setups := d.setups - {h})
  }

  function CommitRemove(d: Desk, h: nat): (r: Desk) {
    d.(settings := None, copy := None, removals := d.removals - {h})
  }

  // ----- The whole

  /** `answers`: online sales whose answer is on its way. `made`: everything ever made offline. */
  datatype State = State(
    online: Online, desk: Desk, answers: Docs, mail: map<nat, Message>, took: set<nat>, made: Docs)

  datatype Event =
    | OpenRegister | CloseRegister | OtherOpens | OtherCloses
    | Sell(id: DocId, key: SeqKey) | AnswerArrives(id: DocId) | AnswerLost(id: DocId) | OtherSells(id: DocId, key: SeqKey)
    | OtherDesignates | OtherReleases
    | AskRefresh | TakeSnapshot | EndRefresh | RefreshFails
    | StartOffline | OfflineSale(id: DocId, key: SeqKey)
    | Finish(h: nat) | ServerTakes(h: nat) | FinishOk(h: nat) | FinishFails(h: nat)
    | SetUp(h: nat) | Designate(h: nat) | EndSetUp(h: nat) | SetUpFails(h: nat)
    | Remove(h: nat) | Release(h: nat) | EndRemove(h: nat) | RemoveFails(h: nat)

  predicate Unused(s: State, id: DocId) {
    id !in s.online.docs && id !in s.made
  }

  /** The steps' own guards. */
  predicate Enabled(s: State, e: Event) {
    var d, o := s.desk, s.online;
    match e
    case OpenRegister => o.open.Closed? && !o.bound.Elsewhere?
    case CloseRegister => o.open.OpenHere?
    case OtherOpens => o.open.Closed? && !o.bound.Here?
    case OtherCloses => o.open.OpenThere?
    case Sell(id, key) => o.open.OpenHere? && ApiTarget(d).TheServer? && Unused(s, id)
    case AnswerArrives(id) => id in s.answers
    case AnswerLost(id) => id in s.answers
    case OtherSells(id, key) => o.open.OpenThere? && Unused(s, id)
    case OtherDesignates => o.open.Closed?
    case OtherReleases => true
    case AskRefresh => MayRefresh(d)
    case TakeSnapshot => d.refresh.Asked? && o.bound == Here(d.refresh.key)
    case EndRefresh => d.refresh.Got?
    case RefreshFails => !d.refresh.Idle?
    case StartOffline => MayStart(d)
    case OfflineSale(id, key) => MaySellOffline(d) && Unused(s, id)
    case Finish(h) => (Active(d) || Pending(d)) && d.copy.Some? && h !in s.mail
    case ServerTakes(h) => h in s.mail
    case FinishOk(h) => h in d.finishes && h in s.took
    case FinishFails(h) => h in d.finishes
    case SetUp(h) => !Pending(d) && h !in d.setups
    case Designate(h) => h in d.setups && d.setups[h].None? && o.open.Closed?
    case EndSetUp(h) => h in d.setups && d.setups[h].Some?
    case SetUpFails(h) => h in d.setups
    case Remove(h) => d.settings.Some? && !Pending(d) && h !in d.removals
    case Release(h) => h in d.removals
    case EndRemove(h) => h in d.removals && d.removals[h]
    case RemoveFails(h) => h in d.removals
  }

  function Next(s: State, e: Event): (r: State)
    requires Enabled(s, e)
  {
    var d, o := s.desk, s.online;
    match e
    case OpenRegister => s.(online := o.(open := OpenHere))
    case CloseRegister => s.(online := o.(open := Closed))
    case OtherOpens => s.(online := o.(open := OpenThere))
    case OtherCloses => s.(online := o.(open := Closed))
    case Sell(id, key) => s.(online := Issue(o, id, key), answers := s.answers[id := Issue(o, id, key).docs[id]])
    case AnswerArrives(id) => s.(desk := Note(d, s.answers[id]), answers := s.answers - {id})
    case AnswerLost(id) => s.(answers := s.answers - {id})
    case OtherSells(id, key) => s.(online := Issue(o, id, key))
    case OtherDesignates => s.(online := o.(bound := Elsewhere))
    case OtherReleases => s.(online := o.(bound := Nobody))
    case AskRefresh => s.(desk := d.(refresh := Asked(d.settings.value.key)))
    case TakeSnapshot => s.(desk := d.(refresh := Got(d.refresh.key, o.last)))
    case EndRefresh => s.(desk := CommitRefresh(d))
    case RefreshFails => s.(desk := d.(refresh := Idle))
    case StartOffline => s.(desk := Start(d))
    case OfflineSale(id, key) =>
      s.(desk := SellOffline(d, id, key), made := s.made[id := SellOffline(d, id, key).copy.value.docs[id]])
    case Finish(h) => s.(desk := BeginFinish(d, h), mail := s.mail[h := ToSend(d)])
    case ServerTakes(h) =>
      if Takes(o, s.mail[h]) then s.(online := Taken(o, s.mail[h]), took := s.took + {h}) else s
    case FinishOk(h) => s.(desk := Finished(d, h))
    case FinishFails(h) => s.(desk := FinishFailed(d, h))
    case SetUp(h) => s.(desk := d.(setups := d.setups[h := None]))
    case Designate(h) =>
      s.(online := o.(bound := Here(o.nextKey), nextKey := o.nextKey + 1), desk := d.(setups := d.setups[h := Some(o.nextKey)]))
    case EndSetUp(h) => s.(desk := CommitSetUp(d, h))
    case SetUpFails(h) => s.(desk := d.(setups := d.setups - {h}))
    case Remove(h) => s.(desk := d.(removals := d.removals[h := false]))
    case Release(h) => s.(online := o.(bound := Nobody), desk := d.(removals := d.removals[h := true]))
    case EndRemove(h) => s.(desk := CommitRemove(d, h))
    case RemoveFails(h) => s.(desk := d.(removals := d.removals - {h}))
  }

  const NEW_DESK := Desk(None, None, false, Idle, {}, map[], map[])
  const BEGINNING := State(Online(map[], map[], Nobody, Closed, 1), NEW_DESK, map[], map[], {}, map[])

  /** A run: steps taken one after another, each when its guard allows; none when some guard doesn't. */
  ghost function Run(s: State, events: seq<Event>): (r: Option<State>) {
    if events == [] then Some(s)
    else
      var before := Run(s, events[..|events| - 1]);
      if before.Some? && Enabled(before.value, events[|events| - 1]) then Some(Next(before.value, events[|events| - 1])) else None
  }

  lemma RunOneMore(s: State, events: seq<Event>, e: Event)
    ensures Run(s, events + [e]) ==
            if Run(s, events).Some? && Enabled(Run(s, events).value, e) then Some(Next(Run(s, events).value, e)) else None
  {
    assert (events + [e])[..|events|] == events;
  }
}

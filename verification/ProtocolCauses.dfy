/**
 * What the server's word is worth in every run: one computer sells on the counter at a time, a key once given up is
 * good for nothing any more, and nothing is concluded here that the server didn't do.
 */
module ProtocolCauses {
  import opened FallbackProtocol
  import opened OutboxRows
  import opened ServerTables

  // ----- One computer at a time

  /** The register is open on no computer but the one the counter is bound to, if it is bound. */
  ghost predicate OpenWhereBound(o: Online) {
    (o.bound.Here? ==> !o.open.OpenThere?) && (o.bound.Elsewhere? ==> !o.open.OpenHere?)
  }

  lemma {:induction false} OneComputer(events: seq<Event>)
    requires Run(BEGINNING, events).Some?
    ensures OpenWhereBound(Run(BEGINNING, events).value.online)
  {
    hide Next, Enabled;
    if events != [] {
      var before, e := events[..|events| - 1], events[|events| - 1];
      OneComputer(before);
      StaysOneComputer(Run(BEGINNING, before).value, e);
    }
  }

  lemma StaysOneComputer(s: State, e: Event)
    requires Enabled(s, e) && OpenWhereBound(s.online)
    ensures OpenWhereBound(Next(s, e).online)
  {
    hide Higher, Last, Clashes, Start, Note;
  }

  // ----- A key given up

  /** A key the server gave, and doesn't take. */
  predicate GivenUp(o: Online, key: nat) { key < o.nextKey && o.bound != Here(key) }

  /** Nothing new came of that key: no message under it was taken, no snapshot given. */
  ghost predicate NothingUnder(key: nat, s: State, after: State) {
    && GivenUp(after.online, key)
    && (forall h :: h in s.mail ==> h in after.mail && after.mail[h] == s.mail[h])
    && (forall h :: h in after.mail && after.mail[h].key == key && h in after.took ==> h in s.took)
    && (after.desk.refresh.Got? && after.desk.refresh.key == key ==> after.desk.refresh == s.desk.refresh)
  }

  lemma StaysUnbound(key: nat, s: State, e: Event)
    requires GivenUp(s.online, key) && Enabled(s, e)
    ensures GivenUp(Next(s, e).online, key)
  {
    hide Higher, Last, Takes, Start, Note, CommitRefresh, SellOffline, ToSend, ApiTarget, Unused;
  }

  /** What is sent stays as it is, and what is newly taken is under the key the server takes. */
  lemma TakenIsBound(s: State, e: Event)
    requires Enabled(s, e) && forall h :: h in s.took ==> h in s.mail
    ensures var r := Next(s, e);
            && (forall h :: h in s.mail ==> h in r.mail && r.mail[h] == s.mail[h])
            && (forall h :: h in r.took ==> h in r.mail)
            && (forall h :: h in r.took && h !in s.took ==> s.online.bound == Here(r.mail[h].key))
  {
    hide Next, Enabled;
    if e.Finish? { Sends(s, e.h); } else if e.ServerTakes? { ServerTook(s, e.h); } else { MailStays(s, e); }
  }

  lemma Sends(s: State, h: nat)
    requires Enabled(s, Finish(h))
    ensures h !in s.mail && s.desk.settings.Some? && s.desk.copy.Some?
    ensures var r := Next(s, Finish(h)); r.mail == s.mail[h := ToSend(s.desk)] && r.took == s.took
  {
  }

  lemma ServerTook(s: State, h: nat)
    requires Enabled(s, ServerTakes(h))
    ensures var r := Next(s, ServerTakes(h));
            h in s.mail && r.mail == s.mail && (r.took == s.took || (s.online.bound == Here(s.mail[h].key) && r.took == s.took + {h}))
  {
    hide Clashes, Taken;
  }

  lemma MailStays(s: State, e: Event)
    requires Enabled(s, e) && !e.Finish? && !e.ServerTakes?
    ensures Next(s, e).mail == s.mail && Next(s, e).took == s.took
  {
    hide Issue, Start, Note, CommitRefresh, SellOffline, ApiTarget, Unused;
  }

  /** So is a snapshot newly given. */
  lemma SnapshotIsBound(s: State, e: Event)
    requires Enabled(s, e)
    ensures var before, after := s.desk.refresh, Next(s, e).desk.refresh;
            after.Got? ==> if before.Got? then after == before else s.online.bound == Here(after.key)
  {
    hide Higher, Last, Takes, Taken, Issue, ToSend, ApiTarget, Unused;
  }

  lemma StaysGivenUp(key: nat, s: State, before: State, e: Event)
    requires NothingUnder(key, s, before) && Enabled(before, e)
    requires forall h :: h in before.took ==> h in before.mail
    ensures NothingUnder(key, s, Next(before, e))
    ensures forall h :: h in Next(before, e).took ==> h in Next(before, e).mail
  {
    hide Next, Enabled;
    StaysUnbound(key, before, e);
    TakenIsBound(before, e);
    SnapshotIsBound(before, e);
  }

  /**
   * Once the server doesn't take a key it gave, it never takes it again in any run on from there: no message under
   * that key is taken and no snapshot is given to it, whatever is done here or on other computers.
   */
  lemma {:induction false} GivenUpForGood(s: State, events: seq<Event>, key: nat)
    requires GivenUp(s.online, key) && (forall h :: h in s.took ==> h in s.mail)
    requires Run(s, events).Some?
    ensures NothingUnder(key, s, Run(s, events).value)
    ensures forall h :: h in Run(s, events).value.took ==> h in Run(s, events).value.mail
  {
    hide Next, Enabled, NothingUnder;
    if events == [] {
      assert NothingUnder(key, s, s) by { StillNothing(key, s); }
    } else {
      GivenUpForGood(s, events[..|events| - 1], key);
      StaysGivenUp(key, s, Run(s, events[..|events| - 1]).value, events[|events| - 1]);
    }
  }

  lemma StillNothing(key: nat, s: State)
    requires GivenUp(s.online, key)
    ensures NothingUnder(key, s, s)
  {
  }

  // ----- Nothing concluded without the server

  ghost predicate Happened(events: seq<Event>, e: Event) { exists i :: 0 <= i < |events| && events[i] == e }

  ghost predicate SoldHere(events: seq<Event>, id: DocId) {
    exists i :: 0 <= i < |events| && events[i].Sell? && events[i].id == id
  }

  /** What this computer goes by, the server did. */
  ghost predicate Caused(events: seq<Event>, s: State) { SendingCaused(events, s) && DeskCaused(events, s) }

  ghost predicate SendingCaused(events: seq<Event>, s: State) {
    && (forall h :: h in s.took ==> h in s.mail && Happened(events, ServerTakes(h)))
    && (forall h :: h in s.mail ==> Happened(events, Finish(h)))
    && forall id :: id in s.answers ==> SoldHere(events, id)
  }

  ghost predicate DeskCaused(events: seq<Event>, s: State) {
    && (forall h :: h in s.desk.setups && s.desk.setups[h].Some? ==> Happened(events, Designate(h)))
    && (forall h :: h in s.desk.removals && s.desk.removals[h] ==> Happened(events, Release(h)))
    && (s.desk.refresh.Got? ==> Happened(events, TakeSnapshot))
    && (s.desk.settings.Some? && s.desk.settings.value.ready ==> Happened(events, TakeSnapshot))
  }

  lemma HappenedBefore(events: seq<Event>, e: Event)
    ensures Happened(events + [e], e)
    ensures forall other :: Happened(events, other) ==> Happened(events + [e], other)
    ensures forall id :: SoldHere(events, id) ==> SoldHere(events + [e], id)
    ensures e.Sell? ==> SoldHere(events + [e], e.id)
  {
    var all := events + [e];
    assert all[|events|] == e;
    forall other | Happened(events, other) ensures Happened(all, other) {
      var i :| 0 <= i < |events| && events[i] == other;
      assert all[i] == other;
    }
    forall id | SoldHere(events, id) ensures SoldHere(all, id) {
      var i :| 0 <= i < |events| && events[i].Sell? && events[i].id == id;
      assert all[i] == events[i];
    }
  }

  lemma SendingStays(events: seq<Event>, s: State, e: Event)
    requires SendingCaused(events, s) && Enabled(s, e)
    ensures SendingCaused(events + [e], Next(s, e))
  {
    hide Higher, Last, Taken, Takes, Issue, Start, Note, CommitRefresh, SellOffline, Unused, ToSend, Happened, SoldHere, ApiTarget;
    HappenedBefore(events, e);
  }

  lemma DeskStays(events: seq<Event>, s: State, e: Event)
    requires DeskCaused(events, s) && Enabled(s, e)
    ensures DeskCaused(events + [e], Next(s, e))
  {
    hide Higher, Last, Taken, Takes, Issue, Happened, SoldHere, ApiTarget;
    HappenedBefore(events, e);
  }

  lemma StaysCaused(events: seq<Event>, s: State, e: Event)
    requires Caused(events, s) && Enabled(s, e)
    ensures Caused(events + [e], Next(s, e))
  {
    hide Next, Enabled, SendingCaused, DeskCaused;
    SendingStays(events, s, e);
    DeskStays(events, s, e);
  }

  lemma {:induction false} RunCaused(events: seq<Event>)
    requires Run(BEGINNING, events).Some?
    ensures Caused(events, Run(BEGINNING, events).value)
  {
    hide Next, Enabled, Caused;
    if events == [] {
      assert Caused(events, BEGINNING) by { NothingCaused(); }
    } else {
      var before, e := events[..|events| - 1], events[|events| - 1];
      RunCaused(before);
      StaysCaused(before, Run(BEGINNING, before).value, e);
      assert before + [e] == events;
    }
  }

  lemma NothingCaused()
    ensures Caused([], BEGINNING)
  {
  }

  /**
   * In every run a finish ends well only after the server took what that finish sent, setting up only after the server
   * bound the counter, removing only after it let go, a copy is loaded or sold from only after a snapshot was taken,
   * and only a number the server gave a sale from here is noted.
   */
  lemma NothingWithoutTheServer(events: seq<Event>, e: Event)
    requires Run(BEGINNING, events).Some? && Enabled(Run(BEGINNING, events).value, e)
    ensures e.FinishOk? ==> Happened(events, Finish(e.h)) && Happened(events, ServerTakes(e.h))
    ensures e.EndSetUp? ==> Happened(events, Designate(e.h))
    ensures e.EndRemove? ==> Happened(events, Release(e.h))
    ensures e.EndRefresh? || e.StartOffline? ==> Happened(events, TakeSnapshot)
    ensures e.AnswerArrives? ==> SoldHere(events, e.id)
  {
    hide Run, Happened, SoldHere;
    RunCaused(events);
  }
}

/**
 * The fallback counter's computer as the app keeps it (apps/desktop/src/fallback.ts,
 * apps/desktop/src/ipc-fallback.ts, apps/desktop/src/fallback-counter.ts): each handler changes the saved
 * settings and the copy as one step of the protocol does.
 */
module FallbackDesk {
  import FP = FallbackProtocol
  import opened OutboxRows
  import opened Rounding
  import opened ServerTables

  class FallbackCounter {
    var settings: Option<FP.Settings>
    var copy: Option<FP.Copy>
    var syncing: bool
    var refresh: FP.Refresh
    var finishes: set<nat>
    var setups: map<nat, Option<nat>>
    var removals: map<nat, bool>

    function Desk(): FP.Desk
      reads this
    {
      FP.Desk(settings, copy, syncing, refresh, finishes, setups, removals)
    }

    /** Selling offline is on exactly while a sync is pending, and there is a copy to sell from or to send. */
    predicate Valid()
      reads this
    {
      && (FP.Active(Desk()) <==> FP.Pending(Desk()))
      && (settings.Some? && (settings.value.ready || settings.value.pending) ==> copy.Some?)
    }

    constructor ()
      ensures Valid() && Desk() == FP.NEW_DESK
    {
      settings, copy, syncing, refresh := None, None, false, FP.Idle;
      finishes, setups, removals := {}, map[], map[];
    }

    /** A number seen online raises its series' last one noted; nothing else is touched, and nothing while selling offline. */
    method NoteInvoiceIssued(number: FP.Number)
      requires Valid()
      modifies this`settings
      ensures Valid() && Desk() == FP.Note(old(Desk()), number)
      ensures old(settings).None? || old(settings).value.active ==> settings == old(settings)
      ensures old(settings).Some? && !old(settings).value.active ==>
                && settings == Some(old(settings).value.(issued := settings.value.issued))
                && FP.Last(settings.value.issued, number.key) == Max(FP.Last(old(settings).value.issued, number.key), number.count)
                && forall key :: key != number.key ==> FP.Last(settings.value.issued, key) == FP.Last(old(settings).value.issued, key)
    {
      if settings.None? || settings.value.active { return; }
      var issued := settings.value.issued;
      if FP.Last(issued, number.key) >= number.count { return; }
      settings := Some(settings.value.(issued := issued[number.key := number.count]));
    }

    /** Asks the server for a new copy, unless selling offline, still to send, or at it already. */
    method AskRefresh() returns (asked: bool)
      requires Valid()
      modifies this`refresh
      ensures Valid() && asked == FP.MayRefresh(old(Desk()))
      ensures asked <==> settings.Some? && !FP.Pending(old(Desk())) && old(refresh) == FP.Idle && !syncing
      ensures Desk() == if asked then old(Desk()).(refresh := FP.Asked(settings.value.key)) else old(Desk())
    {
      asked := settings.Some? && !settings.value.active && !settings.value.pending && refresh.Idle? && !syncing;
      if asked { refresh := FP.Asked(settings.value.key); }
    }

    /** The snapshot is here: loaded unless selling offline began meanwhile. */
    method EndRefresh() returns (loaded: bool)
      requires Valid() && refresh.Got?
      modifies this`copy, this`settings, this`refresh
      ensures Valid() && Desk() == FP.CommitRefresh(old(Desk()))
      ensures loaded ==> copy == Some(FP.Copy(map[], old(refresh).last)) && FP.MayStart(Desk())
      ensures !loaded ==> copy == old(copy) && settings == old(settings)
    {
      loaded := settings.Some? && !settings.value.active && !settings.value.pending;
      if loaded {
        copy := Some(FP.Copy(map[], refresh.last));
        settings := Some(settings.value.(ready := true));
      }
      refresh := FP.Idle;
    }

    /** From a ready copy, whose documents stay and whose every count becomes the higher of its own and the one noted. */
    method StartOffline() returns (ok: bool)
      requires Valid()
      modifies this`copy, this`settings
      ensures Valid() && ok == FP.MayStart(old(Desk()))
      ensures ok <==> old(settings).Some? && old(settings).value.ready
      ensures ok ==> FP.Pending(Desk()) && copy.value.docs == old(copy).value.docs
      ensures ok && !FP.Active(old(Desk())) ==>
                forall key :: FP.Last(copy.value.last, key) == Max(FP.Last(old(copy).value.last, key), FP.Last(settings.value.issued, key))
      ensures Desk() == if ok then FP.Start(old(Desk())) else old(Desk())
    {
      if settings.None? || !settings.value.ready { return false; }
      ok := true;
      if settings.value.active { return; }
      if copy.Some? {
        copy := Some(copy.value.(last := FP.Higher(copy.value.last, settings.value.issued)));
      }
      settings := Some(settings.value.(active := true, pending := true));
    }

    method SellOffline(id: FP.DocId, key: SeqKey) returns (number: Option<FP.Number>)
      requires Valid()
      modifies this`copy
      ensures Valid() && (number.Some? <==> FP.MaySellOffline(old(Desk())))
      ensures number.Some? <==> FP.Pending(old(Desk())) && !syncing
      ensures number.Some? ==> number.value == FP.Number(key, FP.Last(old(copy).value.last, key) + 1)
      ensures Desk() == if number.Some? then FP.SellOffline(old(Desk()), id, key) else old(Desk())
      ensures number.Some? ==> number.value == copy.value.docs[id]
    {
      if syncing || settings.None? || !settings.value.active || copy.None? { return None; }
      var count := FP.Last(copy.value.last, key) + 1;
      copy := Some(FP.Copy(copy.value.docs[id := FP.Number(key, count)], copy.value.last[key := count]));
      number := Some(FP.Number(key, count));
    }

    /** Everything made offline is read; requests wait until the answer. */
    method BeginFinish(h: nat) returns (message: Option<FP.Message>)
      requires Valid()
      modifies this`syncing, this`finishes
      ensures Valid() && (message.Some? <==> FP.Pending(old(Desk())))
      ensures Desk() == if message.Some? then FP.BeginFinish(old(Desk()), h) else old(Desk())
      ensures message.Some? ==> message.value == FP.ToSend(old(Desk()))
    {
      if settings.None? || (!settings.value.active && !settings.value.pending) { return None; }
      syncing := true;
      finishes := finishes + {h};
      message := Some(FP.Message(settings.value.key, copy.value.docs, copy.value.last));
    }

    /** Requests go through again; the copy keeps what was made offline, which is still to send unless it was sent. */
    method EndFinish(h: nat, sent: bool)
      requires Valid()
      modifies this`settings, this`syncing, this`finishes
      ensures Valid() && copy == old(copy) && FP.Pending(Desk()) == (!sent && FP.Pending(old(Desk())))
      ensures !sent ==> settings == old(settings)
      ensures old(settings).Some? ==> settings.Some? && settings.value.issued == old(settings).value.issued
      ensures Desk() == if sent then FP.Finished(old(Desk()), h) else FP.FinishFailed(old(Desk()), h)
    {
      if sent {
        settings := Some(
          if settings.Some? then settings.value.(active := false, pending := false) else FP.Settings(0, false, false, false, map[]));
      }
      syncing := false;
      finishes := finishes - {h};
    }

    /** Setting up is refused while offline sales are still to send. */
    method BeginSetUp(h: nat) returns (ok: bool)
      requires Valid()
      modifies this`setups
      ensures Valid() && ok == !FP.Pending(old(Desk()))
      ensures Desk() == if ok then old(Desk()).(setups := old(setups)[h := None]) else old(Desk())
    {
      ok := settings.None? || !settings.value.pending;
      if ok { setups := setups[h := None]; }
    }

    /** Whatever was here, selling offline included: the copy and the numbers noted are gone, and nothing is pending. */
    method EndSetUp(h: nat)
      requires Valid() && h in setups && setups[h].Some?
      modifies this`settings, this`copy, this`setups
      ensures Valid() && copy.None? && !FP.Pending(Desk()) && !FP.MayStart(Desk())
      ensures settings.Some? && Some(settings.value.key) == old(setups)[h] && forall key :: FP.Last(settings.value.issued, key) == 0
      ensures Desk() == FP.CommitSetUp(old(Desk()), h)
    {
      copy := None;
      settings := Some(FP.Settings(setups[h].value, false, false, false, map[]));
      setups := setups - {h};
    }

    /** So is removing. */
    method BeginRemove(h: nat) returns (ok: bool)
      requires Valid()
      modifies this`removals
      ensures Valid() && ok == (old(settings).Some? && !FP.Pending(old(Desk())))
      ensures Desk() == if ok then old(Desk()).(removals := old(removals)[h := false]) else old(Desk())
    {
      ok := settings.Some? && !settings.value.pending;
      if ok { removals := removals[h := false]; }
    }

    /** Whatever was here, selling offline included: nothing is left to sell from or to send. */
    method EndRemove(h: nat)
      requires Valid()
      modifies this`settings, this`copy, this`removals
      ensures Valid() && copy.None? && !FP.Pending(Desk()) && FP.ApiTarget(Desk()) == if syncing then FP.Unavailable else FP.TheServer
      ensures Desk() == FP.CommitRemove(old(Desk()), h)
    {
      copy := None;
      settings := None;
      removals := removals - {h};
    }
  }
}

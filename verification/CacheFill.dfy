/**
 * Filling the cache while commits go on. A reader that misses looks at the cached account and the
 * database first and inserts later, unless somebody else has inserted by then. In between, other
 * readers may load the account or fill its slots, and transactions may commit changes of it. A commit
 * that resets the account removes its slots first and changes the account afterwards.
 */
module CacheFill {
  import opened Types
  import opened Accounts
  import opened Publication
  import opened StateCache

  datatype Event = Load | Fill(slot: Slot) | Wipe | Commit(account: Account)

  /**
   * One account in the cache, and the committed world it has to agree with; `wiped` while its slots
   * have been removed and the account is yet to change.
   */
  datatype Moment = Moment(cached: Option<CacheAccount>, slots: map<Slot, Word>, w: World, wiped: bool)

  ghost predicate Good(m: Moment, database: World, a: Address) {
    if m.wiped then m.slots == map[] && m.cached.Some? && exists before :: AgreesAt(m.cached, before, database, m.w, a)
    else AgreesAt(m.cached, m.slots, database, m.w, a)
  }

  /** What a reader that found no cached slot goes on to insert. */
  function Fetched(cached: Option<CacheAccount>, database: World, a: Address, s: Slot): Word {
    if StorageKnown(cached) then 0 else database.slots(a, s)
  }

  /** An insertion gives way to a slot that is already there. */
  function Inserted(slots: map<Slot, Word>, s: Slot, v: Word): map<Slot, Word> {
    if s in slots then slots else slots[s := v]
  }

  /**
   * Only cached accounts are committed, with slots that start from the committed ones, and a commit
   * wipes first if and only if it resets. A fill between the two halves of a commit is late itself.
   */
  ghost predicate Possible(m: Moment, a: Address, e: Event) {
    match e
    case Load => true
    case Fill(_) => !m.wiped
    case Wipe => m.cached.Some? && !m.wiped
    case Commit(account) => m.cached.Some? && HonestSlots(account, m.w, a) && (m.wiped <==> Resets(account))
  }

  /** Accounts never leave the cache, so an account loaded late is inserted only if it never changed. */
  function Next(m: Moment, database: World, a: Address, e: Event): Moment {
    match e
    case Load => if m.cached.Some? then m else m.(cached := Some(FromDatabase(database, a)))
    case Fill(s) => m.(slots := Inserted(m.slots, s, Fetched(m.cached, database, a, s)))
    case Wipe => m.(slots := map[], wiped := true)
    case Commit(account) =>
      if m.cached.None? then m
      else Moment(
        Some(CachedAfter(m.cached.value, account)), SlotsPut(m.slots, account), Committed(m.w, a, account), false)
  }

  /** The slots once the changed ones are put; a deleted account puts none. */
  function SlotsPut(slots: map<Slot, Word>, account: Account): map<Slot, Word> {
    if Survives(account) then slots + ChangedSlots(account) else slots
  }

  function Committed(w: World, a: Address, account: Account): World {
    After(w, Outcome(map[a := account], None), a)
  }

  lemma CommittedSlot(w: World, a: Address, account: Account, s: Slot)
    ensures Committed(w, a, account).slots(a, s) == SlotAfter(account, s, w.slots(a, s))
  {
    var o := Outcome(map[a := account], None);
    assert After(w, o, a).slots(a, s) == WordAfter(o, a, s, w.slots(a, s));
  }

  function End(m: Moment, database: World, a: Address, events: seq<Event>): Moment {
    if events == [] then m
    else Next(End(m, database, a, events[..|events| - 1]), database, a, events[|events| - 1])
  }

  ghost predicate AllPossible(m: Moment, database: World, a: Address, events: seq<Event>) {
    forall i :: 0 <= i < |events| ==> Possible(End(m, database, a, events[..i]), a, events[i])
  }

  /** The commit destroys, creates or clears the account, and with it every slot it does not write. */
  predicate Wipes(e: Event) {
    e.Commit? && Resets(e.account)
  }

  lemma NextIsGood(m: Moment, database: World, a: Address, e: Event)
    requires NoOrphanSlots(database) && Good(m, database, a) && Possible(m, a, e)
    ensures Good(Next(m, database, a, e), database, a)
  {
    match e
    case Load =>
    case Fill(s) =>
    case Wipe => assert AgreesAt(m.cached, m.slots, database, m.w, a);
    case Commit(account) =>
      var before :| AgreesAt(m.cached, before, database, m.w, a) && (!m.wiped ==> before == m.slots);
      CommitAgrees(m.cached.value, before, database, m.w, a, Outcome(map[a := account], None), a);
      assert SlotsAfter(before, account) == SlotsPut(m.slots, account);
  }

  lemma AllButLast(m: Moment, database: World, a: Address, events: seq<Event>)
    requires events != [] && AllPossible(m, database, a, events)
    ensures
      var before := events[..|events| - 1];
      && AllPossible(m, database, a, before)
      && Possible(End(m, database, a, before), a, events[|events| - 1])
  {
    var before := events[..|events| - 1];
    hide Possible, End;
    forall i | 0 <= i < |before| ensures Possible(End(m, database, a, before[..i]), a, before[i]) {
      assert before[..i] == events[..i];
    }
  }

  lemma {:induction false} EventsAreGood(m: Moment, database: World, a: Address, events: seq<Event>)
    requires NoOrphanSlots(database) && Good(m, database, a) && AllPossible(m, database, a, events)
    ensures Good(End(m, database, a, events), database, a)
  {
    if events != [] {
      AllButLast(m, database, a, events);
      hide AllPossible, Possible, Good, Next, NoOrphanSlots;
      var before := events[..|events| - 1];
      EventsAreGood(m, database, a, before);
      NextIsGood(End(m, database, a, before), database, a, events[|events| - 1]);
    }
  }

  /** A slot that is not cached after an event was not written by it: it is kept, or reset to zero. */
  lemma UncachedNext(m: Moment, database: World, a: Address, e: Event, s: Slot)
    requires Possible(m, a, e) && s !in Next(m, database, a, e).slots
    ensures !Wipes(e) ==> Next(m, database, a, e).w.slots(a, s) == m.w.slots(a, s)
    ensures !Wipes(e) && !e.Wipe? ==> s !in m.slots
    ensures Wipes(e) ==> Next(m, database, a, e).w.slots(a, s) == 0
  {
    if e.Commit? {
      CommittedSlot(m.w, a, e.account, s);
      hide Committed;
    }
  }

  /** Unless a commit resets the account, it is wiped in the end only if a commit is under way. */
  lemma {:induction false} UncachedEnd(m: Moment, database: World, a: Address, events: seq<Event>, s: Slot)
    requires AllPossible(m, database, a, events) && s !in End(m, database, a, events).slots
    ensures (forall e <- events :: !Wipes(e)) && !End(m, database, a, events).wiped ==>
      !m.wiped && s !in m.slots && End(m, database, a, events).w.slots(a, s) == m.w.slots(a, s)
    ensures (exists e <- events :: Wipes(e)) && !End(m, database, a, events).wiped ==>
      End(m, database, a, events).w.slots(a, s) == 0
  {
    if events != [] {
      var before, last := events[..|events| - 1], events[|events| - 1];
      AllButLast(m, database, a, events);
      var near := End(m, database, a, before);
      LastLeaves(near, database, a, last);
      UncachedNext(near, database, a, last, s);
      assert events == before + [last];
      hide AllPossible, Possible, Next, Wipes;
      if !Wipes(last) && !last.Wipe? {
        UncachedEnd(m, database, a, before, s);
      }
    }
  }

  lemma LastLeaves(m: Moment, database: World, a: Address, e: Event)
    requires Possible(m, a, e)
    ensures e.Wipe? ==> Next(m, database, a, e).wiped
    ensures !e.Wipe? && !Wipes(e) ==> Next(m, database, a, e).wiped == m.wiped
  {
  }

  /**
   * A slot inserted late, between commits, agrees with the committed world if and only if it is zero,
   * or somebody else has cached the slot, or no commit that reset the account changed it in between.
   */
  lemma LateFill(m: Moment, database: World, a: Address, events: seq<Event>, s: Slot)
    requires NoOrphanSlots(database) && Good(m, database, a) && AllPossible(m, database, a, events)
    requires !End(m, database, a, events).wiped
    ensures
      var v, end := Fetched(m.cached, database, a, s), End(m, database, a, events);
      Good(end.(slots := Inserted(end.slots, s, v)), database, a)
      <==> v == 0 || s in end.slots || forall e <- events :: !Wipes(e)
  {
    var v, end := Fetched(m.cached, database, a, s), End(m, database, a, events);
    EventsAreGood(m, database, a, events);
    if s !in end.slots {
      UncachedEnd(m, database, a, events, s);
      hide End, AllPossible, Wipes;
      assert Good(end.(slots := end.slots[s := v]), database, a) <==> v == end.w.slots(a, s);
    }
  }

  /**
   * A slot inserted between the two halves of a commit that resets the account agrees once the commit
   * is through if and only if it is zero or the commit puts the slot.
   */
  lemma FillWithinCommit(m: Moment, database: World, a: Address, events: seq<Event>, s: Slot, account: Account)
    requires NoOrphanSlots(database) && Good(m, database, a) && AllPossible(m, database, a, events)
    requires
      var end := End(m, database, a, events);
      end.wiped && Possible(end, a, Commit(account))
    ensures
      var v, end := Fetched(m.cached, database, a, s), End(m, database, a, events);
      Good(Next(end.(slots := Inserted(end.slots, s, v)), database, a, Commit(account)), database, a)
      <==> v == 0 || s in SlotsPut(map[], account)
  {
    var v, end := Fetched(m.cached, database, a, s), End(m, database, a, events);
    EventsAreGood(m, database, a, events);
    hide End, AllPossible, NoOrphanSlots, Fetched;
    WithinCommit(end, database, a, s, v, account);
  }

  lemma WithinCommit(m: Moment, database: World, a: Address, s: Slot, v: Word, account: Account)
    requires NoOrphanSlots(database) && Good(m, database, a) && m.wiped && Possible(m, a, Commit(account))
    ensures
      Good(Next(m.(slots := Inserted(m.slots, s, v)), database, a, Commit(account)), database, a)
      <==> v == 0 || s in SlotsPut(map[], account)
  {
    NextIsGood(m, database, a, Commit(account));
    var clean := Next(m, database, a, Commit(account));
    var late := Next(m.(slots := Inserted(m.slots, s, v)), database, a, Commit(account));
    assert m.slots == map[] && clean.slots == SlotsPut(map[], account);
    CommittedSlot(m.w, a, account, s);
    if s in clean.slots {
      assert late.slots == clean.slots;
    } else {
      assert late.slots == clean.slots[s := v];
      UncachedNext(m, database, a, Commit(account), s);
      assert clean.w.slots(a, s) == 0;
    }
  }

  /** The failing case: a slot of the database, inserted after its account was destroyed, is back. */
  lemma DestroyedSlotReturns(m: Moment, database: World, a: Address, s: Slot, account: Account)
    requires m.cached.Some? && !m.wiped && !StorageKnown(m.cached) && database.slots(a, s) != 0
    requires account.touched && account.selfdestructed && HonestSlots(account, m.w, a)
    ensures AllPossible(m, database, a, [Wipe, Commit(account)])
    ensures
      var end := End(m, database, a, [Wipe, Commit(account)]);
      && Inserted(end.slots, s, Fetched(m.cached, database, a, s))[s] == database.slots(a, s)
      && end.w.slots(a, s) == 0
  {
    var events := [Wipe, Commit(account)];
    assert events[..0] == [] && events[..1] == [Wipe] && [Wipe][..0] == [];
    CommittedSlot(m.w, a, account, s);
  }
}

/** One batch the writer decides, or one operation's stage over it (`commit/batch.rs`). */
module Batches {
  import opened Wrappers
  import opened Records

  /** What `written` leaves of `db`. */
  function Overlay(db: Db, written: map<Key, Option<Value>>): Db {
    (map k | k in db.Keys + written.Keys && (k in written ==> written[k].Some?) ::
       if k in written then written[k].value else db[k])
  }

  /** The queue a key is a held Message's place in, where it is one's. */
  function HeldQueue(key: Key): set<Id> {
    if key.Entry? && key.kind == HeldLine then {key.queue} else {}
  }

  /** The queues with a held Message's place among the keys written. */
  function Touched(written: set<Key>): set<Id> {
    set k | k in written && k.Entry? && k.kind == HeldLine :: k.queue
  }

  lemma TouchedMore(written: set<Key>, more: set<Key>)
    ensures Touched(written + more) == Touched(written) + Touched(more)
  {
  }

  lemma TouchedOne(key: Key)
    ensures Touched({key}) == HeldQueue(key)
  {
    assert key in {key};
  }

  /** The writes of one batch over what the store holds, or of one operation over its batch:
      read back by everything decided after them, and taken by the batch below only whole. */
  class Batch {
    const store: Db
    const below: Batch?
    var written: map<Key, Option<Value>>

    ghost predicate Valid()
      reads this, below
    {
      below != null ==> below != this && below.below == null && below.store == store
    }

    /** The database as this batch, and the batch below it, have left it. */
    ghost function View(): Db
      reads this, below
      requires Valid()
    {
      if below == null then Overlay(store, written)
      else Overlay(Overlay(store, below.written), written)
    }

    /** The queues it wrote a held Message's place of. */
    ghost function Touches(): set<Id>
      reads this`written
    {
      Touched(written.Keys)
    }

    constructor Empty(store: Db)
      ensures Valid() && below == null && this.store == store
      ensures written == map[] && View() == store && Touches() == {}
    {
      this.store := store;
      this.below := null;
      this.written := map[];
    }

    constructor Staged(batch: Batch)
      requires batch.Valid() && batch.below == null
      ensures Valid() && below == batch && store == batch.store
      ensures written == map[] && View() == batch.View() && Touches() == {}
    {
      this.store := batch.store;
      this.below := batch;
      this.written := map[];
    }

    method Get(key: Key) returns (value: Option<Value>)
      requires Valid()
      ensures value == Read(View(), key)
    {
      if key in written {
        value := written[key];
      } else if below != null && key in below.written {
        value := below.written[key];
      } else {
        value := Before(key);
      }
    }

    /** What the store held before the batch, whatever the batch has written since. */
    function Before(key: Key): (value: Option<Value>)
      ensures value == Read(store, key)
    {
      if key in store then Some(store[key]) else None
    }

    method Put(key: Key, value: Option<Value>)
      requires Valid()
      modifies this`written
      ensures Valid()
      ensures View() == Write(old(View()), key, value)
      ensures written == old(written)[key := value] && Touches() == old(Touches()) + HeldQueue(key)
    {
      hide Touched;
      TouchedMore(written.Keys, {key});
      TouchedOne(key);
      assert written[key := value].Keys == written.Keys + {key};
      written := written[key := value];
    }

    /** The whole of one operation's stage taken into its batch. */
    method Absorb(stage: Batch)
      requires Valid() && below == null && stage.Valid() && stage.below == this
      modifies this`written
      ensures Valid() && View() == old(stage.View())
      ensures written == old(written) + stage.written && Touches() == old(Touches()) + stage.Touches()
    {
      hide Touched;
      TouchedMore(written.Keys, stage.written.Keys);
      assert (written + stage.written).Keys == written.Keys + stage.written.Keys;
      written := written + stage.written;
    }
  }
}

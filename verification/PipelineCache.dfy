/**
 * The resident media pipeline cache of runtime/werk_media_companion.py: a bounded list of loaded pipelines, least
 * recently used first, and the requests that load, reuse and give up pipelines.
 */
module PipelineCache {
  import opened Common
  import opened PipelineConfiguration
  import opened RecencyList

  /* ---------- The accelerator ---------- */

  /** Hands out pipelines, numbered as they are loaded, and takes each back at most once. */
  class Accelerator {
    ghost const limit: nat
    var loads: nat
    ghost var live: set<nat>
    ghost var cleaned: set<nat>

    ghost predicate Valid()
      reads this
    {
      && live !! cleaned && |live| <= limit
      && (forall t: nat :: t in live || t in cleaned <==> t < loads)
    }

    constructor (limit: nat)
      ensures Valid() && this.limit == limit && loads == 0 && live == {} && cleaned == {}
    {
      this.limit, loads, live, cleaned := limit, 0, {}, {};
    }

    /** May only be asked for a pipeline while there is room for one more. */
    method Load() returns (pipeline: nat)
      requires Valid() && |live| < limit
      modifies this
      ensures Valid() && pipeline == old(loads) && loads == old(loads) + 1
      ensures live == old(live) + {pipeline} && cleaned == old(cleaned)
    {
      pipeline := loads;
      loads := loads + 1;
      live := live + {pipeline};
    }

    /** May only be given a pipeline that has not been given back before. */
    method Cleanup(pipeline: nat)
      requires Valid() && pipeline in live
      modifies this
      ensures Valid() && loads == old(loads)
      ensures live == old(live) - {pipeline} && cleaned == old(cleaned) + {pipeline}
    {
      live := live - {pipeline};
      cleaned := cleaned + {pipeline};
    }
  }

  /* ---------- Entries ---------- */

  datatype Entry =
    | DiffusersEntry(pipeline: nat, configuration: Option<Configuration>, warnings: seq<string>)
    | AudioEntry(pipeline: nat)

  ghost function Owned(entries: map<Key, Entry>): set<nat> {
    set k | k in entries :: entries[k].pipeline
  }

  /** No pipeline is in two slots. */
  ghost predicate OneSlotEach(entries: map<Key, Entry>) {
    forall a: Key, b: Key :: a in entries && b in entries && a != b ==> entries[a].pipeline != entries[b].pipeline
  }

  ghost predicate ListedIn(order: seq<Key>, entries: map<Key, Entry>) {
    NoDuplicates(order) && forall k: Key :: k in order <==> k in entries
  }

  lemma {:induction false} OwnedSize(order: seq<Key>, entries: map<Key, Entry>)
    requires ListedIn(order, entries) && OneSlotEach(entries)
    ensures |Owned(entries)| == |order|
  {
    if order != [] {
      ListedAfterFirst(order, entries);
      OwnedWithout(entries, order[0]);
      OwnedSize(order[1..], entries - {order[0]});
    } else {
      assert Owned(entries) == {};
    }
  }

  lemma ListedAfterFirst(order: seq<Key>, entries: map<Key, Entry>)
    requires ListedIn(order, entries) && order != []
    ensures order[0] in entries && ListedIn(order[1..], entries - {order[0]})
  {
    assert order == [order[0]] + order[1..];
    assert order[0] !in order[1..];
  }

  lemma OwnedWithout(entries: map<Key, Entry>, k: Key)
    requires k in entries && OneSlotEach(entries)
    ensures OneSlotEach(entries - {k})
    ensures Owned(entries) == Owned(entries - {k}) + {entries[k].pipeline}
    ensures entries[k].pipeline !in Owned(entries - {k})
  {
    var rest := entries - {k};
    forall t: nat | t in Owned(entries) ensures t in Owned(rest) + {entries[k].pipeline} {
      var a: Key :| a in entries && entries[a].pipeline == t;
      if a != k {
        assert a in rest && rest[a].pipeline == t;
      }
    }
    assert entries[k].pipeline in Owned(entries);
  }

  lemma OwnedWith(entries: map<Key, Entry>, k: Key, e: Entry)
    requires k !in entries && OneSlotEach(entries) && e.pipeline !in Owned(entries)
    ensures OneSlotEach(entries[k := e])
    ensures Owned(entries[k := e]) == Owned(entries) + {e.pipeline}
  {
    var after := entries[k := e];
    forall a: Key | a in entries ensures entries[a].pipeline in Owned(entries) {
    }
    forall t: nat | t in Owned(entries) + {e.pipeline} ensures t in Owned(after) {
      if t == e.pipeline {
        assert after[k].pipeline == t;
      } else {
        var a: Key :| a in entries && entries[a].pipeline == t;
        assert after[a].pipeline == t;
      }
    }
  }

  lemma ListedWithout(order: seq<Key>, entries: map<Key, Entry>, k: Key)
    requires ListedIn(order, entries)
    ensures ListedIn(Drop(order, k), entries - {k})
    ensures k in entries ==> |Drop(order, k)| == |order| - 1
  {
    DropIs(order, k);
    DropKeepsDistinct(order, k);
  }

  lemma ListedWith(order: seq<Key>, entries: map<Key, Entry>, k: Key, e: Entry)
    requires ListedIn(order, entries) && k !in entries
    ensures ListedIn(order + [k], entries[k := e])
  {
    assert k !in order;
  }

  /** What is left when the oldest slots are given up. */
  ghost function Only(entries: map<Key, Entry>, keys: seq<Key>): map<Key, Entry> {
    map k | k in entries && k in keys :: entries[k]
  }

  /** Each slot owns a live pipeline of its own, and the slots stand in the order of their last use. */
  ghost predicate Tidy(order: seq<Key>, entries: map<Key, Entry>, uses: seq<Key>, live: set<nat>) {
    && ListedIn(order, entries) && OneSlotEach(entries) && Owned(entries) <= live
    && order == Restrict(Recent(uses), entries.Keys)
  }

  lemma TidyWithout(order: seq<Key>, entries: map<Key, Entry>, uses: seq<Key>, live: set<nat>, k: Key)
    requires Tidy(order, entries, uses, live) && k in entries
    ensures Tidy(Drop(order, k), entries - {k}, uses, live - {entries[k].pipeline})
    ensures entries[k].pipeline in live && |Drop(order, k)| == |order| - 1
    ensures live - {entries[k].pipeline} - Owned(entries - {k}) == live - Owned(entries)
  {
    OwnedWithout(entries, k);
    ListedWithout(order, entries, k);
    RestrictDropped(Recent(uses), entries.Keys, k);
    assert (entries - {k}).Keys == entries.Keys - {k};
  }

  lemma OrderWith(order: seq<Key>, uses: seq<Key>, keep: set<Key>, k: Key)
    requires order == Restrict(Recent(uses), keep) && k !in order
    ensures order + [k] == Restrict(Recent(uses + [k]), keep + {k})
  {
    RestrictTouched(uses, keep, k);
    DropIs(order, k);
  }

  lemma TakenOver(live: set<nat>, owned: set<nat>, t: nat)
    requires owned <= live && t in live - owned
    ensures owned + {t} <= live
    ensures live - (owned + {t}) == live - owned - {t}
  {
  }

  lemma TidyWith(order: seq<Key>, entries: map<Key, Entry>, uses: seq<Key>, live: set<nat>, k: Key, e: Entry)
    requires Tidy(order, entries, uses, live) && k !in entries && e.pipeline in live - Owned(entries)
    ensures Tidy(order + [k], entries[k := e], uses + [k], live)
    ensures live - Owned(entries[k := e]) == live - Owned(entries) - {e.pipeline}
  {
    OwnedWith(entries, k, e);
    ListedWith(order, entries, k, e);
    OrderWith(order, uses, entries.Keys, k);
    TakenOver(live, Owned(entries), e.pipeline);
    assert entries[k := e].Keys == entries.Keys + {k};
  }

  lemma TidyLoaded(order: seq<Key>, entries: map<Key, Entry>, uses: seq<Key>, live: set<nat>, t: nat)
    requires Tidy(order, entries, uses, live) && t !in live
    ensures Tidy(order, entries, uses, live + {t})
    ensures live + {t} - Owned(entries) == live - Owned(entries) + {t}
  {
  }

  lemma TidyCleaned(order: seq<Key>, entries: map<Key, Entry>, uses: seq<Key>, live: set<nat>, t: nat)
    requires Tidy(order, entries, uses, live) && t in live - Owned(entries)
    ensures Tidy(order, entries, uses, live - {t})
    ensures live - {t} - Owned(entries) == live - Owned(entries) - {t}
  {
  }

  lemma TidyTouched(order: seq<Key>, entries: map<Key, Entry>, uses: seq<Key>, live: set<nat>, k: Key)
    requires Tidy(order, entries, uses, live) && k in entries
    ensures Tidy(Drop(order, k) + [k], entries, uses + [k], live)
    ensures |Drop(order, k) + [k]| == |order|
  {
    ListedWithout(order, entries, k);
    ListedWith(Drop(order, k), entries - {k}, k, entries[k]);
    assert (entries - {k})[k := entries[k]] == entries;
    RestrictTouched(uses, entries.Keys, k);
    assert entries.Keys + {k} == entries.Keys;
  }

  /* ---------- The cache ---------- */

  class DiffusersPipelineCache {
    const maxSize: nat
    const device: Accelerator
    var order: seq<Key>
    var entries: map<Key, Entry>
    ghost var uses: seq<Key>

    constructor (maxSize: nat, device: Accelerator)
      requires device.Valid() && device.limit == Max(1, maxSize)
      ensures Valid() && order == [] && uses == [] && this.maxSize == maxSize && this.device == device
      ensures InFlight() == device.live
    {
      this.maxSize, this.device, order, entries, uses := maxSize, device, [], map[], [];
    }

    ghost predicate Valid()
      reads this, device
    {
      Consistent() && |order| <= maxSize
    }

    /** Everything but the bound, which a put exceeds until it has trimmed the list. */
    ghost predicate Consistent()
      reads this, device
    {
      && device.Valid() && device.limit == Max(1, maxSize)
      && Tidy(order, entries, uses, device.live)
    }

    /** Loaded, not resident and not yet cleaned: owned by the request being served. */
    ghost function InFlight(): set<nat>
      reads this, device
    {
      device.live - Owned(entries)
    }

    /** Loads a pipeline for the request being served. */
    method LoadInFlight() returns (pipeline: nat)
      requires Valid() && InFlight() == {} && |order| < Max(1, maxSize)
      modifies device
      ensures Valid() && InFlight() == {pipeline}
    {
      OwnedSize(order, entries);
      NoneInFlight(device.live, Owned(entries));
      TidyLoaded(order, entries, uses, device.live, device.loads);
      pipeline := device.Load();
    }

    /** Cleans up the pipeline of the request being served. */
    method CleanInFlight(pipeline: nat)
      requires Valid() && InFlight() == {pipeline}
      modifies device
      ensures Valid() && InFlight() == {}
    {
      assert pipeline in InFlight();
      TidyCleaned(order, entries, uses, device.live, pipeline);
      device.Cleanup(pipeline);
    }

    /** The pop and cleanup that every way of giving up a slot comes down to. */
    method Release(key: Key)
      requires Consistent() && key in entries
      modifies this`order, this`entries, device
      ensures Consistent() && InFlight() == old(InFlight()) && device.loads == old(device.loads)
      ensures order == Drop(old(order), key) && entries == old(entries) - {key}
      ensures |order| == |old(order)| - 1
    {
      var entry := entries[key];
      TidyWithout(order, entries, uses, device.live, key);
      order, entries := Drop(order, key), entries - {key};
      device.Cleanup(entry.pipeline);
    }

    /** Gives up oldest slots until at most `room` are left. */
    method ReleaseOldest(room: nat)
      requires Consistent()
      modifies this`order, this`entries, device
      ensures Consistent() && InFlight() == old(InFlight()) && device.loads == old(device.loads)
      ensures order == Newest(old(order), room) && entries == Only(old(entries), order)
    {
      ghost var was, had := order, entries;
      OnlyAll(had, order);
      while |order| > room
        invariant Consistent() && InFlight() == old(InFlight()) && device.loads == old(device.loads)
        invariant |order| <= |was| && order == was[|was| - |order|..]
        invariant |order| < |was| ==> |order| >= room
        invariant entries == Only(had, order)
      {
        DroppingTheFirst(order, entries);
        OnlyTheLater(had, order);
        Release(order[0]);
      }
      IsNewest(was, order, room);
    }

    /** `get`. */
    method Get(key: Key) returns (entry: Option<Entry>)
      requires Valid()
      modifies this`order, this`uses
      ensures Valid() && InFlight() == old(InFlight())
      ensures entry == if key in entries then Some(entries[key]) else None
      ensures order == if key in entries then Drop(old(order), key) + [key] else old(order)
      ensures uses == if key in entries then old(uses) + [key] else old(uses)
    {
      if key !in entries {
        return None;
      }
      TidyTouched(order, entries, uses, device.live, key);
      order := Drop(order, key) + [key];
      uses := uses + [key];
      return Some(entries[key]);
    }

    /** `prepare_for_load`. */
    method PrepareForLoad(key: Key)
      requires Valid()
      modifies this`order, this`entries, device
      ensures Valid() && InFlight() == old(InFlight()) && device.loads == old(device.loads)
      ensures order == if maxSize == 0 || key in old(entries) then old(order) else Newest(old(order), maxSize - 1)
      ensures entries == Only(old(entries), order)
    {
      if maxSize == 0 || key in entries {
        return;
      }
      ReleaseOldest(maxSize - 1);
    }

    method Append(key: Key, entry: Entry)
      requires Consistent() && key !in entries && entry.pipeline in InFlight()
      modifies this
      ensures Consistent() && InFlight() == old(InFlight()) - {entry.pipeline}
      ensures order == old(order) + [key] && entries == old(entries)[key := entry] && uses == old(uses) + [key]
    {
      TidyWith(order, entries, uses, device.live, key, entry);
      order, entries, uses := order + [key], entries[key := entry], uses + [key];
    }

    /** The new entry takes the place of any old one under its key, as the youngest. */
    method Replace(key: Key, entry: Entry)
      requires Consistent() && entry.pipeline in InFlight()
      modifies this, device
      ensures Consistent() && device.loads == old(device.loads)
      ensures InFlight() == old(InFlight()) - {entry.pipeline}
      ensures order == Drop(old(order), key) + [key] && uses == old(uses) + [key]
      ensures entries == old(entries)[key := entry]
    {
      DropIs(order, key);
      if key in entries {
        Release(key);
      }
      assert order == Drop(old(order), key);
      Append(key, entry);
    }

    /** `put`. */
    method Put(key: Key, entry: Entry) returns (stored: bool)
      requires Valid() && entry.pipeline in InFlight()
      modifies this, device
      ensures Valid() && device.loads == old(device.loads)
      ensures stored == (maxSize > 0)
      ensures InFlight() == if stored then old(InFlight()) - {entry.pipeline} else old(InFlight())
      ensures stored ==>
        && order == Newest(Drop(old(order), key) + [key], maxSize)
        && entries == Only(old(entries)[key := entry], order)
        && uses == old(uses) + [key]
      ensures !stored ==> order == old(order) && entries == old(entries) && uses == old(uses)
    {
      if maxSize == 0 {
        return false;
      }
      Replace(key, entry);
      ReleaseOldest(maxSize);
      stored := true;
    }

    /** `evict`. */
    method Evict(key: Key) returns (found: bool)
      requires Valid()
      modifies this`order, this`entries, device
      ensures Valid() && InFlight() == old(InFlight()) && device.loads == old(device.loads)
      ensures found == (key in old(entries))
      ensures order == Drop(old(order), key) && entries == old(entries) - {key}
    {
      DropIs(order, key);
      found := key in entries;
      if found {
        Release(key);
      }
    }

    /** `clear`. */
    method Clear()
      requires Valid()
      modifies this`order, this`entries, device
      ensures Valid() && InFlight() == old(InFlight()) && device.loads == old(device.loads)
      ensures order == [] && entries == map[]
    {
      ReleaseOldest(0);
    }
  }

  lemma DroppingTheFirst(order: seq<Key>, entries: map<Key, Entry>)
    requires ListedIn(order, entries) && order != []
    ensures Drop(order, order[0]) == order[1..] && order[0] in entries
  {
    DropIs(order[1..], order[0]);
  }

  lemma OnlyTheLater(had: map<Key, Entry>, order: seq<Key>)
    requires NoDuplicates(order) && order != []
    ensures Only(had, order) - {order[0]} == Only(had, order[1..])
  {
    assert order == [order[0]] + order[1..];
  }

  lemma OnlyAll(had: map<Key, Entry>, order: seq<Key>)
    requires ListedIn(order, had)
    ensures Only(had, order) == had
  {
  }

  lemma IsNewest(was: seq<Key>, order: seq<Key>, room: nat)
    requires |order| <= |was| && order == was[|was| - |order|..] && |order| <= room
    requires |order| < |was| ==> |order| >= room
    ensures order == Newest(was, room)
  {
  }

  lemma NoneInFlight(live: set<nat>, owned: set<nat>)
    requires owned <= live && live - owned == {}
    ensures live == owned
  {
    forall t | t in live ensures t in owned {
      assert t !in live - owned;
    }
  }
}

/** The file store of src/file_store.rs: staged publication, quotas and expiry under one lock. */
module FileStore {
  import opened Common
  import opened FileMetadata

  /** A file inside an entry's directory: not there, torn by a crash, or complete. */
  datatype Written<+T> = Missing | Torn | Whole(value: T)

  datatype Entry = Entry(metadata: Written<Meta>, data: Written<Bytes>)

  datatype Key = Key(principal: string, name: string)

  type Entries = map<Key, Entry>

  datatype StoreError = Rejected | QuotaExceeded | NotFound | SafetyLimit | InvalidMetadata | Io | Crashed

  /** A complete file under its own id. */
  predicate Complete(k: Key, e: Entry) {
    && FileId(k.name) && e.metadata.Whole? && e.metadata.value.id == k.name
    && e.data.Whole? && |e.data.value| == e.metadata.value.bytes <= MAX_FILE_BYTES
  }

  function FilesOf(entries: Entries): Entries {
    map k | k in entries && !IsStage(k.name) :: entries[k]
  }

  function OwnedBy(entries: Entries, principal: string): Entries {
    map k | k in entries && k.principal == principal :: entries[k]
  }

  /* ---------- Sums over a finite map ---------- */

  function SizeOf(e: Entry): nat {
    if e.metadata.Whole? then e.metadata.value.bytes else 0
  }

  ghost function TotalBytes(entries: Entries): nat {
    if entries == map[] then 0
    else
      var k :| k in entries;
      SizeOf(entries[k]) + TotalBytes(entries - {k})
  }

  lemma {:induction false} TotalBytesRemove(entries: Entries, k: Key)
    requires k in entries
    ensures TotalBytes(entries) == SizeOf(entries[k]) + TotalBytes(entries - {k})
    decreases |entries|
  {
    var j :| j in entries && TotalBytes(entries) == SizeOf(entries[j]) + TotalBytes(entries - {j});
    if j != k {
      TotalBytesRemove(entries - {j}, k);
      TotalBytesRemove(entries - {k}, j);
      assert entries - {j} - {k} == entries - {k} - {j};
    }
  }

  lemma TotalBytesAdd(entries: Entries, k: Key, e: Entry)
    requires k !in entries
    ensures TotalBytes(entries[k := e]) == TotalBytes(entries) + SizeOf(e)
  {
    TotalBytesRemove(entries[k := e], k);
    assert entries[k := e] - {k} == entries;
  }

  ghost predicate Within(fewer: Entries, more: Entries) {
    forall k :: k in fewer ==> k in more && fewer[k] == more[k]
  }

  lemma {:induction false} WithinSmaller(fewer: Entries, more: Entries)
    requires Within(fewer, more)
    ensures |fewer| <= |more| && TotalBytes(fewer) <= TotalBytes(more)
    decreases |fewer|
  {
    if fewer != map[] {
      var k :| k in fewer;
      WithinSmaller(fewer - {k}, more - {k});
      TotalBytesRemove(fewer, k);
      TotalBytesRemove(more, k);
    }
  }

  lemma {:induction false} SubsetSize<T>(a: set<T>, b: set<T>)
    requires a <= b
    ensures |a| <= |b|
  {
    if a != {} {
      var x :| x in a;
      SubsetSize(a - {x}, b - {x});
    }
  }

  function Principals(entries: Entries): set<string> {
    set k | k in entries :: k.principal
  }

  lemma {:induction false} PrincipalsCount(entries: Entries)
    ensures |Principals(entries)| <= |entries|
    decreases |entries|
  {
    if entries != map[] {
      var k :| k in entries;
      var rest := entries - {k};
      PrincipalsCount(rest);
      assert Principals(entries) == Principals(rest) + {k.principal};
    }
  }

  /* ---------- What every reachable store keeps ---------- */

  ghost predicate QuotasHold(files: Entries) {
    && |files| <= MAX_FILES && TotalBytes(files) <= MAX_STORE_BYTES
    && forall p :: PrincipalQuota(files, p)
  }

  ghost predicate PrincipalQuota(files: Entries, p: string) {
    |OwnedBy(files, p)| <= MAX_PRINCIPAL_FILES && TotalBytes(OwnedBy(files, p)) <= MAX_PRINCIPAL_BYTES
  }

  predicate SameStage(j: Key, k: Key) {
    IsStage(j.name) && IsStage(k.name) ==> j == k
  }

  /** Only complete files, at most one abandoned stage, quotas kept, and few enough directories for the scan. */
  ghost predicate Sound(spaces: set<string>, entries: Entries) {
    && (forall p :: p in spaces ==> SafeComponent(p))
    && (forall k :: k in entries ==> k.principal in spaces && (IsStage(k.name) || Complete(k, entries[k])))
    && (forall j, k :: j in entries && k in entries ==> SameStage(j, k))
    && QuotasHold(FilesOf(entries))
    && |spaces| <= MAX_FILES && |entries| <= MAX_FILES
  }

  ghost predicate AllReadable(entries: Entries) {
    forall k :: k in entries && !IsStage(k.name) ==> entries[k].metadata.Whole? && Readable(entries[k].metadata.value)
  }

  /** Readable metadata whose time of expiry is `earliest` or before. */
  predicate LongExpired(e: Entry, earliest: nat) {
    && e.metadata.Whole? && Readable(e.metadata.value)
    && e.metadata.value.expiresAt.Some? && e.metadata.value.expiresAt.value <= earliest
  }

  /** The file was there, its time of expiry was `horizon` at the latest, and it alone is gone. */
  ghost predicate GoneBy(before: Entries, after: Entries, k: Key, horizon: nat) {
    k in before && LongExpired(before[k], horizon) && after == before - {k}
  }

  predicate UnreadableMetadata(e: Entry) {
    e.metadata.Whole? && !Readable(e.metadata.value)
  }

  predicate Expired(e: Entry, now: nat) {
    e.metadata.Whole? && ExpiredAt(e.metadata.value, now)
  }

  /** Nothing here has been expired since `earliest`. */
  ghost predicate Fresh(entries: Entries, earliest: nat) {
    forall k :: k in entries ==> !Expired(entries[k], earliest)
  }

  /** Expired, and readable enough for the store to notice. */
  predicate Reclaimable(e: Entry, now: nat) {
    Expired(e, now) && Readable(e.metadata.value)
  }

  /** Only stages and files expired by `horizon` are gone, and nothing is changed. */
  ghost predicate OnlyExpiredGone(before: Entries, after: Entries, horizon: nat) {
    && Within(after, before)
    && forall k :: k in before && k !in after ==> IsStage(k.name) || Reclaimable(before[k], horizon)
  }

  /** Every file not expired by `horizon` is still there, unchanged. */
  ghost predicate Kept(before: Entries, after: Entries, horizon: nat) {
    forall k :: k in before && !IsStage(k.name) && !Expired(before[k], horizon) ==> k in after && after[k] == before[k]
  }

  lemma QuotasShrink(fewer: Entries, more: Entries)
    requires Within(fewer, more) && QuotasHold(more)
    ensures QuotasHold(fewer)
  {
    WithinSmaller(fewer, more);
    forall p ensures PrincipalQuota(fewer, p) {
      assert PrincipalQuota(more, p);
      WithinSmaller(OwnedBy(fewer, p), OwnedBy(more, p));
    }
  }

  lemma SoundShrinks(spaces: set<string>, entries: Entries, fewerSpaces: set<string>, fewer: Entries)
    requires Sound(spaces, entries) && fewerSpaces <= spaces && Within(fewer, entries)
    requires forall k :: k in fewer ==> k.principal in fewerSpaces
    ensures Sound(fewerSpaces, fewer)
  {
    QuotasShrink(FilesOf(fewer), FilesOf(entries));
    SubsetSize(fewerSpaces, spaces);
    WithinSmaller(fewer, entries);
  }

  /* ---------- What a scan returns ---------- */

  datatype Found = Found(principal: string, meta: Meta)

  function KeyOf(f: Found): Key {
    Key(f.principal, f.meta.id)
  }

  /** `found` lists exactly the files of `entries`, each once. */
  ghost predicate Lists(found: seq<Found>, entries: Entries) {
    && |found| == |entries|
    && (forall i :: 0 <= i < |found| ==>
          KeyOf(found[i]) in entries && entries[KeyOf(found[i])].metadata == Whole(found[i].meta))
    && (forall i, j :: 0 <= i < j < |found| ==> KeyOf(found[i]) != KeyOf(found[j]))
  }

  function BytesOf(found: seq<Found>): nat {
    if found == [] then 0 else BytesOf(found[..|found| - 1]) + found[|found| - 1].meta.bytes
  }

  function Owned(found: seq<Found>, principal: string): seq<Found> {
    if found == [] then []
    else
      var last := found[|found| - 1];
      Owned(found[..|found| - 1], principal) + (if last.principal == principal then [last] else [])
  }

  lemma ListsPush(found: seq<Found>, entries: Entries, f: Found, e: Entry)
    requires Lists(found, entries) && KeyOf(f) !in entries && e.metadata == Whole(f.meta)
    ensures Lists(found + [f], entries[KeyOf(f) := e])
  {
  }

  lemma ListsPop(found: seq<Found>, entries: Entries)
    requires found != [] && Lists(found, entries)
    ensures Lists(found[..|found| - 1], entries - {KeyOf(found[|found| - 1])})
  {
  }

  /** The vector's length and sums are the map's. */
  lemma {:induction false} ListedTotals(found: seq<Found>, entries: Entries)
    requires Lists(found, entries)
    ensures BytesOf(found) == TotalBytes(entries)
  {
    if found != [] {
      var k := KeyOf(found[|found| - 1]);
      ListsPop(found, entries);
      ListedTotals(found[..|found| - 1], entries - {k});
      TotalBytesRemove(entries, k);
    }
  }

  lemma {:induction false} ListedOwned(found: seq<Found>, entries: Entries, p: string)
    requires Lists(found, entries)
    ensures Lists(Owned(found, p), OwnedBy(entries, p))
    ensures forall i :: 0 <= i < |Owned(found, p)| ==> Owned(found, p)[i].principal == p
  {
    if found != [] {
      var f := found[|found| - 1];
      ListsPop(found, entries);
      var rest := entries - {KeyOf(f)};
      ListedOwned(found[..|found| - 1], rest, p);
      if f.principal == p {
        ListsPush(Owned(found[..|found| - 1], p), OwnedBy(rest, p), f, entries[KeyOf(f)]);
        assert OwnedBy(entries, p) == OwnedBy(rest, p)[KeyOf(f) := entries[KeyOf(f)]];
      } else {
        assert OwnedBy(entries, p) == OwnedBy(rest, p);
      }
    }
  }

  /* ---------- The store ---------- */

  function InSpace(entries: Entries, space: string): set<Key> {
    set k | k in entries && k.principal == space
  }

  ghost predicate SameElsewhere(a: Entries, b: Entries, space: string) {
    forall k: Key :: k.principal != space ==> (k in a <==> k in b)
  }

  lemma SameElsewhereStep(start: Entries, before: Entries, after: Entries, k: Key)
    requires SameElsewhere(before, start, k.principal) && (after == before || after == before - {k})
    ensures SameElsewhere(after, start, k.principal)
  {
  }

  lemma VisitsLeft<T>(seen: set<T>, k: T, all: set<T>)
    requires seen <= all && k in all && k !in seen
    ensures |seen| + 1 == |seen + {k}| <= |all|
  {
    SubsetSize(seen + {k}, all);
  }

  /** Halfway through a set of items: each is either seen or still to do. */
  ghost predicate Halfway<T>(seen0: set<T>, all: set<T>, seen: set<T>, todo: set<T>) {
    todo <= all && seen !! todo && seen + todo == seen0 + all
  }

  lemma HalfwayStep<T>(seen0: set<T>, all: set<T>, seen: set<T>, todo: set<T>, x: T)
    requires Halfway(seen0, all, seen, todo) && x in todo
    ensures Halfway(seen0, all, seen + {x}, todo - {x}) && |seen + {x}| == |seen| + 1
  {
  }

  lemma UnseenSpace(before: Entries, spaces: set<string>, entries: Entries, kept: Entries, seen: set<Key>,
                    horizon: nat, space: string)
    requires Scanning(before, spaces, entries, kept, seen, horizon) && forall k :: k in seen ==> k.principal != space
    ensures Halfway(seen, InSpace(before, space), seen, InSpace(entries, space))
  {
    assert InSpace(entries, space) == InSpace(before, space);
  }

  /** What a scan has done so far: `seen` entries of `seenSpaces`, the survivors of which are `kept`. */
  ghost predicate Scanning(before: Entries, spaces: set<string>, entries: Entries, kept: Entries,
                           seen: set<Key>, horizon: nat)
  {
    && OnlyExpiredGone(before, entries, horizon)
    && (forall k :: k in entries ==> k.principal in spaces)
    && seen <= before.Keys && (forall k :: k in before && k !in seen ==> k in entries)
    && (forall k :: k in kept <==> k in entries && k in seen) && Within(kept, entries)
    && (forall k :: k in kept ==> !IsStage(k.name)) && AllReadable(kept)
  }

  lemma ScanningRemoved(before: Entries, spaces: set<string>, entries: Entries, kept: Entries, seen: set<Key>,
                        horizon: nat, k: Key)
    requires Scanning(before, spaces, entries, kept, seen, horizon)
    requires k in before && k !in seen && (IsStage(k.name) || Reclaimable(before[k], horizon))
    ensures Scanning(before, spaces, entries - {k}, kept, seen + {k}, horizon)
  {
  }

  lemma ScanningKept(before: Entries, spaces: set<string>, entries: Entries, kept: Entries, seen: set<Key>,
                     horizon: nat, k: Key)
    requires Scanning(before, spaces, entries, kept, seen, horizon)
    requires k in before && k !in seen && !IsStage(k.name)
    requires before[k].metadata.Whole? && Readable(before[k].metadata.value)
    ensures Scanning(before, spaces, entries, kept[k := before[k]], seen + {k}, horizon)
  {
  }

  /** The outer loop: directories seen hold exactly the seen entries, and the empty ones among them are gone. */
  ghost predicate ScanningSpaces(before: Entries, all: set<string>, spaces: set<string>, entries: Entries,
                                 seen: set<Key>, seenSpaces: set<string>, todo: set<string>)
  {
    && spaces <= all && Halfway({}, all, seenSpaces, todo) && todo <= spaces
    && seen == (set k | k in before && k.principal in seenSpaces)
    && (forall p :: p in spaces && p in seenSpaces ==> InSpace(entries, p) != {})
  }

  lemma SpaceDone(before: Entries, all: set<string>, spaces0: set<string>, entries0: Entries, seen0: set<Key>,
                  seenSpaces: set<string>, todo: set<string>, space: string,
                  spaces: set<string>, entries: Entries, seen: set<Key>)
    requires ScanningSpaces(before, all, spaces0, entries0, seen0, seenSpaces, todo) && space in todo
    requires seen == seen0 + InSpace(before, space)
    requires SameElsewhere(entries, entries0, space)
    requires spaces == if InSpace(entries, space) == {} then spaces0 - {space} else spaces0
    ensures ScanningSpaces(before, all, spaces, entries, seen, seenSpaces + {space}, todo - {space})
    ensures |seenSpaces + {space}| == |seenSpaces| + 1
  {
    HalfwayStep({}, all, seenSpaces, todo, space);
    forall p | p in spaces && p in seenSpaces + {space} ensures InSpace(entries, p) != {} {
      if p != space {
        assert InSpace(entries, p) == InSpace(entries0, p);
      }
    }
  }

  lemma ScanningWithoutSpace(before: Entries, spaces: set<string>, entries: Entries, kept: Entries, seen: set<Key>,
                             horizon: nat, space: string)
    requires Scanning(before, spaces, entries, kept, seen, horizon) && InSpace(entries, space) == {}
    ensures Scanning(before, spaces - {space}, entries, kept, seen, horizon)
  {
    forall k | k in entries ensures k.principal != space {
      assert k !in InSpace(entries, space);
    }
  }

  /** The visits so far and the ones still to come stay below the scan's own limit. */
  lemma ScanLeft(before: Entries, all: set<string>, spaces: set<string>, entries: Entries,
                 seen: set<Key>, seenSpaces: set<string>, todo: set<string>, space: string)
    requires Sound(all, before) && space in todo
    requires ScanningSpaces(before, all, spaces, entries, seen, seenSpaces, todo)
    ensures |seenSpaces + {space}| == |seenSpaces| + 1 && |seen| <= |before.Keys|
    ensures 1 + |seenSpaces| + 1 + |before.Keys| <= 2 * MAX_FILES + 1 < MAX_VISITS
  {
    VisitsLeft(seenSpaces, space, all);
    SubsetSize(seen, before.Keys);
    assert |before.Keys| == |before|;
  }

  /** After a scan: no stage is left, and exactly the directories with files in them. */
  ghost predicate Swept(spaces: set<string>, entries: Entries) {
    && (forall k :: k in entries ==> !IsStage(k.name))
    && spaces == Principals(entries)
  }

  lemma AllSpacesDone(before: Entries, all: set<string>, spaces: set<string>, entries: Entries, kept: Entries,
                      seen: set<Key>, seenSpaces: set<string>, horizon: nat)
    requires ScanningSpaces(before, all, spaces, entries, seen, seenSpaces, {})
    requires Scanning(before, spaces, entries, kept, seen, horizon)
    requires forall k :: k in before ==> k.principal in all
    ensures kept == entries && Swept(spaces, entries) && AllReadable(entries)
  {
    assert seenSpaces == all;
    assert seen == before.Keys;
    forall p | p in spaces ensures p in Principals(entries) {
      var k :| k in InSpace(entries, p);
    }
  }

  /** The inner loop over one directory, which touches no other. */
  ghost predicate SpaceLoop(before: Entries, spaces: set<string>, entries: Entries, kept: Entries, seen: set<Key>,
                            horizon: nat, space: string, seen0: set<Key>, todo: set<Key>, start: Entries)
  {
    && Scanning(before, spaces, entries, kept, seen, horizon)
    && Halfway(seen0, InSpace(before, space), seen, todo)
    && SameElsewhere(entries, start, space)
  }

  lemma SpaceLoopStart(before: Entries, spaces: set<string>, entries: Entries, kept: Entries, seen: set<Key>,
                       horizon: nat, space: string)
    requires Scanning(before, spaces, entries, kept, seen, horizon) && forall k :: k in seen ==> k.principal != space
    ensures SpaceLoop(before, spaces, entries, kept, seen, horizon, space, seen, InSpace(entries, space), entries)
  {
    UnseenSpace(before, spaces, entries, kept, seen, horizon, space);
  }

  lemma SpaceLoopNext(before: Entries, spaces: set<string>, left: Entries, keptBefore: Entries, seen: set<Key>,
                      horizon: nat, space: string, seen0: set<Key>, todo: set<Key>, start: Entries,
                      k: Key, entries: Entries, kept: Entries)
    requires SpaceLoop(before, spaces, left, keptBefore, seen, horizon, space, seen0, todo, start) && k in todo
    requires Scanning(before, spaces, entries, kept, seen + {k}, horizon) && (entries == left || entries == left - {k})
    ensures SpaceLoop(before, spaces, entries, kept, seen + {k}, horizon, space, seen0, todo - {k}, start)
    ensures |seen + {k}| == |seen| + 1
  {
    HalfwayStep(seen0, InSpace(before, space), seen, todo, k);
    SameElsewhereStep(start, left, entries, k);
  }

  lemma SpaceLoopItem(before: Entries, spaces: set<string>, entries: Entries, kept: Entries, seen: set<Key>,
                      horizon: nat, space: string, seen0: set<Key>, todo: set<Key>, start: Entries, k: Key)
    requires SpaceLoop(before, spaces, entries, kept, seen, horizon, space, seen0, todo, start) && k in todo
    ensures k in before && k !in seen && k.principal == space && |seen| + 1 <= |before.Keys|
    ensures Scanning(before, spaces, entries, kept, seen, horizon)
  {
    VisitsLeft(seen, k, before.Keys);
  }

  /** The quota `put` checks before it publishes. */
  ghost predicate RoomFor(files: Entries, principal: string, bytes: nat) {
    && |files| < MAX_FILES && |OwnedBy(files, principal)| < MAX_PRINCIPAL_FILES
    && TotalBytes(files) + bytes <= MAX_STORE_BYTES
    && TotalBytes(OwnedBy(files, principal)) + bytes <= MAX_PRINCIPAL_BYTES
  }

  /** The check as `put` computes it from the scan's vector. */
  predicate QuotaAllows(found: seq<Found>, principal: string, bytes: nat) {
    var owned := Owned(found, principal);
    && |found| < MAX_FILES && |owned| < MAX_PRINCIPAL_FILES
    && BytesOf(found) + bytes <= MAX_STORE_BYTES && BytesOf(owned) + bytes <= MAX_PRINCIPAL_BYTES
  }

  lemma QuotaMeans(found: seq<Found>, entries: Entries, principal: string, bytes: nat)
    requires Lists(found, entries)
    ensures QuotaAllows(found, principal, bytes) <==> RoomFor(entries, principal, bytes)
  {
    ListedTotals(found, entries);
    ListedOwned(found, entries, principal);
    ListedTotals(Owned(found, principal), OwnedBy(entries, principal));
  }

  /** Room is never lost by a scan. */
  lemma RoomStays(before: Entries, after: Entries, principal: string, bytes: nat)
    requires Within(after, before) && (forall k :: k in after ==> !IsStage(k.name))
    requires RoomFor(FilesOf(before), principal, bytes)
    ensures RoomFor(after, principal, bytes)
  {
    var files := FilesOf(before);
    assert Within(after, files);
    WithinSmaller(after, files);
    assert Within(OwnedBy(after, principal), OwnedBy(files, principal));
    WithinSmaller(OwnedBy(after, principal), OwnedBy(files, principal));
  }

  lemma QuotaDecides(found: seq<Found>, before: Entries, after: Entries, principal: string, bytes: nat)
    requires Lists(found, after) && Within(after, before) && forall k :: k in after ==> !IsStage(k.name)
    ensures QuotaAllows(found, principal, bytes) <==> RoomFor(after, principal, bytes)
    ensures RoomFor(FilesOf(before), principal, bytes) ==> RoomFor(after, principal, bytes)
  {
    QuotaMeans(found, after, principal, bytes);
    if RoomFor(FilesOf(before), principal, bytes) {
      RoomStays(before, after, principal, bytes);
    }
  }

  /** The reasons for which an upload may be turned away under the lock. */
  ghost predicate Refused(error: StoreError, before: Entries, principal: string, bytes: nat) {
    match error
    case Rejected => !SafeComponent(principal)
    case QuotaExceeded => !RoomFor(FilesOf(before), principal, bytes)
    case InvalidMetadata => !AllReadable(before)
    case Io => true
    case _ => false
  }

  /** What an upload must be by itself. */
  predicate AcceptableUpload(principal: string, filename: string, mimeType: string, expiresAt: Option<u64>,
                             data: Bytes, horizon: nat)
  {
    && SafeComponent(principal) && 0 < |data| <= MAX_FILE_BYTES && FilenameOk(filename) && MimeTypeOk(mimeType)
    && (expiresAt.Some? ==> expiresAt.value > horizon)
  }

  /** Creating a principal's directory after a scan. */
  lemma SpaceIsSound(spaces: set<string>, entries: Entries, principal: string)
    requires Sound(spaces, entries) && SafeComponent(principal) && |spaces| < MAX_FILES
    ensures Sound(spaces + {principal}, entries)
  {
  }

  /** Staging always stays sound, and its stage can be taken away again. */
  /** The entries are the published files, and perhaps this one stage. */
  ghost predicate StagedOver(files: Entries, stage: Key, entries: Entries) {
    entries == files || (stage in entries && entries == files[stage := entries[stage]])
  }

  lemma StageSteps(files: Entries, stage: Key, entries: Entries, e: Entry)
    requires StagedOver(files, stage, entries) && stage !in files
    ensures entries[stage := e] == files[stage := e] && StagedOver(files, stage, entries[stage := e])
    ensures entries - {stage} == files
  {
  }

  lemma StagingIsSound(spaces: set<string>, files: Entries, entries: Entries, stage: Key)
    requires Sound(spaces, files) && (forall k :: k in files ==> !IsStage(k.name)) && |files| < MAX_FILES
    requires IsStage(stage.name) && stage.principal in spaces
    requires StagedOver(files, stage, entries)
    ensures Sound(spaces, entries) && entries - {stage} == files && stage !in files
  {
    assert stage !in files;
    if entries == files {
      assert files - {stage} == files;
    } else {
      StageSteps(files, stage, entries, entries[stage]);
      StageAdded(spaces, files, stage, entries[stage]);
    }
  }

  lemma StageAdded(spaces: set<string>, files: Entries, stage: Key, e: Entry)
    requires Sound(spaces, files) && (forall k :: k in files ==> !IsStage(k.name)) && |files| < MAX_FILES
    requires IsStage(stage.name) && stage.principal in spaces && stage !in files
    ensures Sound(spaces, files[stage := e])
  {
    StageIsNoFile(files, stage, e);
    OneStageOnly(files, stage, e);
  }

  lemma OneStageOnly(files: Entries, stage: Key, e: Entry)
    requires forall k :: k in files ==> !IsStage(k.name)
    ensures var entries := files[stage := e]; forall j, k :: j in entries && k in entries ==> SameStage(j, k)
  {
  }

  lemma StageIsNoFile(files: Entries, stage: Key, e: Entry)
    requires IsStage(stage.name)
    ensures FilesOf(files[stage := e]) == FilesOf(files - {stage})
    ensures stage !in files ==> FilesOf(files[stage := e]) == FilesOf(files) && |files[stage := e]| == |files| + 1
  {
    assert stage !in files ==> files - {stage} == files && files[stage := e].Keys == files.Keys + {stage};
  }

  lemma StageTakenAway(files: Entries, stage: Key, k: Key, e: Entry)
    requires stage !in files && IsStage(stage.name) && FileId(k.name)
    ensures files[stage := e] - {stage} == files - {stage} == files
    ensures (files[stage := e] - {stage})[k := e] == files[k := e] && files[k := e] - {stage} == files[k := e]
    ensures k in files <==> k in files[stage := e]
  {
    FileIdIsNoStage(k.name);
  }

  lemma OwnedAfterPublish(files: Entries, k: Key, e: Entry, p: string)
    requires k !in files
    ensures OwnedBy(files[k := e], p) == if p == k.principal then OwnedBy(files, p)[k := e] else OwnedBy(files, p)
  {
  }

  lemma QuotasAfterPublish(files: Entries, k: Key, e: Entry)
    requires QuotasHold(files) && k !in files && RoomFor(files, k.principal, SizeOf(e))
    ensures QuotasHold(files[k := e])
  {
    var more := files[k := e];
    TotalBytesAdd(files, k, e);
    forall p ensures PrincipalQuota(more, p) {
      assert PrincipalQuota(files, p);
      OwnedAfterPublish(files, k, e, p);
      if p == k.principal {
        TotalBytesAdd(OwnedBy(files, p), k, e);
      }
    }
  }

  /** There is room for a file exactly when the store with that file in it is within the four limits. */
  lemma RoomIsExact(files: Entries, k: Key, e: Entry)
    requires QuotasHold(files) && k !in files
    ensures RoomFor(files, k.principal, SizeOf(e)) <==>
      var more := files[k := e];
      && |more| <= 1024 && TotalBytes(more) <= 1_073_741_824
      && |OwnedBy(more, k.principal)| <= 256 && TotalBytes(OwnedBy(more, k.principal)) <= 268_435_456
  {
    TotalBytesAdd(files, k, e);
    OwnedAfterPublish(files, k, e, k.principal);
    TotalBytesAdd(OwnedBy(files, k.principal), k, e);
  }

  lemma NoStages(entries: Entries)
    requires forall k :: k in entries ==> !IsStage(k.name)
    ensures FilesOf(entries) == entries
  {
  }

  lemma PublishedIsSound(spaces: set<string>, files: Entries, k: Key, e: Entry)
    requires Sound(spaces, files) && (forall j :: j in files ==> !IsStage(j.name)) && k !in files
    requires k.principal in spaces && Complete(k, e) && RoomFor(files, k.principal, SizeOf(e))
    ensures Sound(spaces, files[k := e])
  {
    FileIdIsNoStage(k.name);
    NoStages(files);
    QuotasAfterPublish(files, k, e);
    SoundWithoutStages(spaces, files[k := e]);
  }

  lemma SoundWithoutStages(spaces: set<string>, files: Entries)
    requires forall p :: p in spaces ==> SafeComponent(p)
    requires forall k :: k in files ==> k.principal in spaces && Complete(k, files[k]) && !IsStage(k.name)
    requires QuotasHold(files) && |spaces| <= MAX_FILES
    ensures Sound(spaces, files)
  {
    NoStages(files);
  }

  /** Unreadable metadata is never cleared away, so a store that has some has it for good. */
  lemma UnreadableStays(before: Entries, after: Entries, horizon: nat)
    requires OnlyExpiredGone(before, after, horizon) && !AllReadable(before)
    ensures !AllReadable(after)
  {
  }

  /** The only new file is `k`, complete, and every live file is as it was. */
  ghost predicate Published(before: Entries, after: Entries, k: Key, e: Entry, horizon: nat) {
    && Kept(before, after, horizon)
    && (forall j :: j in after && !IsStage(j.name) && j != k ==> j in before && after[j] == before[j])
    && k in after && after[k] == e
  }

  /** No new file at all, and every live file is as it was. */
  ghost predicate Unpublished(before: Entries, after: Entries, horizon: nat) {
    && Kept(before, after, horizon)
    && forall j :: j in after && !IsStage(j.name) ==> j in before && after[j] == before[j]
  }

  lemma PublishedAfterScan(before: Entries, files: Entries, k: Key, e: Entry, horizon: nat)
    requires OnlyExpiredGone(before, files, horizon) && k !in files && FileId(k.name)
    ensures Published(before, files[k := e], k, e, horizon)
    ensures AllReadable(files) ==> (AllReadable(files[k := e]) <==> e.metadata.Whole? && Readable(e.metadata.value))
  {
    FileIdIsNoStage(k.name);
    if AllReadable(files) && AllReadable(files[k := e]) {
      assert k in files[k := e];
    }
  }

  lemma UnpublishedAfterScan(before: Entries, files: Entries, after: Entries, stage: Key, horizon: nat)
    requires OnlyExpiredGone(before, files, horizon) && after - {stage} == files && IsStage(stage.name)
    ensures Unpublished(before, after, horizon)
    ensures AllReadable(after) <==> AllReadable(files)
  {
    assert forall j :: j in after && j != stage ==> j in files && after[j] == files[j] by {
      forall j | j in after && j != stage ensures j in files && after[j] == files[j] {
        assert j in after - {stage};
      }
    }
    assert forall j :: j in files ==> j in after && after[j] == files[j] by {
      forall j | j in files ensures j in after && after[j] == files[j] {
        assert j in after - {stage};
      }
    }
  }

  lemma ScanConcludes(before: Entries, after: Entries, horizon: nat)
    requires OnlyExpiredGone(before, after, horizon)
    ensures Unpublished(before, after, horizon)
    ensures AllReadable(before) <==> AllReadable(after)
  {
    if !AllReadable(before) {
      UnreadableStays(before, after, horizon);
    }
  }

  lemma PublishConcludes(before: Entries, files: Entries, after: Entries, k: Key, stage: Key, e: Entry, horizon: nat)
    requires OnlyExpiredGone(before, files, horizon) && AllReadable(files) && FileId(k.name) && IsStage(stage.name)
    requires after - {stage} == files || (k !in files && after == files[k := e])
    ensures after - {stage} == files ==> Unpublished(before, after, horizon) && AllReadable(after)
    ensures after - {stage} != files ==>
      && Published(before, after, k, e, horizon)
      && (AllReadable(after) <==> e.metadata.Whole? && Readable(e.metadata.value))
    ensures k !in files && after == files[k := e] ==> after - {stage} != files
  {
    if after - {stage} == files {
      UnpublishedAfterScan(before, files, after, stage, horizon);
    } else {
      PublishedAfterScan(before, files, k, e, horizon);
    }
    if k !in files && after == files[k := e] {
      FileIdIsNoStage(k.name);
      assert k in after - {stage};
    }
  }

  lemma RemovedIsSound(spaces: set<string>, entries: Entries, k: Key)
    requires Sound(spaces, entries) && k in entries
    ensures Sound(spaces, entries - {k})
  {
    SoundShrinks(spaces, entries, spaces, entries - {k});
  }

  /** 48 hexadecimal digits, as `put` prints its random bytes. */
  predicate RandomDigits(s: string) {
    |s| == 48 && forall i :: 0 <= i < |s| ==> '0' <= s[i] <= '9' || 'a' <= s[i] <= 'f'
  }

  lemma RandomIdIsFileId(digits: string)
    requires RandomDigits(digits)
    ensures FileId("file_" + digits)
  {
  }

  class FileStore {
    /** The principals' directories under the root, and the entries in them. */
    var spaces: set<string>
    var entries: Entries
    /** No call into the operating system fails and no crash happens. */
    const reliable: bool

    ghost predicate Valid()
      reads this
    {
      Sound(spaces, entries)
    }

    constructor (reliable: bool)
      ensures Valid() && spaces == {} && entries == map[] && this.reliable == reliable
    {
      spaces, entries := {}, map[];
      this.reliable := reliable;
      assert FilesOf(map[]) == map[];
      assert forall p :: OwnedBy(map[], p) == map[];
    }

    /** `unix_ts()`: some time from `earliest` to `horizon`; it need not move forward. */
    method Clock(earliest: nat, horizon: nat) returns (now: nat)
      requires earliest <= horizon
      ensures earliest <= now <= horizon
    {
      now :| earliest <= now <= horizon;
    }

    /** Whether something goes wrong at this point. */
    method Mishap() returns (happens: bool)
      ensures reliable ==> !happens
    {
      happens := *;
      happens := happens && !reliable;
    }

    /** One directory entry: a stage or an expired file is removed, a live file is listed. */
    method Visit(k: Key, earliest: nat, horizon: nat, ghost before: Entries, found: seq<Found>, ghost kept: Entries,
                 ghost seen: set<Key>)
      returns (r: Result<seq<Found>, StoreError>, ghost keptNow: Entries)
      requires Scanning(before, spaces, entries, kept, seen, horizon) && Lists(found, kept)
      requires k in before && k !in seen && (IsStage(k.name) || Complete(k, before[k]))
      requires earliest <= horizon && Fresh(kept, earliest)
      modifies this`entries
      ensures if r.Ok? then Scanning(before, spaces, entries, keptNow, seen + {k}, horizon) && Lists(r.value, keptNow)
              else entries == old(entries) && keptNow == kept
      ensures Fresh(keptNow, earliest)
      ensures entries == old(entries) || entries == old(entries) - {k}
      ensures r.Err? ==> (r.error == Io && !reliable) || (r.error == InvalidMetadata && !AllReadable(entries))
    {
      keptNow := kept;
      var fault := Mishap();
      if fault {
        return Err(Io), kept;
      }
      if IsStage(k.name) {
        ScanningRemoved(before, spaces, entries, kept, seen, horizon, k);
        entries := entries - {k};
        return Ok(found), kept;
      }
      var meta := entries[k].metadata.value;
      if !Readable(meta) || meta.id != k.name {
        return Err(InvalidMetadata), kept;
      }
      var now := Clock(earliest, horizon);
      if ExpiredAt(meta, now) {
        ScanningRemoved(before, spaces, entries, kept, seen, horizon, k);
        entries := entries - {k};
        return Ok(found), kept;
      }
      ScanningKept(before, spaces, entries, kept, seen, horizon, k);
      ListsPush(found, kept, Found(k.principal, meta), entries[k]);
      return Ok(found + [Found(k.principal, meta)]), kept[k := entries[k]];
    }

    /** The entries of one principal's directory, in any order. */
    method ScanSpace(space: string, earliest: nat, horizon: nat, ghost before: Entries, found0: seq<Found>,
                     visited0: nat, ghost kept0: Entries, ghost seen0: set<Key>)
      returns (r: Result<seq<Found>, StoreError>, visited: nat, ghost kept: Entries, ghost seen: set<Key>)
      requires Scanning(before, spaces, entries, kept0, seen0, horizon) && Lists(found0, kept0)
      requires forall k :: k in seen0 ==> k.principal != space
      requires forall k :: k in before ==> IsStage(k.name) || Complete(k, before[k])
      requires visited0 + |before.Keys| <= MAX_VISITS + |seen0|
      requires earliest <= horizon && Fresh(kept0, earliest)
      modifies this`entries
      ensures Scanning(before, spaces, entries, kept, seen, horizon) && Fresh(kept, earliest)
      ensures r.Ok? ==> seen == seen0 + InSpace(before, space) && visited - visited0 == |seen| - |seen0|
      ensures r.Ok? ==> Lists(r.value, kept)
      ensures SameElsewhere(entries, old(entries), space)
      ensures r.Err? ==> (r.error == Io && !reliable) || (r.error == InvalidMetadata && !AllReadable(entries))
    {
      ghost var start := entries;
      var found := found0;
      visited, kept, seen := visited0, kept0, seen0;
      var todo := InSpace(entries, space);
      SpaceLoopStart(before, spaces, entries, kept, seen, horizon, space);
      while todo != {}
        invariant SpaceLoop(before, spaces, entries, kept, seen, horizon, space, seen0, todo, start)
        invariant Lists(found, kept) && Fresh(kept, earliest)
        invariant visited - visited0 == |seen| - |seen0|
      {
        var k :| k in todo;
        r, visited, kept :=
          ScanEntry(k, space, earliest, horizon, before, found, visited, kept, seen0, seen, todo, start);
        if r.Err? {
          return;
        }
        found := r.value;
        seen := seen + {k};
        todo := todo - {k};
      }
      r := Ok(found);
    }

    /** One round of the inner loop: the visit is counted, and the entry listed or removed. */
    method ScanEntry(k: Key, space: string, earliest: nat, horizon: nat, ghost before: Entries, found: seq<Found>,
                     visited0: nat, ghost kept: Entries, ghost seen0: set<Key>, ghost seen: set<Key>,
                     ghost todo: set<Key>, ghost start: Entries)
      returns (r: Result<seq<Found>, StoreError>, visited: nat, ghost keptNow: Entries)
      requires SpaceLoop(before, spaces, entries, kept, seen, horizon, space, seen0, todo, start) && k in todo
      requires Lists(found, kept) && visited0 + |before.Keys| <= MAX_VISITS + |seen|
      requires forall j :: j in before ==> IsStage(j.name) || Complete(j, before[j])
      requires earliest <= horizon && Fresh(kept, earliest)
      modifies this`entries
      ensures Fresh(keptNow, earliest)
      ensures r.Ok? ==>
        && SpaceLoop(before, spaces, entries, keptNow, seen + {k}, horizon, space, seen0, todo - {k}, start)
        && Lists(r.value, keptNow) && visited == visited0 + 1 && |seen + {k}| == |seen| + 1
      ensures r.Err? ==>
        && Scanning(before, spaces, entries, keptNow, seen, horizon) && SameElsewhere(entries, start, space)
        && ((r.error == Io && !reliable) || (r.error == InvalidMetadata && !AllReadable(entries)))
    {
      SpaceLoopItem(before, spaces, entries, kept, seen, horizon, space, seen0, todo, start, k);
      visited, keptNow := visited0 + 1, kept;
      if visited > MAX_VISITS {
        return Err(SafetyLimit), visited, kept;
      }
      ghost var left := entries;
      r, keptNow := Visit(k, earliest, horizon, before, found, kept, seen);
      if r.Ok? {
        SpaceLoopNext(before, spaces, left, kept, seen, horizon, space, seen0, todo, start, k, entries, keptNow);
      }
    }

    /** One principal's directory: its entries, and the directory itself when nothing is left in it. */
    method SweepSpace(space: string, earliest: nat, horizon: nat, ghost all: set<string>, ghost before: Entries,
                      found0: seq<Found>, visited0: nat, ghost kept0: Entries, ghost seen0: set<Key>,
                      ghost seenSpaces: set<string>, ghost todo: set<string>)
      returns (r: Result<seq<Found>, StoreError>, visited: nat, ghost kept: Entries, ghost seen: set<Key>)
      requires Sound(all, before) && space in todo
      requires ScanningSpaces(before, all, spaces, entries, seen0, seenSpaces, todo)
      requires Scanning(before, spaces, entries, kept0, seen0, horizon) && Lists(found0, kept0)
      requires visited0 + |before.Keys| <= MAX_VISITS + |seen0|
      requires earliest <= horizon && Fresh(kept0, earliest)
      modifies this
      ensures Scanning(before, spaces, entries, kept, seen, horizon) && spaces <= all && Fresh(kept, earliest)
      ensures r.Ok? ==> ScanningSpaces(before, all, spaces, entries, seen, seenSpaces + {space}, todo - {space})
      ensures r.Ok? ==> Lists(r.value, kept) && visited - visited0 == |seen| - |seen0|
      ensures r.Err? ==> (r.error == Io && !reliable) || (r.error == InvalidMetadata && !AllReadable(entries))
    {
      ghost var spaces0, entries0 := spaces, entries;
      r, visited, kept, seen := ScanSpace(space, earliest, horizon, before, found0, visited0, kept0, seen0);
      if r.Err? {
        return;
      }
      if InSpace(entries, space) == {} {
        var fault := Mishap();
        if fault {
          return Err(Io), visited, kept, seen;
        }
        ScanningWithoutSpace(before, spaces, entries, kept, seen, horizon, space);
        spaces := spaces - {space};
      }
      SpaceDone(before, all, spaces0, entries0, seen0, seenSpaces, todo, space, spaces, entries, seen);
    }

    /** `scan`: remove stages, expired files and empty directories, and list what is left. */
    method Scan(earliest: nat, horizon: nat) returns (r: Result<seq<Found>, StoreError>)
      requires Valid() && earliest <= horizon
      modifies this
      ensures Valid() && OnlyExpiredGone(old(entries), entries, horizon)
      ensures r.Ok? ==> Swept(spaces, entries) && AllReadable(entries) && Lists(r.value, entries)
      ensures r.Ok? ==> Fresh(entries, earliest)
      ensures r.Err? ==> (r.error == Io && !reliable) || (r.error == InvalidMetadata && !AllReadable(entries))
    {
      ghost var before, all := entries, spaces;
      var fault := Mishap();
      if fault {
        return Err(Io);
      }
      var found: seq<Found> := [];
      var visited := 1; // the lock file, wherever it comes in the listing
      var todo := spaces;
      ghost var kept: Entries, seen: set<Key>, seenSpaces: set<string> := map[], {}, {};
      while todo != {}
        invariant ScanningSpaces(before, all, spaces, entries, seen, seenSpaces, todo)
        invariant Scanning(before, spaces, entries, kept, seen, horizon) && Lists(found, kept) && Fresh(kept, earliest)
        invariant visited == 1 + |seenSpaces| + |seen|
      {
        var space :| space in todo;
        ScanLeft(before, all, spaces, entries, seen, seenSpaces, todo, space);
        visited := visited + 1;
        if visited > MAX_VISITS {
          return Err(SafetyLimit);
        }
        r, visited, kept, seen :=
          SweepSpace(space, earliest, horizon, all, before, found, visited, kept, seen, seenSpaces, todo);
        if r.Err? {
          SoundShrinks(all, before, spaces, entries);
          return;
        }
        found := r.value;
        seenSpaces := seenSpaces + {space};
        todo := todo - {space};
      }
      AllSpacesDone(before, all, spaces, entries, kept, seen, seenSpaces, horizon);
      SoundShrinks(all, before, spaces, entries);
      return Ok(found);
    }

    /** `files` and at most the one stage beside them. */
    ghost predicate Staging(files: Entries, stage: Key)
      reads this
    {
      && Sound(spaces, files) && (forall k :: k in files ==> !IsStage(k.name)) && |files| < MAX_FILES
      && IsStage(stage.name) && stage.principal in spaces
      && StagedOver(files, stage, entries)
    }

    /** One file-system step on the stage. After a failure its directory is dropped, which may itself fail. */
    method Save(stage: Key, e: Entry, ghost files: Entries) returns (r: Result<(), StoreError>)
      requires Staging(files, stage)
      modifies this`entries
      ensures Staging(files, stage)
      ensures r.Ok? ==> entries == files[stage := e]
      ensures r.Err? ==> (r.error == Io || r.error == Crashed) && !reliable
    {
      var fault := Mishap();
      var crash := Mishap();
      var dropped: bool := *;
      StageSteps(files, stage, entries, e);
      if fault {
        if dropped {
          entries := entries - {stage};
        }
        return Err(Io);
      }
      entries := entries[stage := e];
      return if crash then Err(Crashed) else Ok(());
    }

    /** The stage is written file by file and then renamed to its id, in one step. */
    method Publish(k: Key, stage: Key, meta: Meta, data: Bytes, ghost files: Entries)
      returns (r: Result<(), StoreError>)
      requires Staging(files, stage) && entries == files && stage.principal == k.principal
      requires Complete(k, Entry(Whole(meta), Whole(data))) && RoomFor(files, k.principal, meta.bytes)
      modifies this`entries
      ensures Valid()
      ensures r.Ok? ==> k !in files && entries == files[k := Entry(Whole(meta), Whole(data))]
      ensures r.Err? ==> (r.error == Io || r.error == Crashed) && (reliable ==> k in files)
      ensures r.Err? ==>
        || entries - {stage} == files
        || (r.error == Crashed && k !in files && entries == files[k := Entry(Whole(meta), Whole(data))])
    {
      StagingIsSound(spaces, files, entries, stage);
      r := Save(stage, Entry(Missing, Missing), files);
      if r.Ok? {
        r := Save(stage, Entry(Missing, Torn), files);
      }
      if r.Ok? {
        r := Save(stage, Entry(Missing, Whole(data)), files);
      }
      if r.Ok? {
        r := Save(stage, Entry(Torn, Whole(data)), files);
      }
      if r.Ok? {
        r := Save(stage, Entry(Whole(meta), Whole(data)), files);
      }
      StagingIsSound(spaces, files, entries, stage);
      if r.Err? {
        return;
      }
      r := Rename(k, stage, Entry(Whole(meta), Whole(data)), files);
    }

    /** The rename that publishes: it fails on an existing target, and a crash can only come before or after it. */
    method Rename(k: Key, stage: Key, e: Entry, ghost files: Entries) returns (r: Result<(), StoreError>)
      requires Staging(files, stage) && entries == files[stage := e] && stage.principal == k.principal
      requires Complete(k, e) && RoomFor(files, k.principal, SizeOf(e))
      modifies this`entries
      ensures Valid()
      ensures r.Ok? ==> k !in files && entries == files[k := e]
      ensures r.Err? ==> (r.error == Io || r.error == Crashed) && (reliable ==> k in files)
      ensures r.Err? ==> entries - {stage} == files || (r.error == Crashed && k !in files && entries == files[k := e])
    {
      StagingIsSound(spaces, files, entries, stage);
      StageTakenAway(files, stage, k, e);
      var fault := Mishap();
      var crash := Mishap();
      var dropped: bool := *;
      if fault || k in entries {
        if dropped {
          entries := entries - {stage};
        }
        return Err(Io);
      }
      entries := (entries - {stage})[k := e];
      PublishedIsSound(spaces, files, k, e);
      r := if crash then Err(Crashed) else Ok(());
    }

    /** The locked part of `put` up to the quota check and the principal's directory. */
    method Admit(principal: string, bytes: nat, earliest: u64, horizon: u64) returns (r: Result<(), StoreError>)
      requires Valid() && earliest <= horizon
      modifies this
      ensures Valid() && OnlyExpiredGone(old(entries), entries, horizon)
      ensures r.Ok? ==> principal in spaces && AllReadable(entries) && RoomFor(entries, principal, bytes)
      ensures r.Ok? ==> Fresh(entries, earliest)
      ensures r.Ok? ==> SafeComponent(principal) && forall k :: k in entries ==> !IsStage(k.name)
      ensures r.Err? ==> Refused(r.error, old(entries), principal, bytes)
      ensures r.Err? && r.error == InvalidMetadata ==> !AllReadable(entries)
      ensures r.Err? && r.error == QuotaExceeded ==> !RoomFor(entries, principal, bytes)
      ensures reliable ==> r != Err(Io)
    {
      r := CheckRoom(principal, bytes, earliest, horizon);
      if r.Ok? {
        r := CreateSpace(principal);
      }
    }

    /** The scan and the quota check. */
    method CheckRoom(principal: string, bytes: nat, earliest: u64, horizon: u64) returns (r: Result<(), StoreError>)
      requires Valid() && earliest <= horizon
      modifies this
      ensures Valid() && OnlyExpiredGone(old(entries), entries, horizon)
      ensures r.Ok? ==> Swept(spaces, entries) && AllReadable(entries) && RoomFor(entries, principal, bytes)
      ensures r.Ok? ==> Fresh(entries, earliest)
      ensures r.Err? ==> Refused(r.error, old(entries), principal, bytes) && r.error != Rejected
      ensures r.Err? && r.error == InvalidMetadata ==> !AllReadable(entries)
      ensures r.Err? && r.error == QuotaExceeded ==> !RoomFor(entries, principal, bytes)
      ensures reliable ==> r != Err(Io)
    {
      ghost var start := entries;
      var scanned := Scan(earliest, horizon);
      if scanned.Err? {
        return Err(scanned.error);
      }
      QuotaDecides(scanned.value, start, entries, principal, bytes);
      return if QuotaAllows(scanned.value, principal, bytes) then Ok(()) else Err(QuotaExceeded);
    }

    /** `namespace` and `private_dir`: the principal's directory, created if it is not there. */
    method CreateSpace(principal: string) returns (r: Result<(), StoreError>)
      requires Valid() && |entries| < MAX_FILES && Swept(spaces, entries)
      modifies this`spaces
      ensures Valid()
      ensures r.Ok? ==> principal in spaces && SafeComponent(principal)
      ensures r.Err? ==> if SafeComponent(principal) then r.error == Io && !reliable else r.error == Rejected
    {
      if !SafeComponent(principal) {
        return Err(Rejected);
      }
      PrincipalsCount(entries);
      SpaceIsSound(spaces, entries, principal);
      spaces := spaces + {principal};
      var fault := Mishap();
      return if fault then Err(Io) else Ok(());
    }

    /** The upload is acceptable, the store has room for it, and no metadata stands in the way of the scan. */
    ghost predicate Welcomes(principal: string, filename: string, mimeType: string, expiresAt: Option<u64>,
                             data: Bytes, horizon: nat)
      reads this
    {
      && AcceptableUpload(principal, filename, mimeType, expiresAt, data, horizon)
      && AllReadable(entries) && RoomFor(FilesOf(entries), principal, |data|)
    }

    /**
     * `put`: the file is published complete or not at all, wherever it stops; nobody's live file is touched; and the
     * scan that must precede it fails only for I/O or because some published metadata cannot be read.
     */
    method Put(principal: string, filename: string, mimeType: string, purpose: string, expiresAt: Option<u64>,
               data: Bytes, digits: string, stageName: string, earliest: u64, horizon: u64)
      returns (r: Result<Meta, StoreError>)
      requires Valid() && RandomDigits(digits) && IsStage(stageName) && earliest <= horizon
      modifies this
      ensures Valid()
      ensures r.Ok? ==>
        && 0 < |data| <= MAX_FILE_BYTES
        && r.value == Meta("file_" + digits, filename, mimeType, |data|, r.value.createdAt, expiresAt, purpose)
        && FilenameOk(filename) && MimeTypeOk(mimeType)
        && Published(old(entries), entries, Key(principal, r.value.id), Entry(Whole(r.value), Whole(data)), horizon)
        && AllReadable(old(entries)) && (AllReadable(entries) <==> Readable(r.value))
      ensures r.Err? && r.error != Crashed ==> Unpublished(old(entries), entries, horizon)
      ensures r.Err? && r.error == Crashed ==>
        || Unpublished(old(entries), entries, horizon)
        || (exists e :: Complete(Key(principal, "file_" + digits), e) && e.data == Whole(data)
              && Published(old(entries), entries, Key(principal, "file_" + digits), e, horizon))
      ensures !AllReadable(old(entries)) ==> r.Err? && !AllReadable(entries)
      ensures r.Err? ==>
        match r.error
        case Rejected => !AcceptableUpload(principal, filename, mimeType, expiresAt, data, horizon)
        case QuotaExceeded => !RoomFor(FilesOf(old(entries)), principal, |data|)
        case InvalidMetadata => !AllReadable(old(entries))
        case Io | Crashed => true
        case SafetyLimit | NotFound => false
      ensures !(0 < |data| <= MAX_FILE_BYTES) || !FilenameOk(filename) || !MimeTypeOk(mimeType) ==> r == Err(Rejected)
      ensures r.Ok? ==> SafeComponent(principal)
      ensures r.Ok? ==> earliest <= r.value.createdAt <= horizon
      ensures expiresAt.Some? && expiresAt.value <= earliest ==> r == Err(Rejected) && entries == old(entries)
      ensures reliable && Key(principal, "file_" + digits) !in old(entries) ==> r != Err(Io) && r != Err(Crashed)
    {
      ghost var start := entries;
      if !(0 < |data| <= MAX_FILE_BYTES) || !FilenameOk(filename) || !MimeTypeOk(mimeType) {
        return Err(Rejected);
      }
      var now := Clock(earliest, horizon);
      if expiresAt.Some? && expiresAt.value <= now {
        return Err(Rejected);
      }
      var admitted := Admit(principal, |data|, earliest, horizon);
      ScanConcludes(start, entries, horizon);
      if admitted.Err? {
        return Err(admitted.error);
      }
      var created := Clock(earliest, horizon);
      var meta := Meta("file_" + digits, filename, mimeType, |data|, created, expiresAt, purpose);
      RandomIdIsFileId(digits);
      ghost var files := entries;
      var k, stage := Key(principal, meta.id), Key(principal, stageName);
      var published := Publish(k, stage, meta, data, entries);
      PublishConcludes(start, files, entries, k, stage, Entry(Whole(meta), Whole(data)), horizon);
      return if published.Err? then Err(published.error) else Ok(meta);
    }

    /** `path`: where a published file of this principal and id would be. */
    predicate Present(principal: string, id: string)
      reads this
    {
      FileId(id) && SafeComponent(principal) && principal in spaces && Key(principal, id) in entries
    }

    /** `get`: a live file comes back as it was published. */
    method Get(principal: string, id: string, earliest: u64, horizon: u64)
      returns (r: Result<(Meta, Bytes), StoreError>)
      requires Valid() && earliest <= horizon
      modifies this`entries
      ensures Valid() && OnlyExpiredGone(old(entries), entries, horizon)
      ensures r.Ok? ==>
        && entries == old(entries) && Key(principal, id) in entries
        && entries[Key(principal, id)] == Entry(Whole(r.value.0), Whole(r.value.1))
      ensures r.Err? ==> r.error == NotFound || (r.error == Io && !reliable) || r.error == InvalidMetadata
      ensures r.Err? && r.error == InvalidMetadata ==>
        Key(principal, id) in entries && UnreadableMetadata(entries[Key(principal, id)])
      ensures r.Err? && r.error == NotFound ==>
        !old(Present(principal, id)) || GoneBy(old(entries), entries, Key(principal, id), horizon)
      ensures old(Present(principal, id)) && LongExpired(old(entries)[Key(principal, id)], earliest) ==>
        r == Err(Io) || (r == Err(NotFound) && entries == old(entries) - {Key(principal, id)})
      ensures r.Ok? ==> r.value.0.expiresAt.None? || r.value.0.expiresAt.value > earliest
    {
      var fault := Mishap();
      if fault {
        return Err(Io);
      }
      if !Present(principal, id) {
        return Err(NotFound);
      }
      var k := Key(principal, id);
      FileIdIsNoStage(id);
      var meta, data := entries[k].metadata.value, entries[k].data.value;
      if !Readable(meta) {
        return Err(InvalidMetadata);
      }
      var now := Clock(earliest, horizon);
      if ExpiredAt(meta, now) {
        RemovedIsSound(spaces, entries, k);
        entries := entries - {k};
        return Err(NotFound);
      }
      if meta.id != id || |data| != meta.bytes {
        return Err(InvalidMetadata);
      }
      return Ok((meta, data));
    }

    /** `metadata`: as `get`, without the data. */
    method Metadata(principal: string, id: string, earliest: u64, horizon: u64) returns (r: Result<Meta, StoreError>)
      requires Valid() && earliest <= horizon
      modifies this`entries
      ensures Valid() && OnlyExpiredGone(old(entries), entries, horizon)
      ensures r.Ok? ==>
        && entries == old(entries) && Key(principal, id) in entries
        && entries[Key(principal, id)].metadata == Whole(r.value)
      ensures r.Err? ==> r.error == NotFound || (r.error == Io && !reliable) || r.error == InvalidMetadata
      ensures r.Err? && r.error == InvalidMetadata ==>
        Key(principal, id) in entries && UnreadableMetadata(entries[Key(principal, id)])
      ensures r.Err? && r.error == NotFound ==>
        !old(Present(principal, id)) || GoneBy(old(entries), entries, Key(principal, id), horizon)
      ensures old(Present(principal, id)) && LongExpired(old(entries)[Key(principal, id)], earliest) ==>
        r == Err(Io) || (r == Err(NotFound) && entries == old(entries) - {Key(principal, id)})
      ensures r.Ok? ==> r.value.expiresAt.None? || r.value.expiresAt.value > earliest
    {
      var fault := Mishap();
      if fault {
        return Err(Io);
      }
      if !Present(principal, id) {
        return Err(NotFound);
      }
      var k := Key(principal, id);
      FileIdIsNoStage(id);
      var meta := entries[k].metadata.value;
      if !Readable(meta) || meta.id != id {
        return Err(InvalidMetadata);
      }
      var now := Clock(earliest, horizon);
      if ExpiredAt(meta, now) {
        RemovedIsSound(spaces, entries, k);
        entries := entries - {k};
        return Err(NotFound);
      }
      return Ok(meta);
    }

    /** `list`: after the same scan, exactly the caller's files. */
    method List(principal: string, earliest: u64, horizon: u64) returns (r: Result<seq<Found>, StoreError>)
      requires Valid() && earliest <= horizon
      modifies this
      ensures Valid() && OnlyExpiredGone(old(entries), entries, horizon)
      ensures r.Ok? ==> Lists(r.value, OwnedBy(entries, principal))
      ensures r.Err? ==> (r.error == Io && !reliable) || (r.error == InvalidMetadata && !AllReadable(entries))
      ensures r.Ok? ==> AllReadable(old(entries)) && Fresh(entries, earliest)
      ensures r.Ok? ==> forall i :: 0 <= i < |r.value| ==>
        r.value[i].meta.expiresAt.None? || r.value[i].meta.expiresAt.value > earliest
    {
      ghost var start := entries;
      r := Scan(earliest, horizon);
      ScanConcludes(start, entries, horizon);
      if r.Ok? {
        ListedOwned(r.value, entries, principal);
        r := Ok(Owned(r.value, principal));
      }
    }

    /** `delete` takes away that one readable file and nothing else. */
    method Delete(principal: string, id: string) returns (r: Result<(), StoreError>)
      requires Valid()
      modifies this`entries
      ensures Valid()
      ensures if r.Ok? then old(Present(principal, id)) && entries == old(entries) - {Key(principal, id)}
              else entries == old(entries)
      ensures !AllReadable(old(entries)) ==> !AllReadable(entries)
      ensures r.Err? ==>
        match r.error
        case NotFound => !old(Present(principal, id))
        case InvalidMetadata => old(Present(principal, id)) && UnreadableMetadata(old(entries)[Key(principal, id)])
        case Io => !reliable
        case _ => false
    {
      var fault := Mishap();
      if fault {
        return Err(Io);
      }
      if !Present(principal, id) {
        return Err(NotFound);
      }
      var k := Key(principal, id);
      FileIdIsNoStage(id);
      if !Readable(entries[k].metadata.value) {
        return Err(InvalidMetadata);
      }
      RemovedIsSound(spaces, entries, k);
      entries := entries - {k};
      return Ok(());
    }

    method Perform(op: Operation, earliest: u64, horizon: u64, ghost k: Key)
      requires Valid() && earliest <= horizon && op.Possible()
      requires k in entries && !IsStage(k.name) && !Expired(entries[k], horizon) && op != OpDelete(k.principal, k.name)
      modifies this
      ensures Valid() && k in entries && entries[k] == old(entries[k])
      ensures !AllReadable(old(entries)) ==> !AllReadable(entries)
    {
      ghost var start := entries;
      match op {
        case OpPut(p, filename, mimeType, purpose, expiresAt, data, digits, stage) =>
          var _ := Put(p, filename, mimeType, purpose, expiresAt, data, digits, stage, earliest, horizon);
        case OpGet(p, id) =>
          var _ := Get(p, id, earliest, horizon);
          ScanConcludes(start, entries, horizon);
        case OpMetadata(p, id) =>
          var _ := Metadata(p, id, earliest, horizon);
          ScanConcludes(start, entries, horizon);
        case OpList(p) =>
          var _ := List(p, earliest, horizon);
          ScanConcludes(start, entries, horizon);
        case OpDelete(p, id) =>
          var _ := Delete(p, id);
      }
    }

    /**
     * Through every sequence of operations of all principals a file stays as it was, unless it expires or its owner
     * deletes it. Metadata that cannot be read stays too, and with it the refusal of every later put and list.
     */
    method PerformAll(ops: seq<Operation>, earliest: u64, horizon: u64, ghost k: Key)
      requires Valid() && earliest <= horizon
      requires forall i :: 0 <= i < |ops| ==> ops[i].Possible() && ops[i] != OpDelete(k.principal, k.name)
      requires k in entries && !IsStage(k.name) && !Expired(entries[k], horizon)
      modifies this
      ensures Valid() && k in entries && entries[k] == old(entries[k])
      ensures !AllReadable(old(entries)) ==> !AllReadable(entries)
    {
      ghost var e := entries[k];
      for n := 0 to |ops|
        invariant Valid() && k in entries && entries[k] == e
        invariant !AllReadable(old(entries)) ==> !AllReadable(entries)
      {
        Perform(ops[n], earliest, horizon, k);
      }
    }
  }

  datatype Operation =
    | OpPut(principal: string, filename: string, mimeType: string, purpose: string, expiresAt: Option<u64>,
            data: Bytes, digits: string, stage: string)
    | OpGet(principal: string, id: string)
    | OpMetadata(principal: string, id: string)
    | OpList(principal: string)
    | OpDelete(principal: string, id: string)
  {
    predicate Possible() {
      OpPut? ==> RandomDigits(digits) && IsStage(stage)
    }
  }

  /** `get` undoes `put`: what was stored comes back unchanged, whatever happens in between. */
  method PutThenGet(store: FileStore, principal: string, filename: string, mimeType: string, purpose: string,
                    expiresAt: Option<u64>, data: Bytes, digits: string, stage: string, ops: seq<Operation>,
                    earliest: u64, horizon: u64)
    returns (stored: Result<Meta, StoreError>, got: Result<(Meta, Bytes), StoreError>)
    requires store.Valid() && RandomDigits(digits) && IsStage(stage) && earliest <= horizon
    requires expiresAt.Some? ==> expiresAt.value > horizon
    requires forall i :: 0 <= i < |ops| ==> ops[i].Possible() && ops[i] != OpDelete(principal, "file_" + digits)
    modifies store
    ensures stored.Ok? && got.Ok? ==> got.value == (stored.value, data)
    ensures stored.Ok? && got.Err? ==> got.error == Io || (got.error == InvalidMetadata && !Readable(stored.value))
    ensures stored.Ok? && EscapedLength(purpose) <= 6000 ==> got.Ok? || got.error == Io
    ensures old(store.Welcomes(principal, filename, mimeType, expiresAt, data, horizon)) ==>
      stored.Ok? || stored.error == Io || stored.error == Crashed
    ensures
      && old(store.Welcomes(principal, filename, mimeType, expiresAt, data, horizon)) && store.reliable
      && Key(principal, "file_" + digits) !in old(store.entries) && EscapedLength(purpose) <= 6000 ==>
        stored.Ok? && got == Ok((stored.value, data))
  {
    stored := store.Put(principal, filename, mimeType, purpose, expiresAt, data, digits, stage, earliest, horizon);
    got := Err(NotFound);
    if stored.Ok? {
      RandomIdIsFileId(digits);
      if EscapedLength(purpose) <= 6000 {
        BoundedPurposeIsReadable(stored.value);
      }
      FileIdIsNoStage("file_" + digits);
      store.PerformAll(ops, earliest, horizon, Key(principal, "file_" + digits));
      got := store.Get(principal, "file_" + digits, earliest, horizon);
    }
  }

  /** No operation, not even the owner's delete, gets rid of metadata that cannot be read. */
  method StayUnreadable(store: FileStore, ops: seq<Operation>, earliest: u64, horizon: u64)
    requires earliest <= horizon && store.Valid() && !AllReadable(store.entries)
    requires forall i :: 0 <= i < |ops| ==> ops[i].Possible()
    modifies store
    ensures store.Valid() && !AllReadable(store.entries)
  {
    for n := 0 to |ops|
      invariant store.Valid() && !AllReadable(store.entries)
    {
      ghost var before := store.entries;
      match ops[n] {
        case OpPut(p, filename, mimeType, purpose, expiresAt, data, digits, stage) =>
          var _ := store.Put(p, filename, mimeType, purpose, expiresAt, data, digits, stage, earliest, horizon);
        case OpGet(p, id) =>
          var _ := store.Get(p, id, earliest, horizon);
          UnreadableStays(before, store.entries, horizon);
        case OpMetadata(p, id) =>
          var _ := store.Metadata(p, id, earliest, horizon);
          UnreadableStays(before, store.entries, horizon);
        case OpList(p) =>
          var _ := store.List(p, earliest, horizon);
          UnreadableStays(before, store.entries, horizon);
        case OpDelete(p, id) =>
          var _ := store.Delete(p, id);
      }
    }
  }

  /**
   * One accepted upload with a purpose of 8192 letters, and no put is accepted any more, whatever happens in between.
   */
  method LongPurposeLocksOut(store: FileStore, principal: string, filename: string, mimeType: string, data: Bytes,
                             digits: string, stage: string, ops: seq<Operation>, next: Operation,
                             earliest: u64, horizon: u64)
    returns (stored: Result<Meta, StoreError>, refused: Result<Meta, StoreError>)
    requires earliest <= horizon
    requires store.Valid() && RandomDigits(digits) && IsStage(stage) && next.OpPut? && next.Possible()
    requires forall i :: 0 <= i < |ops| ==> ops[i].Possible()
    modifies store
    ensures stored.Ok? ==> refused.Err?
    ensures old(store.Welcomes(principal, filename, mimeType, None, data, horizon)) ==>
      stored.Ok? || stored.error == Io || stored.error == Crashed
  {
    var purpose := seq(8192, i => 'a');
    stored := store.Put(principal, filename, mimeType, purpose, None, data, digits, stage, earliest,
                        horizon);
    refused := Err(NotFound);
    if stored.Ok? {
      LongPurposeIsUnreadable(stored.value);
      StayUnreadable(store, ops, earliest, horizon);
      refused := store.Put(next.principal, next.filename, next.mimeType, next.purpose, next.expiresAt, next.data,
                           next.digits, next.stage, earliest, horizon);
    }
  }
}

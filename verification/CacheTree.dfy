/** The bounded cache walk of src/cache.rs. */
module CacheTree {
  import opened Common

  const MAX_TREE_ENTRIES := 100_000
  const MAX_TREE_DEPTH := 32

  /** What `symlink_metadata` reports about one path. */
  datatype Metadata = Metadata(link: bool, owned: bool, links: nat, length: u64, modified: Option<u64>)

  /** A path and everything below it. `Unreadable` is a path whose metadata cannot be read. */
  datatype Node =
    | Unreadable
    | File(meta: Metadata)
    | Directory(meta: Metadata, listable: bool, children: seq<Node>)
    | Special(meta: Metadata)

  datatype TreeStats = TreeStats(bytes: u64, modified: Option<u64>)

  datatype WalkError =
    | WalkLimit | InspectFailed | NotOwned | ByteOverflow | SpecialFile | ListFailed | TooManyEntries | NotADirectory

  /** `validate_owned_metadata`: no link, our own entry, and a file has one name only. */
  predicate Owned(n: Node) {
    !n.Unreadable? && !n.meta.link && n.meta.owned && (n.File? ==> n.meta.links == 1)
  }

  /* ---------- The recursive meaning of a tree ---------- */

  /** Everything the walk reports or limits, as a commutative summary. */
  datatype Survey = Survey(entries: nat, acceptable: bool, bytes: nat, modified: Option<u64>)

  const NOTHING := Survey(0, true, 0, None)

  function Join(a: Survey, b: Survey): Survey {
    Survey(a.entries + b.entries, a.acceptable && b.acceptable,
           a.bytes + b.bytes, MaxOption(a.modified, b.modified))
  }

  lemma JoinLaws(a: Survey, b: Survey, c: Survey)
    ensures Join(Join(a, b), c) == Join(a, Join(b, c))
    ensures Join(a, b) == Join(b, a)
    ensures Join(a, Join(b, c)) == Join(b, Join(a, c)) == Join(Join(a, c), b)
  {
  }

  lemma JoinNothing(a: Survey)
    ensures Join(NOTHING, a) == a == Join(a, NOTHING)
  {
  }

  /** What one entry itself contributes, without anything below it. */
  function Own(n: Node, depth: nat): Survey {
    Survey(1, depth <= MAX_TREE_DEPTH && Owned(n) && (n.File? || (n.Directory? && n.listable)),
           if n.File? then n.meta.length else 0,
           if n.Unreadable? then None else n.meta.modified)
  }

  function Sum(parts: seq<Survey>): Survey {
    if parts == [] then NOTHING else Join(parts[0], Sum(parts[1..]))
  }

  /** A node at `depth` together with everything below it. */
  function Recursive(n: Node, depth: nat): Survey {
    if n.Directory?
    then
      var parts := seq(|n.children|, i requires 0 <= i < |n.children| => Recursive(n.children[i], depth + 1));
      Join(Own(n, depth), Sum(parts))
    else Own(n, depth)
  }

  /** The tree may be walked: the size, depth, ownership and byte limits, all stated recursively. */
  predicate WithinLimits(root: Node) {
    Passes(Recursive(root, 0))
  }

  predicate Passes(s: Survey) {
    s.entries <= MAX_TREE_ENTRIES && s.acceptable && s.bytes < U64_LIMIT
  }

  lemma {:induction false} SumAppend(a: seq<Survey>, b: seq<Survey>)
    ensures Sum(a + b) == Join(Sum(a), Sum(b))
  {
    if a == [] {
      assert a + b == b;
      JoinNothing(Sum(b));
    } else {
      assert (a + b)[1..] == a[1..] + b;
      SumAppend(a[1..], b);
      JoinLaws(a[0], Sum(a[1..]), Sum(b));
    }
  }

  lemma SumMiddle(left: seq<Survey>, part: Survey, right: seq<Survey>)
    ensures Sum(left + ([part] + right)) == Join(part, Sum(left + right))
  {
    SumAppend(left, [part] + right);
    SumAppend(left, right);
    assert ([part] + right)[1..] == right;
    assert Sum([part] + right) == Join(part, Sum(right));
    JoinLaws(part, Sum(left), Sum(right));
  }

  function Parts(ns: seq<Node>, depth: nat): (parts: seq<Survey>)
    ensures |parts| == |ns|
  {
    seq(|ns|, i requires 0 <= i < |ns| => Recursive(ns[i], depth))
  }

  lemma RecursiveOfDirectory(n: Node, depth: nat)
    requires n.Directory?
    ensures Recursive(n, depth) == Join(Own(n, depth), Sum(Parts(n.children, depth + 1)))
  {
    assert Parts(n.children, depth + 1)
        == seq(|n.children|, i requires 0 <= i < |n.children| => Recursive(n.children[i], depth + 1));
  }

  lemma PartsAppend(a: seq<Node>, b: seq<Node>, depth: nat)
    ensures Parts(a + b, depth) == Parts(a, depth) + Parts(b, depth)
  {
    forall i | 0 <= i < |a + b|
      ensures Parts(a + b, depth)[i] == (Parts(a, depth) + Parts(b, depth))[i]
    {
      assert Parts(a + b, depth)[i] == Recursive((a + b)[i], depth);
    }
  }

  lemma RemoveSame<T>(a: seq<T>, i: nat, b: seq<T>, j: nat)
    requires i < |a| && j < |b| && a[i] == b[j] && multiset(a) == multiset(b)
    ensures multiset(a[..i] + a[i + 1..]) == multiset(b[..j] + b[j + 1..])
  {
    assert a == a[..i] + [a[i]] + a[i + 1..];
    assert b == b[..j] + [b[j]] + b[j + 1..];
    assert multiset(a[..i] + a[i + 1..]) == multiset(a) - multiset{a[i]};
    assert multiset(b[..j] + b[j + 1..]) == multiset(b) - multiset{b[j]};
  }

  /** Any entry may be counted first. */
  lemma PartFirst(ns: seq<Node>, i: nat, depth: nat)
    requires i < |ns|
    ensures Sum(Parts(ns, depth)) == Join(Recursive(ns[i], depth), Sum(Parts(ns[..i] + ns[i + 1..], depth)))
  {
    var left, right := ns[..i], ns[i + 1..];
    assert ns == left + ([ns[i]] + right);
    PartsAppend(left, [ns[i]] + right, depth);
    PartsAppend([ns[i]], right, depth);
    PartsAppend(left, right, depth);
    assert Parts([ns[i]], depth) == [Recursive(ns[i], depth)];
    SumMiddle(Parts(left, depth), Recursive(ns[i], depth), Parts(right, depth));
  }

  /** Where the first entry of one listing is in another listing of the same entries. */
  lemma FirstFound(a: seq<Node>, b: seq<Node>) returns (i: nat)
    requires multiset(a) == multiset(b) && a != []
    ensures i < |b| && b[i] == a[0] && multiset(a[1..]) == multiset(b[..i] + b[i + 1..])
  {
    assert a[0] in multiset(b);
    i :| 0 <= i < |b| && b[i] == a[0];
    RemoveSame(a, 0, b, i);
    assert a[..0] + a[1..] == a[1..];
  }

  lemma SameFirst(a: seq<Node>, b: seq<Node>, i: nat, depth: nat)
    requires a != [] && i < |b| && b[i] == a[0]
    requires Sum(Parts(a[1..], depth)) == Sum(Parts(b[..i] + b[i + 1..], depth))
    ensures Sum(Parts(a, depth)) == Sum(Parts(b, depth))
  {
    PartFirst(a, 0, depth);
    PartFirst(b, i, depth);
    assert a[..0] + a[1..] == a[1..];
  }

  /** The order in which a directory lists its entries does not change what they add up to. */
  lemma {:induction false} SumPermuted(a: seq<Node>, b: seq<Node>, depth: nat)
    requires multiset(a) == multiset(b)
    ensures Sum(Parts(a, depth)) == Sum(Parts(b, depth))
    decreases |a|
  {
    if a == [] {
      assert |multiset(b)| == |b|;
    } else {
      var i := FirstFound(a, b);
      SumPermuted(a[1..], b[..i] + b[i + 1..], depth);
      SameFirst(a, b, i, depth);
    }
  }

  lemma {:induction false} RecursiveCountsItself(n: Node, depth: nat)
    ensures Recursive(n, depth).entries >= 1
  {
  }

  /** Every part of a sum stands for at least one entry. */
  lemma {:induction false} SumCounts(parts: seq<Survey>)
    requires forall i :: 0 <= i < |parts| ==> parts[i].entries >= 1
    ensures Sum(parts).entries >= |parts|
  {
    if parts != [] {
      SumCounts(parts[1..]);
    }
  }

  lemma PartsCount(ns: seq<Node>, depth: nat)
    ensures Sum(Parts(ns, depth)).entries >= |ns|
  {
    forall i | 0 <= i < |ns| ensures Parts(ns, depth)[i].entries >= 1 {
      RecursiveCountsItself(ns[i], depth);
    }
    SumCounts(Parts(ns, depth));
  }

  /* ---------- The same, entry by entry ---------- */

  datatype Item = Item(node: Node, depth: nat)

  function Joined(parts: seq<seq<Item>>): seq<Item> {
    if parts == [] then [] else parts[0] + Joined(parts[1..])
  }

  /** A path and every path below it, with how far below. */
  function Entries(n: Node, depth: nat): (items: seq<Item>)
    ensures items != [] && items[0] == Item(n, depth)
  {
    if n.Directory?
    then
      [Item(n, depth)]
      + Joined(seq(|n.children|, i requires 0 <= i < |n.children| => Entries(n.children[i], depth + 1)))
    else [Item(n, depth)]
  }

  function EntriesBelow(n: Node, depth: nat): (parts: seq<seq<Item>>)
    requires n.Directory?
    ensures |parts| == |n.children|
  {
    seq(|n.children|, i requires 0 <= i < |n.children| => Entries(n.children[i], depth + 1))
  }

  lemma EntriesOfDirectory(n: Node, depth: nat)
    requires n.Directory?
    ensures Entries(n, depth) == [Item(n, depth)] + Joined(EntriesBelow(n, depth))
  {
    assert EntriesBelow(n, depth)
        == seq(|n.children|, i requires 0 <= i < |n.children| => Entries(n.children[i], depth + 1));
  }

  lemma {:induction false} JoinedHolds(parts: seq<seq<Item>>, item: Item)
    ensures item in Joined(parts) <==> exists i :: 0 <= i < |parts| && item in parts[i]
  {
    if parts != [] {
      JoinedHolds(parts[1..], item);
      assert item in Joined(parts) <==> item in parts[0] || item in Joined(parts[1..]);
      assert item in parts[0] ==> exists i :: 0 <= i < |parts| && item in parts[i];
      if i :| 0 <= i < |parts[1..]| && item in parts[1..][i] {
        assert item in parts[i + 1];
      }
      if i :| 0 < i < |parts| && item in parts[i] {
        assert item in parts[1..][i - 1];
      }
    }
  }

  /** Entries are closed under listing: what stands in one of their directories is an entry, one level further down. */
  lemma {:induction false} EntriesClosed(n: Node, depth: nat, item: Item, c: nat)
    requires item in Entries(n, depth) && item.node.Directory? && c < |item.node.children|
    ensures Item(item.node.children[c], item.depth + 1) in Entries(n, depth)
    decreases n
  {
    if n.Directory? {
      EntriesOfDirectory(n, depth);
      var below := EntriesBelow(n, depth);
      var child := Item(item.node.children[c], item.depth + 1);
      JoinedHolds(below, item);
      JoinedHolds(below, child);
      if item == Item(n, depth) {
        assert below[c] == Entries(n.children[c], depth + 1);
        assert child == below[c][0];
      } else {
        var i :| 0 <= i < |below| && item in below[i];
        EntriesClosed(n.children[i], depth + 1, item, c);
        assert child in below[i];
      }
    }
  }

  /** One entry by itself may be walked. */
  predicate Walkable(item: Item) {
    && item.depth <= 32 && (item.node.File? || item.node.Directory?)
    && !item.node.meta.link && item.node.meta.owned
    && (item.node.File? ==> item.node.meta.links == 1)
    && (item.node.Directory? ==> item.node.listable)
  }

  predicate AllWalkable(items: seq<Item>) {
    forall i :: 0 <= i < |items| ==> Walkable(items[i])
  }

  function FileBytes(items: seq<Item>): nat {
    if items == [] then 0
    else (if items[0].node.File? then items[0].node.meta.length else 0) + FileBytes(items[1..])
  }

  function ModifiedOf(item: Item): Option<u64> {
    if item.node.Unreadable? then None else item.node.meta.modified
  }

  /** `latest` is the last of the times known, if any is known. */
  ghost predicate IsLatest(items: seq<Item>, latest: Option<u64>) {
    && (latest.Some? ==> exists i :: 0 <= i < |items| && ModifiedOf(items[i]) == latest)
    && forall i :: 0 <= i < |items| && ModifiedOf(items[i]).Some? ==>
         latest.Some? && ModifiedOf(items[i]).value <= latest.value
  }

  /** The survey says of these entries how many they are, whether all may be walked, their bytes and the latest time. */
  ghost predicate Summarises(s: Survey, items: seq<Item>) {
    && s.entries == |items| && (s.acceptable <==> AllWalkable(items))
    && s.bytes == FileBytes(items) && IsLatest(items, s.modified)
  }

  lemma {:induction false} FileBytesJoin(a: seq<Item>, b: seq<Item>)
    ensures FileBytes(a + b) == FileBytes(a) + FileBytes(b)
  {
    if a == [] {
      assert a + b == b;
    } else {
      assert (a + b)[1..] == a[1..] + b;
      FileBytesJoin(a[1..], b);
    }
  }

  lemma AllWalkableJoin(a: seq<Item>, b: seq<Item>)
    ensures AllWalkable(a + b) <==> AllWalkable(a) && AllWalkable(b)
  {
    var all := a + b;
    assert forall i :: 0 <= i < |a| ==> all[i] == a[i];
    assert forall i :: 0 <= i < |b| ==> all[|a| + i] == b[i];
  }

  lemma LatestJoins(a: seq<Item>, s: Option<u64>, b: seq<Item>, t: Option<u64>)
    requires IsLatest(a, s) && IsLatest(b, t)
    ensures IsLatest(a + b, MaxOption(s, t))
  {
    var all := a + b;
    if s.Some? {
      var i :| 0 <= i < |a| && ModifiedOf(a[i]) == s;
      assert all[i] == a[i];
    }
    if t.Some? {
      var i :| 0 <= i < |b| && ModifiedOf(b[i]) == t;
      assert all[|a| + i] == b[i];
    }
  }

  lemma SummariesJoin(a: seq<Item>, s: Survey, b: seq<Item>, t: Survey)
    requires Summarises(s, a) && Summarises(t, b)
    ensures Summarises(Join(s, t), a + b)
  {
    FileBytesJoin(a, b);
    AllWalkableJoin(a, b);
    LatestJoins(a, s.modified, b, t.modified);
  }

  lemma OwnSummarises(n: Node, depth: nat)
    ensures Summarises(Own(n, depth), [Item(n, depth)])
  {
    var items := [Item(n, depth)];
    assert items[1..] == [];
    assert AllWalkable(items) <==> Walkable(items[0]);
    assert ModifiedOf(items[0]) == Own(n, depth).modified;
  }

  lemma {:induction false} SumsSummarise(parts: seq<Survey>, items: seq<seq<Item>>)
    requires |parts| == |items| && forall i :: 0 <= i < |parts| ==> Summarises(parts[i], items[i])
    ensures Summarises(Sum(parts), Joined(items))
  {
    if parts != [] {
      SumsSummarise(parts[1..], items[1..]);
      SummariesJoin(items[0], parts[0], Joined(items[1..]), Sum(parts[1..]));
    }
  }

  /** The recursive survey is that of all the entries. */
  lemma {:induction false} RecursiveSummarises(n: Node, depth: nat)
    ensures Summarises(Recursive(n, depth), Entries(n, depth))
    decreases n
  {
    OwnSummarises(n, depth);
    if n.Directory? {
      var parts, below := Parts(n.children, depth + 1), EntriesBelow(n, depth);
      forall i | 0 <= i < |parts| ensures Summarises(parts[i], below[i]) {
        RecursiveSummarises(n.children[i], depth + 1);
      }
      SumsSummarise(parts, below);
      RecursiveOfDirectory(n, depth);
      EntriesOfDirectory(n, depth);
      SummariesJoin([Item(n, depth)], Own(n, depth), Joined(below), Sum(parts));
    }
  }

  /* ---------- The worklist ---------- */

  /** What each waiting entry still has to contribute. */
  function Owed(pending: seq<Item>): (parts: seq<Survey>)
    ensures |parts| == |pending|
  {
    seq(|pending|, i requires 0 <= i < |pending| => Recursive(pending[i].node, pending[i].depth))
  }

  lemma OwedCounts(pending: seq<Item>)
    ensures Sum(Owed(pending)).entries >= |pending|
  {
    forall i | 0 <= i < |pending| ensures Owed(pending)[i].entries >= 1 {
      RecursiveCountsItself(pending[i].node, pending[i].depth);
    }
    SumCounts(Owed(pending));
  }

  function AtDepth(ns: seq<Node>, depth: nat): (items: seq<Item>)
    ensures |items| == |ns|
  {
    seq(|ns|, i requires 0 <= i < |ns| => Item(ns[i], depth))
  }

  /** Bounded listing in whatever order the file system yields the entries. */
  method ReadDirectoryBounded(n: Node, limit: nat) returns (r: Result<seq<Node>, WalkError>)
    requires n.Directory?
    ensures r.Ok? <==> n.listable && |n.children| <= limit
    ensures r.Ok? ==> |r.value| == |n.children| && multiset(r.value) == multiset(n.children)
    ensures r.Err? ==> if n.listable then r.error == TooManyEntries else r.error == ListFailed
  {
    if !n.listable {
      return Err(ListFailed);
    }
    var entries, unread := [], n.children;
    while unread != []
      invariant multiset(entries) + multiset(unread) == multiset(n.children)
      invariant |entries| + |unread| == |n.children| && |entries| <= limit
      decreases |unread|
    {
      if |entries| == limit {
        return Err(TooManyEntries);
      }
      var i :| 0 <= i < |unread|;
      assert unread == unread[..i] + [unread[i]] + unread[i + 1..];
      entries, unread := entries + [unread[i]], unread[..i] + unread[i + 1..];
    }
    return Ok(entries);
  }

  /** Taking the last entry off the stack moves its part out of what is owed. */
  lemma OwedPop(pending: seq<Item>)
    requires pending != []
    ensures var last := |pending| - 1;
      Sum(Owed(pending)) == Join(Sum(Owed(pending[..last])), Recursive(pending[last].node, pending[last].depth))
  {
    var last := |pending| - 1;
    var top := Recursive(pending[last].node, pending[last].depth);
    assert Owed(pending) == Owed(pending[..last]) + [top];
    SumAppend(Owed(pending[..last]), [top]);
    JoinNothing(top);
    assert [top][1..] == [] && Sum([top]) == Join(top, NOTHING);
  }

  /** What is known of the whole tree when the top entry is looked at. */
  lemma WholeBounds(done: Survey, pending: seq<Item>)
    requires pending != []
    ensures var whole, item := Join(done, Sum(Owed(pending))), pending[|pending| - 1];
      && whole.entries >= done.entries + |pending|
      && (item.node.Directory? ==> whole.entries >= done.entries + |pending| + |item.node.children|)
      && (whole.acceptable ==> Own(item.node, item.depth).acceptable)
      && whole.bytes >= done.bytes + Own(item.node, item.depth).bytes
  {
    var last := |pending| - 1;
    var item := pending[last];
    OwedPop(pending);
    OwedCounts(pending[..last]);
    RecursiveCountsItself(item.node, item.depth);
    if item.node.Directory? {
      RecursiveOfDirectory(item.node, item.depth);
      PartsCount(item.node.children, item.depth + 1);
    }
  }

  /** Moving an entry without children from the stack to the done side keeps the total. */
  lemma DoneLeaf(done: Survey, pending: seq<Item>)
    requires pending != [] && !pending[|pending| - 1].node.Directory?
    ensures var last := |pending| - 1;
      Join(Join(done, Own(pending[last].node, pending[last].depth)), Sum(Owed(pending[..last])))
      == Join(done, Sum(Owed(pending)))
  {
    var last := |pending| - 1;
    OwedPop(pending);
    JoinLaws(done, Sum(Owed(pending[..last])), Own(pending[last].node, pending[last].depth));
  }

  /** Replacing a directory on the stack by its listed entries, in any order, keeps the total. */
  lemma DoneDirectory(done: Survey, pending: seq<Item>, listed: seq<Node>)
    requires pending != [] && pending[|pending| - 1].node.Directory?
    requires multiset(listed) == multiset(pending[|pending| - 1].node.children)
    ensures var last := |pending| - 1;
      Join(Join(done, Own(pending[last].node, pending[last].depth)),
           Sum(Owed(pending[..last] + AtDepth(listed, pending[last].depth + 1))))
      == Join(done, Sum(Owed(pending)))
  {
    var last := |pending| - 1;
    var n, depth := pending[last].node, pending[last].depth;
    var own, rest, below := Own(n, depth), Sum(Owed(pending[..last])), Sum(Parts(n.children, depth + 1));
    assert Sum(Owed(pending)) == Join(own, Join(rest, below)) by {
      OwedPop(pending);
      RecursiveOfDirectory(n, depth);
      JoinLaws(rest, own, below);
    }
    assert Sum(Owed(pending[..last] + AtDepth(listed, depth + 1))) == Join(rest, below) by {
      SumPermuted(listed, n.children, depth + 1);
      assert Owed(pending[..last] + AtDepth(listed, depth + 1)) == Owed(pending[..last]) + Parts(listed, depth + 1);
      SumAppend(Owed(pending[..last]), Parts(listed, depth + 1));
    }
    JoinLaws(done, own, Join(rest, below));
  }

  /** What each error says about some entry, or about all of them. */
  ghost predicate Explains(error: WalkError, all: seq<Item>) {
    match error
    case WalkLimit => exists item :: item in all && item.depth > 32
    case InspectFailed => exists item :: item in all && item.node.Unreadable?
    case NotOwned =>
      exists item :: item in all && !item.node.Unreadable?
        && (item.node.meta.link || !item.node.meta.owned || (item.node.File? && item.node.meta.links != 1))
    case ByteOverflow => FileBytes(all) >= U64_LIMIT
    case SpecialFile => exists item :: item in all && item.node.Special?
    case ListFailed => exists item :: item in all && item.node.Directory? && !item.node.listable
    case TooManyEntries => |all| > 100_000
    case NotADirectory => false
  }

  /** What each error says about the entry at which it arose. */
  predicate Faults(error: WalkError, item: Item, known: nat, bytes: nat) {
    match error
    case WalkLimit => item.depth > 32
    case InspectFailed => item.node.Unreadable?
    case NotOwned =>
      && !item.node.Unreadable?
      && (item.node.meta.link || !item.node.meta.owned || (item.node.File? && item.node.meta.links != 1))
    case ByteOverflow => item.node.File? && bytes + item.node.meta.length >= U64_LIMIT
    case SpecialFile => item.node.Special?
    case ListFailed => item.node.Directory? && !item.node.listable
    case TooManyEntries => item.node.Directory? && known + |item.node.children| > 100_000
    case NotADirectory => false
  }

  lemma FaultExplains(error: WalkError, item: Item, known: nat, bytes: nat, all: seq<Item>)
    requires Faults(error, item, known, bytes) && item in all
    requires item.node.File? ==> bytes + item.node.meta.length <= FileBytes(all)
    requires item.node.Directory? ==> known + |item.node.children| <= |all|
    ensures Explains(error, all)
  {
  }

  ghost predicate AmongEntries(pending: seq<Item>, all: seq<Item>) {
    forall i :: 0 <= i < |pending| ==> pending[i] in all
  }

  /** With a directory, everything it lists is among these entries. */
  ghost predicate ListsItself(all: seq<Item>) {
    forall item, c :: item in all && item.node.Directory? && 0 <= c < |item.node.children| ==>
      Item(item.node.children[c], item.depth + 1) in all
  }

  /** The limits, the bytes and the time of a tree, in terms of its entries. */
  lemma LimitsByEntries(root: Node)
    ensures var whole, all := Recursive(root, 0), Entries(root, 0);
      && (WithinLimits(root) <==> |all| <= 100_000 && AllWalkable(all) && FileBytes(all) < 0x1_0000_0000_0000_0000)
      && whole.entries == |all| && whole.bytes == FileBytes(all) && IsLatest(all, whole.modified)
  {
    RecursiveSummarises(root, 0);
  }

  lemma NextAreEntries(all: seq<Item>, pending: seq<Item>, listed: seq<Node>, next: seq<Item>)
    requires pending != [] && AmongEntries(pending, all) && ListsItself(all)
    requires var n := pending[|pending| - 1].node;
      if n.Directory? then multiset(listed) == multiset(n.children) else listed == []
    requires next == pending[..|pending| - 1] + AtDepth(listed, pending[|pending| - 1].depth + 1)
    ensures AmongEntries(next, all)
  {
    var last := |pending| - 1;
    var item := pending[last];
    forall i | 0 <= i < |next| ensures next[i] in all {
      if i < last {
        assert next[i] == pending[i];
      } else {
        assert listed[i - last] in multiset(listed);
        assert listed[i - last] in item.node.children;
        var c :| 0 <= c < |item.node.children| && item.node.children[c] == listed[i - last];
        assert next[i] == Item(item.node.children[c], item.depth + 1);
      }
    }
  }

  /** The checks of one round of the walk, and the listing of a directory. */
  method VisitEntry(item: Item, count: nat, waiting: nat, bytes: u64) returns (r: Result<seq<Node>, WalkError>)
    requires count <= MAX_TREE_ENTRIES
    ensures r.Ok? <==>
      && Own(item.node, item.depth).acceptable && bytes + Own(item.node, item.depth).bytes < U64_LIMIT
      && (item.node.Directory? ==> |item.node.children| <= Max(MAX_TREE_ENTRIES - (count + waiting), 0))
    ensures r.Ok? ==>
      if item.node.Directory?
      then |r.value| == |item.node.children| && multiset(r.value) == multiset(item.node.children)
      else r.value == []
    ensures r.Err? ==> Faults(r.error, item, count + waiting, bytes)
  {
    if count > MAX_TREE_ENTRIES || item.depth > MAX_TREE_DEPTH {
      return Err(WalkLimit);
    }
    if item.node.Unreadable? {
      return Err(InspectFailed);
    }
    if !Owned(item.node) {
      return Err(NotOwned);
    }
    if item.node.File? {
      return if bytes + item.node.meta.length >= U64_LIMIT then Err(ByteOverflow) else Ok([]);
    }
    if item.node.Directory? {
      r := ReadDirectoryBounded(item.node, Max(MAX_TREE_ENTRIES - (count + waiting), 0));
      return;
    }
    return Err(SpecialFile);
  }

  /** Halfway: what was counted and what is still owed make up the whole tree. */
  ghost predicate Walking(whole: Survey, pending: seq<Item>, count: nat, stats: TreeStats) {
    && Join(Survey(count, true, stats.bytes, stats.modified), Sum(Owed(pending))) == whole
    && count + |pending| <= MAX_TREE_ENTRIES
  }

  lemma WalkStarts(root: Node)
    ensures Walking(Recursive(root, 0), [Item(root, 0)], 0, TreeStats(0, None))
    ensures Summarises(Recursive(root, 0), Entries(root, 0)) && ListsItself(Entries(root, 0))
    ensures AmongEntries([Item(root, 0)], Entries(root, 0))
  {
    var pending := [Item(root, 0)];
    OwedPop(pending);
    JoinNothing(Recursive(root, 0));
    JoinNothing(Sum(Owed(pending)));
    RecursiveSummarises(root, 0);
    forall item, c | item in Entries(root, 0) && item.node.Directory? && 0 <= c < |item.node.children|
      ensures Item(item.node.children[c], item.depth + 1) in Entries(root, 0)
    {
      EntriesClosed(root, 0, item, c);
    }
  }

  /** A round that fails: the tree is not within its limits, and the error says why. */
  lemma WalkStops(whole: Survey, all: seq<Item>, pending: seq<Item>, count: nat, stats: TreeStats, error: WalkError)
    requires Walking(whole, pending, count, stats) && Summarises(whole, all)
    requires pending != [] && AmongEntries(pending, all)
    requires var item := pending[|pending| - 1];
      && Faults(error, item, count + |pending|, stats.bytes)
      && !(&& Own(item.node, item.depth).acceptable && stats.bytes + Own(item.node, item.depth).bytes < U64_LIMIT
           && (item.node.Directory? ==> count + |pending| + |item.node.children| <= MAX_TREE_ENTRIES))
    ensures !Passes(whole) && Explains(error, all)
  {
    WholeBounds(Survey(count, true, stats.bytes, stats.modified), pending);
    FaultExplains(error, pending[|pending| - 1], count + |pending|, stats.bytes, all);
  }

  /** One round: the entry is counted, and what its directory lists is owed in its place. */
  lemma WalkContinues(whole: Survey, pending: seq<Item>, count: nat, stats: TreeStats, listed: seq<Node>,
                      next: seq<Item>, after: TreeStats)
    requires Walking(whole, pending, count, stats) && pending != []
    requires var item := pending[|pending| - 1];
      && Own(item.node, item.depth).acceptable && count + |pending| + |listed| <= MAX_TREE_ENTRIES
      && (if item.node.Directory? then multiset(listed) == multiset(item.node.children) else listed == [])
      && after.bytes == stats.bytes + Own(item.node, item.depth).bytes
      && after.modified == MaxOption(stats.modified, item.node.meta.modified)
    requires next == pending[..|pending| - 1] + AtDepth(listed, pending[|pending| - 1].depth + 1)
    ensures Walking(whole, next, count + 1, after)
  {
    var last := |pending| - 1;
    var item, done := pending[last], Survey(count, true, stats.bytes, stats.modified);
    if item.node.Directory? {
      DoneDirectory(done, pending, listed);
    } else {
      DoneLeaf(done, pending);
      assert next == pending[..last];
    }
  }

  lemma WalkEnds(whole: Survey, count: nat, stats: TreeStats)
    requires Walking(whole, [], count, stats)
    ensures whole == Survey(count, true, stats.bytes, stats.modified) && count <= MAX_TREE_ENTRIES
  {
    JoinNothing(Survey(count, true, stats.bytes, stats.modified));
  }

  /** The loop over the stack, for a tree with this survey and these entries. */
  method Walk(root: Node, ghost whole: Survey, ghost all: seq<Item>) returns (r: Result<TreeStats, WalkError>)
    requires Walking(whole, [Item(root, 0)], 0, TreeStats(0, None)) && Summarises(whole, all)
    requires AmongEntries([Item(root, 0)], all) && ListsItself(all)
    ensures r.Ok? <==> Passes(whole)
    ensures r.Ok? ==> r.value == TreeStats(whole.bytes, whole.modified)
    ensures r.Err? ==> Explains(r.error, all)
  {
    var pending := [Item(root, 0)];
    var count: nat := 0;
    var stats := TreeStats(0, None);
    while pending != []
      invariant Walking(whole, pending, count, stats) && AmongEntries(pending, all)
      decreases MAX_TREE_ENTRIES + 1 - count
    {
      var last := |pending| - 1;
      var item := pending[last];
      ghost var before, found, counted := pending, stats, count;
      pending := pending[..last];
      count := count + 1;
      var listed := VisitEntry(item, count, |pending|, stats.bytes);
      if listed.Err? {
        WalkStops(whole, all, before, counted, stats, listed.error);
        return Err(listed.error);
      }
      stats := stats.(modified := MaxOption(stats.modified, item.node.meta.modified));
      if item.node.File? {
        stats := stats.(bytes := stats.bytes + item.node.meta.length);
      }
      pending := pending + AtDepth(listed.value, item.depth + 1);
      WalkContinues(whole, before, counted, found, listed.value, pending, stats);
      NextAreEntries(all, before, listed.value, pending);
    }
    WalkEnds(whole, count, stats);
    return Ok(stats);
  }

  /** The walk with its stack succeeds exactly on the trees within limits, and then reports the recursive sums. */
  method InspectCacheTree(root: Node) returns (r: Result<TreeStats, WalkError>)
    ensures r.Ok? <==> WithinLimits(root)
    ensures r.Ok? ==> r.value == TreeStats(Recursive(root, 0).bytes, Recursive(root, 0).modified)
    ensures r.Err? ==> Explains(r.error, Entries(root, 0))
  {
    WalkStarts(root);
    r := Walk(root, Recursive(root, 0), Entries(root, 0));
  }

  /** Nothing is removed unless the path is an owned directory whose whole tree may be walked. */
  method RemoveCacheTree(root: Node, removable: bool) returns (removed: bool, r: Result<(), WalkError>)
    ensures removed <==> Owned(root) && root.Directory? && WithinLimits(root) && removable
    ensures removed <==> r.Ok?
  {
    removed := false;
    if root.Unreadable? {
      return false, Err(InspectFailed);
    }
    if !Owned(root) {
      return false, Err(NotOwned);
    }
    if !root.Directory? {
      return false, Err(NotADirectory);
    }
    var inspected := InspectCacheTree(root);
    if inspected.Err? {
      return false, Err(inspected.error);
    }
    if !removable {
      return false, Err(ListFailed);
    }
    return true, Ok(());
  }
}

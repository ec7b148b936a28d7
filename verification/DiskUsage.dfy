/** The disk-usage walk (`crates/openvhost-core/src/home.rs`, `dir_size_no_follow`). */
module DiskUsage {
  import opened Prelude

  /**
   * What a path names, without following links. `Vanished` is an entry whose metadata could not be read, `Special` any
   * other kind of file. A directory that cannot be read still has entries nobody sees.
   */
  datatype Node =
    | File(size: nat)
    | Symlink
    | Special
    | Vanished
    | Dir(readable: bool, entries: seq<Node>)

  /** The bytes of the regular files reachable from `node` through readable directories. */
  function Size(node: Node): nat {
    match node
    case File(size) => size
    case Dir(readable, entries) => if readable then SizeAll(entries) else 0
    case _ => 0
  }

  function SizeAll(nodes: seq<Node>): nat {
    if |nodes| == 0 then 0 else Size(nodes[0]) + SizeAll(nodes[1..])
  }

  lemma {:induction false} SizeAllConcat(a: seq<Node>, b: seq<Node>)
    ensures SizeAll(a + b) == SizeAll(a) + SizeAll(b)
  {
    if |a| == 0 {
      assert a + b == b;
    } else {
      assert (a + b)[1..] == a[1..] + b;
      SizeAllConcat(a[1..], b);
    }
  }

  function Count(node: Node): nat {
    1 + if node.Dir? then CountAll(node.entries) else 0
  }

  function CountAll(nodes: seq<Node>): nat {
    if |nodes| == 0 then 0 else Count(nodes[0]) + CountAll(nodes[1..])
  }

  lemma {:induction false} CountAllConcat(a: seq<Node>, b: seq<Node>)
    ensures CountAll(a + b) == CountAll(a) + CountAll(b)
  {
    if |a| == 0 {
      assert a + b == b;
    } else {
      assert (a + b)[1..] == a[1..] + b;
      CountAllConcat(a[1..], b);
    }
  }

  lemma SnocSums(nodes: seq<Node>, x: Node)
    ensures SizeAll(nodes + [x]) == SizeAll(nodes) + Size(x)
    ensures CountAll(nodes + [x]) == CountAll(nodes) + Count(x)
  {
    SizeAllConcat(nodes, [x]);
    CountAllConcat(nodes, [x]);
  }

  /** The walk over one directory: files are added up, directories are pushed, links and the rest are skipped. */
  method ScanEntries(entries: seq<Node>, stack0: seq<Node>, total0: nat, ghost counted0: nat)
    returns (stack: seq<Node>, total: nat, ghost counted: nat)
    requires total0 == Saturating(counted0)
    requires forall i :: 0 <= i < |stack0| ==> stack0[i].Dir?
    ensures total == Saturating(counted)
    ensures forall i :: 0 <= i < |stack| ==> stack[i].Dir?
    ensures counted + SizeAll(stack) == counted0 + SizeAll(stack0) + SizeAll(entries)
    ensures CountAll(stack) <= CountAll(stack0) + CountAll(entries)
  {
    stack, total, counted := stack0, total0, counted0;
    var i := 0;
    while i < |entries|
      invariant 0 <= i <= |entries|
      invariant total == Saturating(counted)
      invariant forall j :: 0 <= j < |stack| ==> stack[j].Dir?
      invariant counted + SizeAll(stack) == counted0 + SizeAll(stack0) + SizeAll(entries[..i])
      invariant CountAll(stack) <= CountAll(stack0) + CountAll(entries[..i])
    {
      var entry := entries[i];
      assert entries[..i + 1] == entries[..i] + [entry];
      SnocSums(entries[..i], entry);
      SnocSums(stack, entry);
      match entry {
        case Dir(_, _) => stack := stack + [entry];
        case File(size) => total, counted := Saturating(total + size), counted + size;
        case Symlink => case Special => case Vanished =>
      }
      i := i + 1;
    }
    assert entries[..i] == entries;
  }

  /** Total bytes under `root`; a root that cannot be read as a directory counts nothing. */
  method DirSizeNoFollow(root: Node) returns (total: nat)
    ensures total == if root.Dir? then Saturating(Size(root)) else 0
  {
    total := 0;
    if !root.Dir? {
      return;
    }
    var stack := [root];
    ghost var counted: nat := 0;
    while |stack| > 0
      invariant forall i :: 0 <= i < |stack| ==> stack[i].Dir?
      invariant total == Saturating(counted)
      invariant counted + SizeAll(stack) == Size(root)
      decreases CountAll(stack)
    {
      var dir := stack[|stack| - 1];
      var rest := stack[..|stack| - 1];
      assert stack == rest + [dir];
      SnocSums(rest, dir);
      if dir.readable {
        stack, total, counted := ScanEntries(dir.entries, rest, total, counted);
      } else {
        stack := rest;
      }
    }
  }

  // ---- what the figure does not depend on ----

  /** `b` is `a` with one directory's entries reordered, or with one symlink added somewhere below the root. */
  ghost predicate Disturbed(a: Node, b: Node)
    decreases a
  {
    a.Dir? && b.Dir? && a.readable == b.readable &&
    (|| multiset(a.entries) == multiset(b.entries)
     || (exists i :: 0 <= i <= |a.entries| && b.entries == a.entries[..i] + [Symlink] + a.entries[i..])
     || (exists i :: 0 <= i < |a.entries| && i < |b.entries| && Disturbed(a.entries[i], b.entries[i])
                     && b.entries == a.entries[i := b.entries[i]]))
  }

  /** The rest of a list, and a permutation of it cut at where its first element went. */
  lemma CutAtFirst(a: seq<Node>, b: seq<Node>) returns (before: seq<Node>, after: seq<Node>)
    requires multiset(a) == multiset(b) && |a| > 0
    ensures b == before + ([a[0]] + after) && multiset(a[1..]) == multiset(before + after)
  {
    assert a[0] in multiset(b);
    var k :| 0 <= k < |b| && b[k] == a[0];
    before, after := b[..k], b[k + 1..];
    assert a == [a[0]] + a[1..];
    assert b == before + ([b[k]] + after);
    assert multiset(a[1..]) == multiset(a) - multiset{a[0]};
    assert multiset(before + after) == multiset(b) - multiset{b[k]};
  }

  lemma SizeWithOne(before: seq<Node>, x: Node, after: seq<Node>)
    ensures SizeAll(before + ([x] + after)) == Size(x) + SizeAll(before + after)
  {
    SizeAllConcat(before, [x] + after);
    SizeAllConcat([x], after);
    SizeAllConcat(before, after);
  }

  lemma {:induction false} SizeAllPermuted(a: seq<Node>, b: seq<Node>)
    requires multiset(a) == multiset(b)
    ensures SizeAll(a) == SizeAll(b)
  {
    if |a| > 0 {
      var before, after := CutAtFirst(a, b);
      SizeAllPermuted(a[1..], before + after);
      SizeWithOne(before, a[0], after);
    } else {
      assert |multiset(b)| == 0;
    }
  }

  lemma {:induction false} DisturbedSameSize(a: Node, b: Node)
    requires Disturbed(a, b)
    ensures Size(a) == Size(b)
    decreases a
  {
    if multiset(a.entries) == multiset(b.entries) {
      SizeAllPermuted(a.entries, b.entries);
    } else if i :| 0 <= i <= |a.entries| && b.entries == a.entries[..i] + [Symlink] + a.entries[i..] {
      SymlinkAddedAt(a.entries, b.entries, i);
    } else {
      var i :| 0 <= i < |a.entries| && i < |b.entries| && Disturbed(a.entries[i], b.entries[i])
               && b.entries == a.entries[i := b.entries[i]];
      DisturbedSameSize(a.entries[i], b.entries[i]);
      SizeAllReplaced(a.entries, i, b.entries[i]);
    }
  }

  lemma SymlinkAddedAt(a: seq<Node>, b: seq<Node>, i: nat)
    requires i <= |a| && b == a[..i] + [Symlink] + a[i..]
    ensures SizeAll(a) == SizeAll(b)
  {
    SymlinkAddsNothing(a[..i], a[i..]);
    assert a == a[..i] + a[i..];
  }

  lemma SymlinkAddsNothing(before: seq<Node>, after: seq<Node>)
    ensures SizeAll(before + [Symlink] + after) == SizeAll(before + after)
  {
    SizeAllConcat(before, after);
    SizeAllConcat(before + [Symlink], after);
    SizeAllConcat(before, [Symlink]);
  }

  lemma SizeAllReplaced(nodes: seq<Node>, i: nat, x: Node)
    requires i < |nodes| && Size(nodes[i]) == Size(x)
    ensures SizeAll(nodes[i := x]) == SizeAll(nodes)
  {
    assert nodes == nodes[..i] + ([nodes[i]] + nodes[i + 1..]);
    assert nodes[i := x] == nodes[..i] + ([x] + nodes[i + 1..]);
    SizeAllConcat(nodes[..i], [nodes[i]] + nodes[i + 1..]);
    SizeAllConcat(nodes[..i], [x] + nodes[i + 1..]);
  }

  /** No regular file can be reached through readable directories. */
  predicate NoFiles(node: Node)
    decreases node
  {
    !node.File? && (node.Dir? && node.readable ==> forall i :: 0 <= i < |node.entries| ==> NoFiles(node.entries[i]))
  }

  /** Only regular files count: links, special files, vanished entries and unreadable directories do not. */
  lemma {:induction false} NoFilesNoBytes(node: Node)
    requires NoFiles(node)
    ensures Size(node) == 0
    decreases node, 1
  {
    if node.Dir? && node.readable {
      NoneHasBytes(node, |node.entries|);
    }
  }

  lemma {:induction false} NoneHasBytes(node: Node, n: nat)
    requires node.Dir? && node.readable && NoFiles(node) && n <= |node.entries|
    ensures SizeAll(node.entries[..n]) == 0
    ensures n == |node.entries| ==> SizeAll(node.entries) == 0
    decreases node, 0, n
  {
    if n > 0 {
      NoneHasBytes(node, n - 1);
      NoFilesNoBytes(node.entries[n - 1]);
      assert node.entries[..n] == node.entries[..n - 1] + [node.entries[n - 1]];
      SnocSums(node.entries[..n - 1], node.entries[n - 1]);
    }
    if n == |node.entries| {
      assert node.entries[..n] == node.entries;
    }
  }

  /** `b` is `a` with one more regular file of `bytes` bytes somewhere below readable directories. */
  ghost predicate Grown(a: Node, b: Node, bytes: nat)
    decreases a
  {
    a.Dir? && b.Dir? && a.readable && b.readable &&
    (|| (exists i :: 0 <= i <= |a.entries| && b.entries == a.entries[..i] + [File(bytes)] + a.entries[i..])
     || (exists i :: 0 <= i < |a.entries| && i < |b.entries| && Grown(a.entries[i], b.entries[i], bytes)
                     && b.entries == a.entries[i := b.entries[i]]))
  }

  /** A file counts with its size, once, however deep it is. */
  lemma {:induction false} FileCountsItsSize(a: Node, b: Node, bytes: nat)
    requires Grown(a, b, bytes)
    ensures Size(b) == Size(a) + bytes
    decreases a
  {
    if i :| 0 <= i <= |a.entries| && b.entries == a.entries[..i] + [File(bytes)] + a.entries[i..] {
      assert a.entries == a.entries[..i] + a.entries[i..];
      SizeAllConcat(a.entries[..i], a.entries[i..]);
      SizeAllConcat(a.entries[..i] + [File(bytes)], a.entries[i..]);
      SnocSums(a.entries[..i], File(bytes));
    } else {
      var i :| 0 <= i < |a.entries| && i < |b.entries| && Grown(a.entries[i], b.entries[i], bytes)
               && b.entries == a.entries[i := b.entries[i]];
      FileCountsItsSize(a.entries[i], b.entries[i], bytes);
      SizeAllSplit(a.entries, i);
      SizeAllSplit(b.entries, i);
      assert a.entries[..i] == b.entries[..i] && a.entries[i + 1..] == b.entries[i + 1..];
    }
  }

  lemma SizeAllSplit(nodes: seq<Node>, i: nat)
    requires i < |nodes|
    ensures SizeAll(nodes) == SizeAll(nodes[..i]) + Size(nodes[i]) + SizeAll(nodes[i + 1..])
  {
    assert nodes == nodes[..i] + ([nodes[i]] + nodes[i + 1..]);
    SizeAllConcat(nodes[..i], [nodes[i]] + nodes[i + 1..]);
  }

  /** Any number of reorderings and added symlinks, at any depth, leaves the figure as it was. */
  lemma {:induction false} OrderAndLinksIrrelevant(versions: seq<Node>)
    requires |versions| > 0
    requires forall i :: 0 <= i < |versions| - 1 ==> Disturbed(versions[i], versions[i + 1])
    ensures Saturating(Size(versions[0])) == Saturating(Size(versions[|versions| - 1]))
  {
    if |versions| > 1 {
      DisturbedSameSize(versions[0], versions[1]);
      OrderAndLinksIrrelevant(versions[1..]);
    }
  }
}

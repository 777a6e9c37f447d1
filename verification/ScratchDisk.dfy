/** Deleting a scratch root on a disk with symbolic links
    (src-inspect-ai/src/seon_inspect/seon_cluster.py). */
module ScratchDisk {
  import opened Options

  type Path = seq<string>

  /** A link names another path, which may itself lead through links. */
  datatype Kind = Dir | File | Link(target: Path)

  /** What stands at each place; a place is a path that leads through directories only. */
  type Files = map<Path, Kind>

  function Under(fs: Files, place: Path): set<Path> {
    set p | p in fs && place <= p
  }

  function Names(fs: Files, dir: Path): set<string> {
    set p | p in fs && |p| == |dir| + 1 && dir <= p :: p[|dir|]
  }

  /** Every entry but the topmost lies in a directory. */
  ghost predicate Rooted(fs: Files) {
    forall p :: p in fs ==> if p == [] then fs[p] == Dir else p[..|p| - 1] in fs && fs[p[..|p| - 1]] == Dir
  }

  // ---- Resolution ----

  /** The place a path leads to, following every link on the way and at its end; None for too many links. */
  function Reach(fs: Files, p: Path, hops: nat): Option<Path>
    decreases hops, |p|, 1
  {
    var place := PlaceOf(fs, p, hops);
    if place.None? then None
    else if p != [] && place.value in fs && fs[place.value].Link? then
      if hops == 0 then None else Reach(fs, fs[place.value].target, hops - 1)
    else place
  }

  /** The place a path names, following the links on the way but not one at its end. */
  function PlaceOf(fs: Files, p: Path, hops: nat): Option<Path>
    decreases hops, |p|, 0
  {
    if p == [] then Some([])
    else
      var dir := Reach(fs, p[..|p| - 1], hops);
      if dir.None? then None else Some(dir.value + [p[|p| - 1]])
  }

  ghost predicate Submap(fs: Files, was: Files) {
    forall p :: p in fs ==> p in was && fs[p] == was[p]
  }

  /** The path no longer leads anywhere. */
  predicate Lost(fs: Files, place: Option<Path>) {
    place.Some? && place.value !in fs
  }

  /** Removing entries never makes a path lead to another entry: it leads where it did, or nowhere. */
  lemma {:induction false} ReachLess(was: Files, fs: Files, p: Path, hops: nat)
    requires Rooted(was) && Rooted(fs) && Submap(fs, was)
    ensures Reach(fs, p, hops) == Reach(was, p, hops) || Lost(fs, Reach(fs, p, hops))
    ensures PlaceOf(fs, p, hops) == PlaceOf(was, p, hops) || Lost(fs, PlaceOf(fs, p, hops))
    decreases hops, |p|
  {
    if p != [] {
      ReachLess(was, fs, p[..|p| - 1], hops);
      var place := PlaceOf(fs, p, hops);
      if place.Some? {
        assert place.value[..|place.value| - 1] == Reach(fs, p[..|p| - 1], hops).value;
        if place.value in fs && fs[place.value].Link? && hops > 0 {
          ReachLess(was, fs, fs[place.value].target, hops - 1);
        }
      }
    }
  }

  /** Only links lead anywhere: with the same links every path leads where it did. */
  lemma {:induction false} SameLinks(was: Files, fs: Files, p: Path, hops: nat)
    requires forall q :: (q in was && was[q].Link?) || (q in fs && fs[q].Link?) ==> q in was && q in fs && was[q] == fs[q]
    ensures Reach(fs, p, hops) == Reach(was, p, hops) && PlaceOf(fs, p, hops) == PlaceOf(was, p, hops)
    decreases hops, |p|
  {
    if p != [] {
      SameLinks(was, fs, p[..|p| - 1], hops);
      var place := PlaceOf(was, p, hops);
      if place.Some? && place.value in was && was[place.value].Link? && hops > 0 {
        SameLinks(was, fs, was[place.value].target, hops - 1);
      }
    }
  }

  lemma {:induction false} StayRefused(was: Files, now: Files, c: Path, refused: set<Path>)
    requires Stay(was, now, refused) && Under(now, c) == {}
    ensures Under(was, c) * refused == {}
  {
    assert forall p :: p in Under(was, c) && p in refused ==> p in Under(now, c);
  }

  /** A path that ends at a directory names the place it leads to. */
  lemma {:induction false} ReachOfDir(fs: Files, p: Path, hops: nat, c: Path)
    requires PlaceOf(fs, p, hops) == Some(c) && c in fs && fs[c] == Dir
    ensures Reach(fs, p, hops) == Some(c)
  {
  }

  // ---- What a deletion may do ----

  /** What is not at or below the place is as it was, and nothing is new. */
  ghost predicate OnlyWithin(was: Files, now: Files, place: Path) {
    Submap(now, was) && forall p :: p in was && !(place <= p) ==> p in now
  }

  /** The places whose removal is refused are still there. */
  ghost predicate Stay(was: Files, now: Files, refused: set<Path>) {
    forall p :: p in was && p in refused ==> p in now
  }

  /** A deletion of `root`, which named the place c: nothing else is touched and refused places stay; success leaves
      nothing there; what is no directory, a link for one, is refused untouched; and it fails exactly for a root that is
      no directory, a refused removal, or a root whose own path ran through what was deleted. */
  ghost predicate Deletion(was: Files, now: Files, root: Path, hops: nat, c: Path, refused: set<Path>, ok: bool) {
    && OnlyWithin(was, now, c) && Stay(was, now, refused)
    && (ok ==> Under(now, c) == {})
    && (c in was && was[c] != Dir ==> now == was)
    && (!ok <==> c in was && (was[c] != Dir || Under(was, c) * refused != {} || PlaceOf(now, root, hops) != Some(c)))
  }

  class Disk {
    var fs: Files
    /** The system's limit on links in a path, and the places whose removal it refuses. */
    const hops: nat
    const refused: set<Path>

    constructor (fs: Files, hops: nat, refused: set<Path>)
      ensures this.fs == fs && this.hops == hops && this.refused == refused
    {
      this.fs, this.hops, this.refused := fs, hops, refused;
    }

    /** path.unlink() */
    method Unlink(p: Path) returns (ok: bool)
      requires Rooted(fs)
      modifies this
      ensures Rooted(fs)
      ensures var c := PlaceOf(old(fs), p, hops);
        && ok == (c.Some? && c.value in old(fs) && old(fs)[c.value] != Dir && c.value !in refused)
        && fs == if ok then old(fs) - {c.value} else old(fs)
    {
      var c := PlaceOf(fs, p, hops);
      ok := c.Some? && c.value in fs && fs[c.value] != Dir && c.value !in refused;
      if ok { fs := fs - {c.value}; }
    }

    /** path.rmdir() */
    method Rmdir(p: Path) returns (ok: bool)
      requires Rooted(fs)
      modifies this
      ensures Rooted(fs)
      ensures var c := PlaceOf(old(fs), p, hops);
        && ok == (c.Some? && c.value in old(fs) && old(fs)[c.value] == Dir && Under(old(fs), c.value) == {c.value}
                  && c.value !in refused)
        && fs == if ok then old(fs) - {c.value} else old(fs)
    {
      var c := PlaceOf(fs, p, hops);
      ok := c.Some? && c.value in fs && fs[c.value] == Dir && Under(fs, c.value) == {c.value} && c.value !in refused;
      if ok {
        assert forall q :: q in fs && q != [] && q[..|q| - 1] == c.value ==> q in Under(fs, c.value) && q != c.value;
        fs := fs - {c.value};
      }
    }

    method DeleteTree(root: Path) returns (ok: bool)
      requires Rooted(fs)
      modifies this
      ensures Rooted(fs)
      ensures PlaceOf(old(fs), root, hops).None? ==> ok && fs == old(fs)
      ensures PlaceOf(old(fs), root, hops).Some? ==>
        Deletion(old(fs), fs, root, hops, PlaceOf(old(fs), root, hops).value, refused, ok)
      decreases UnderPlace(fs, PlaceOf(fs, root, hops)), 1
    {
      var place := PlaceOf(fs, root, hops);
      if place.None? { return true; }
      var c := place.value;
      if c in fs && fs[c].Link? { return false; }
      if c !in fs {
        NothingBelow(fs, c);
        return true;
      }
      if fs[c] != Dir { return false; }
      ReachOfDir(fs, root, hops, c);
      ghost var was := fs;
      assert c in Under(was, c);
      ok := DeleteEntries(root, c);
      if ok {
        ghost var now := fs;
        ReachLess(was, now, root, hops);
        ok := Rmdir(root);
        assert c in refused ==> c in Under(was, c) * refused;
        Removed(was, now, fs, c, ok);
        SameLinks(now, fs, root, hops);
      }
      if ok { StayRefused(was, fs, c, refused); }
    }

    /** The loop over the entries of the directory c, which `root` led to when it was opened; each is removed by
        its path. */
    method DeleteEntries(root: Path, c: Path) returns (ok: bool)
      requires Rooted(fs) && c in fs && fs[c] == Dir && PlaceOf(fs, root, hops) == Some(c)
      modifies this
      ensures Rooted(fs) && OnlyWithin(old(fs), fs, c) && Stay(old(fs), fs, refused) && c in fs && fs[c] == Dir
      ensures ok && PlaceOf(fs, root, hops) == Some(c) ==> Under(fs, c) == {c}
      ensures !ok ==> Under(old(fs), c) * refused != {} || PlaceOf(fs, root, hops) != Some(c)
      decreases UnderPlace(fs, PlaceOf(fs, root, hops)), 0
    {
      var todo := Names(fs, c);
      ghost var was := fs;
      while todo != {}
        invariant Rooted(fs) && OnlyWithin(was, fs, c) && Stay(was, fs, refused) && c in fs && fs[c] == Dir
        invariant todo <= Names(fs, c)
        invariant PlaceOf(fs, root, hops) == Some(c) ==> Names(fs, c) <= todo
        decreases todo
      {
        var name :| name in todo;
        ghost var now := fs;
        EntryPlace(was, fs, root, hops, c, name);
        NameIs(fs, c, name);
        ghost var entry := PlaceOf(fs, root + [name], hops).value;
        EntrySmaller(was, fs, c, name, entry);
        var gone := RemoveEntry(root, c, name, entry);
        EntryGone(now, fs, c, name, entry);
        StillLeads(now, fs, root, hops, c, name);
        if !gone {
          EntryRefused(was, now, fs, root, hops, c, name, entry, refused);
          return false;
        }
        todo := todo - {name};
      }
      if PlaceOf(fs, root, hops) == Some(c) { OnlyItself(fs, c); }
      ok := true;
    }

    /** entry.is_symlink(), entry.is_dir() and the removal by path. `entry` is the place the path names. */
    method RemoveEntry(root: Path, c: Path, name: string, ghost entry: Path) returns (gone: bool)
      requires Rooted(fs) && c + [name] in fs && PlaceOf(fs, root + [name], hops) == Some(entry)
      requires entry == c + [name] || entry !in fs
      modifies this
      ensures Rooted(fs) && OnlyWithin(old(fs), fs, entry) && Stay(old(fs), fs, refused) && (gone ==> entry !in fs)
      ensures !gone ==> Under(old(fs), entry) * refused != {} || PlaceOf(fs, root + [name], hops) != Some(c + [name])
      decreases Under(fs, entry), 2
    {
      ghost var now := fs;
      assert entry <= entry;
      if fs[c + [name]] == Dir {
        gone := DeleteTree(root + [name]);
        assert entry in fs ==> entry in Under(fs, entry);
      } else {
        gone := Unlink(root + [name]);
        assert entry in now && entry in refused ==> entry in Under(now, entry) * refused;
      }
    }
  }

  /** While the directory's path leads to it an entry's path names the entry, and afterwards nothing. */
  lemma {:induction false} EntryPlace(was: Files, fs: Files, root: Path, hops: nat, c: Path, name: string)
    requires Rooted(was) && Rooted(fs) && Submap(fs, was)
    requires c in fs && fs[c] == Dir && PlaceOf(was, root, hops) == Some(c)
    ensures var entry := PlaceOf(fs, root + [name], hops);
      if PlaceOf(fs, root, hops) == Some(c) then entry == Some(c + [name]) else Lost(fs, entry)
  {
    var p := root + [name];
    assert p[..|p| - 1] == root;
    ReachOfDir(was, root, hops, c);
    ReachLess(was, fs, root, hops);
    var x := Reach(fs, root, hops);
    if x != Some(c) {
      assert (x.value + [name])[..|x.value|] == x.value;
    }
  }

  /** What removing one entry leaves of the directory. */
  lemma {:induction false} EntryGone(now: Files, fs: Files, c: Path, name: string, entry: Path)
    requires Rooted(now) && Rooted(fs) && c in now && now[c] == Dir
    requires OnlyWithin(now, fs, entry) && (entry == c + [name] || entry !in now)
    ensures OnlyWithin(now, fs, c) && c in fs && fs[c] == Dir
    ensures forall n :: n in Names(now, c) && n != name ==> n in Names(fs, c)
    ensures Names(fs, c) <= Names(now, c)
    ensures entry !in fs && entry == c + [name] ==> name !in Names(fs, c)
  {
    if entry == c + [name] {
      assert c <= entry && !(entry <= c);
      forall p | p in now && entry <= p ensures c <= p {
        assert p[..|c|] == entry[..|c|];
      }
      forall n | n in Names(now, c) && n != name ensures n in Names(fs, c) {
        NameIs(now, c, n);
        assert (c + [n])[|c|] != entry[|c|];
        assert c + [n] in fs && (c + [n])[|c|] == n;
      }
      if name in Names(fs, c) { NameIs(fs, c, name); }
    } else {
      NothingBelow(now, entry);
      assert forall p :: p in now ==> p !in Under(now, entry);
      assert fs == now;
    }
  }

  /** A path that still leads to the directory led there before, and so do the paths of its entries. */
  lemma {:induction false} StillLeads(now: Files, fs: Files, root: Path, hops: nat, c: Path, name: string)
    requires Rooted(now) && Rooted(fs) && Submap(fs, now) && c in fs && fs[c] == Dir
    ensures PlaceOf(fs, root, hops) == Some(c) ==>
      PlaceOf(now, root, hops) == Some(c) && PlaceOf(fs, root + [name], hops) == Some(c + [name])
  {
    ReachLess(now, fs, root, hops);
    var p := root + [name];
    assert p[..|p| - 1] == root;
    if PlaceOf(fs, root, hops) == Some(c) { ReachOfDir(fs, root, hops, c); }
  }

  /** Why an entry could not be removed. */
  lemma {:induction false} EntryRefused(was: Files, now: Files, fs: Files, root: Path, hops: nat, c: Path, name: string,
                                        entry: Path, refused: set<Path>)
    requires Under(now, entry) <= Under(was, c)
    requires Under(now, entry) * refused != {} || PlaceOf(fs, root + [name], hops) != Some(c + [name])
    requires PlaceOf(fs, root, hops) == Some(c) ==> PlaceOf(fs, root + [name], hops) == Some(c + [name])
    ensures Under(was, c) * refused != {} || PlaceOf(fs, root, hops) != Some(c)
  {
    if x :| x in Under(now, entry) * refused { assert x in Under(was, c) * refused; }
  }

  lemma {:induction false} EntrySmaller(was: Files, fs: Files, c: Path, name: string, entry: Path)
    requires Rooted(fs) && Submap(fs, was) && c in was && (entry == c + [name] || entry !in fs)
    ensures Under(fs, entry) < Under(was, c) && Under(fs, entry) <= Under(was, c)
  {
    assert c in Under(was, c);
    if entry == c + [name] {
      assert c !in Under(fs, entry);
      forall p | p in Under(fs, entry) ensures p in Under(was, c) {
        assert p[..|c|] == entry[..|c|] == c;
      }
    } else {
      NothingBelow(fs, entry);
    }
  }

  lemma {:induction false} NameIs(fs: Files, c: Path, n: string)
    requires n in Names(fs, c)
    ensures c + [n] in fs
  {
    var p :| p in fs && |p| == |c| + 1 && c <= p && p[|c|] == n;
    assert p == c + [n];
  }

  /** The last step: the empty directory goes, or stays. */
  lemma {:induction false} Removed(was: Files, now: Files, fs: Files, c: Path, ok: bool)
    requires OnlyWithin(was, now, c) && fs == if ok then now - {c} else now
    requires ok ==> Under(now, c) == {c}
    ensures OnlyWithin(was, fs, c) && (ok ==> Under(fs, c) == {})
  {
    assert c <= c;
    if ok { assert forall p :: p in Under(fs, c) ==> p in Under(now, c); }
  }

  function UnderPlace(fs: Files, place: Option<Path>): set<Path> {
    if place.None? then {} else Under(fs, place.value)
  }

  lemma {:induction false} RootedChild(fs: Files, dir: Path, p: Path)
    requires Rooted(fs) && p in fs && dir <= p && |p| > |dir|
    ensures p[|dir|] in Names(fs, dir) && p[..|dir| + 1] in fs && dir in fs && fs[dir] == Dir
    decreases |p|
  {
    if |p| > |dir| + 1 {
      var q := p[..|p| - 1];
      RootedChild(fs, dir, q);
      assert q[..|dir| + 1] == p[..|dir| + 1];
    } else {
      assert p[..|p| - 1] == dir && p[..|dir| + 1] == p;
    }
  }

  lemma {:induction false} NothingBelow(fs: Files, c: Path)
    requires Rooted(fs) && c !in fs
    ensures Under(fs, c) == {}
  {
    forall p | p in fs ensures !(c <= p) {
      assert c <= p && |p| == |c| ==> p == c;
      if c <= p && |p| > |c| { RootedChild(fs, c, p); }
    }
  }

  lemma {:induction false} OnlyItself(fs: Files, c: Path)
    requires Rooted(fs) && c in fs && Names(fs, c) == {}
    ensures Under(fs, c) == {c}
  {
    forall p | p in fs && c <= p ensures p == c {
      if |p| > |c| { RootedChild(fs, c, p); }
    }
  }

  /** The path of an entry found through a link names an entry of the directory the link leads to, wherever that
      is: going into links would delete there. */
  lemma {:induction false} LinksLeadOut(fs: Files, dir: Path, hops: nat, c: Path, l: string, out: Path, name: string)
    requires hops > 0 && Reach(fs, dir, hops) == Some(c) && c + [l] in fs && fs[c + [l]].Link?
    requires Reach(fs, fs[c + [l]].target, hops - 1) == Some(out)
    ensures PlaceOf(fs, dir + [l] + [name], hops) == Some(out + [name])
  {
    var p := dir + [l];
    assert p[..|p| - 1] == dir && (p + [name])[..|p|] == p;
    assert PlaceOf(fs, p, hops) == Some(c + [l]);
    assert Reach(fs, p, hops) == Some(out);
  }
}

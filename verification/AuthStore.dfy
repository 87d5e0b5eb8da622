/** AuthStore of internal/store/auth.go: credential files in a directory of their own, reached through a link that is
 *  swapped when new credentials are registered. */
module AuthStore {
  import opened Common

  type Uid = string
  type Files = map<string, string>

  datatype File = File(name: string, data: string)

  /** The paths the store uses below the temporary directory: an entry's link, the link it is swapped with, and the
   *  directories made for it, whose random suffixes never repeat. */
  datatype Location = Link(uid: Uid) | Swap(uid: Uid) | Dir(uid: Uid, serial: nat)

  datatype Disk = Disk(dirs: map<Location, Files>, links: map<Location, Location>)

  /** What a reader finds behind a path. */
  function Resolve(d: Disk, p: Location): Option<Files> {
    if p in d.links && d.links[p] in d.dirs then Some(d.dirs[d.links[p]]) else None
  }

  /** What writing the files one after the other leaves. */
  function Written(files: seq<File>): Files {
    if files == [] then map[]
    else Written(files[..|files| - 1])[files[|files| - 1].name := files[|files| - 1].data]
  }

  /** Nothing that belongs to another uid has changed. */
  predicate Apart(d: Disk, n: Disk, uid: Uid) {
    && (forall p :: p in d.dirs && p.uid != uid ==> p in n.dirs && n.dirs[p] == d.dirs[p])
    && (forall p :: p in n.dirs && p.uid != uid ==> p in d.dirs)
    && (forall p :: p in d.links && p.uid != uid ==> p in n.links && n.links[p] == d.links[p])
    && (forall p :: p in n.links && p.uid != uid ==> p in d.links)
  }

  /** The file system. Every call may fail; a failing write may leave anything in the file, a failing removal of a
   *  directory any part of it. `seen` is the disk after every call. */
  class FileSystem {
    var disk: Disk
    var next: nat
    ghost var seen: seq<Disk>
    /** Whether no call fails of itself; and whether every rename does and no other call. */
    const sure: bool
    const stuck: bool

    ghost predicate Valid()
      reads this
    {
      && !(sure && stuck)
      && (forall p :: p in disk.dirs ==> p.Dir? && p.serial < next)
      && (forall p :: p in disk.links ==> disk.links[p].Dir? && disk.links[p].serial < next)
    }

    constructor (sure: bool, stuck: bool)
      requires !(sure && stuck)
      ensures Valid() && disk == Disk(map[], map[]) && seen == [] && this.sure == sure && this.stuck == stuck
    {
      this.sure, this.stuck, disk, next, seen := sure, stuck, Disk(map[], map[]), 0, [];
    }

    method Put(d: Disk)
      requires Valid() && (forall p :: p in d.dirs ==> p in disk.dirs)
      requires forall p :: p in d.links ==> d.links[p].Dir? && d.links[p].serial < next
      modifies this`disk, this`seen
      ensures Valid() && disk == d && seen == old(seen) + [d]
    {
      disk := d;
      seen := seen + [d];
    }

    method MkdirTemp(uid: Uid) returns (dir: Option<Location>)
      requires Valid()
      modifies this
      ensures Valid() && seen == old(seen) + [disk] && old(next) <= next
      ensures dir.Some? ==> dir.value == Dir(uid, old(next)) && next == old(next) + 1
                            && disk == old(disk).(dirs := old(disk.dirs)[dir.value := map[]])
      ensures dir.None? ==> disk == old(disk)
      ensures sure || stuck ==> dir.Some?
    {
      var ok := Chance(sure || stuck);
      if ok {
        dir := Some(Dir(uid, next));
        next := next + 1;
        disk := disk.(dirs := disk.dirs[dir.value := map[]]);
      } else {
        dir := None;
      }
      seen := seen + [disk];
    }

    /** os.Create and the write of all the data. */
    method WriteFile(dir: Location, f: File) returns (ok: bool)
      requires Valid() && dir in disk.dirs
      modifies this`disk, this`seen
      ensures Valid() && |seen| > |old(seen)| && seen[..|old(seen)|] == old(seen)
      ensures dir in disk.dirs && disk == old(disk).(dirs := old(disk.dirs)[dir := disk.dirs[dir]])
      ensures forall i :: |old(seen)| <= i < |seen| ==>
                dir in seen[i].dirs && seen[i] == old(disk).(dirs := old(disk.dirs)[dir := seen[i].dirs[dir]])
      ensures ok ==> disk.dirs[dir] == old(disk.dirs[dir])[f.name := f.data]
      ensures sure || stuck ==> ok
    {
      var files := disk.dirs[dir];
      ok := Chance(sure || stuck);
      if !ok {
        Put(disk);
        return;
      }
      Put(disk.(dirs := disk.dirs[dir := files[f.name := ""]]));
      ok := Chance(sure || stuck);
      var garbage: string := *;
      Put(disk.(dirs := disk.dirs[dir := files[f.name := if ok then f.data else garbage]]));
    }

    /** Refuses a path that is taken. */
    method Symlink(target: Location, path: Location) returns (ok: bool)
      requires Valid() && target in disk.dirs
      modifies this`disk, this`seen
      ensures Valid() && seen == old(seen) + [disk]
      ensures ok ==> path !in old(disk.links) && disk == old(disk).(links := old(disk.links)[path := target])
      ensures !ok ==> disk == old(disk)
      ensures sure || stuck ==> (ok <==> path !in old(disk.links))
    {
      ok := Chance(sure || stuck);
      ok := ok && path !in disk.links;
      Put(if ok then disk.(links := disk.links[path := target]) else disk);
    }

    /** Replaces `to` in one step. */
    method Rename(from: Location, to: Location) returns (ok: bool)
      requires Valid() && from in disk.links
      modifies this`disk, this`seen
      ensures Valid() && seen == old(seen) + [disk]
      ensures ok ==> disk == old(disk).(links := (old(disk.links) - {from})[to := old(disk.links)[from]])
      ensures !ok ==> disk == old(disk)
      ensures sure ==> ok
      ensures stuck ==> !ok
    {
      ok := Chance(sure);
      if stuck { ok := false; }
      Put(if ok then disk.(links := (disk.links - {from})[to := disk.links[from]]) else disk);
    }

    method EvalSymlinks(path: Location) returns (dir: Option<Location>)
      ensures dir.Some? ==> path in disk.links && disk.links[path] == dir.value && dir.value in disk.dirs
      ensures sure || stuck ==> (dir.Some? <==> Resolve(disk, path).Some?)
    {
      var ok := Chance(sure || stuck);
      dir := if ok && Resolve(disk, path).Some? then Some(disk.links[path]) else None;
    }

    method Remove(path: Location)
      requires Valid()
      modifies this`disk, this`seen
      ensures Valid() && seen == old(seen) + [disk]
      ensures disk == old(disk) || disk == old(disk).(links := old(disk.links) - {path})
      ensures sure || stuck ==> disk == old(disk).(links := old(disk.links) - {path})
    {
      var ok := Chance(sure || stuck);
      Put(if ok then disk.(links := disk.links - {path}) else disk);
    }

    method RemoveAll(dir: Location)
      requires Valid()
      modifies this`disk, this`seen
      ensures Valid() && seen == old(seen) + [disk]
      ensures disk.links == old(disk.links) && disk.dirs - {dir} == old(disk.dirs) - {dir}
      ensures disk.dirs.Keys <= old(disk.dirs.Keys)
      ensures sure || stuck ==> dir !in disk.dirs
    {
      var ok := Chance(sure || stuck);
      var part: set<string> := *;
      if ok || dir !in disk.dirs {
        Put(disk.(dirs := disk.dirs - {dir}));
      } else {
        Put(disk.(dirs := disk.dirs[dir := disk.dirs[dir] - part]));
      }
    }
  }

  datatype Entry = Entry(path: Location, generation: int)

  class Store {
    const fs: FileSystem
    var entries: map<Uid, Entry>
    /** The files of the last registration that succeeded. */
    ghost var current: map<Uid, Files>

    ghost predicate Valid()
      reads this, fs
    {
      fs.Valid() && current.Keys == entries.Keys && Consistent(entries, current, fs.disk)
    }

    constructor (fs: FileSystem)
      requires fs.Valid()
      ensures Valid() && this.fs == fs && entries == map[]
    {
      this.fs, entries, current := fs, map[], map[];
    }

    /** Makes the directory and writes the files, in order. */
    method Prepare(uid: Uid, files: seq<File>) returns (dir: Option<Location>)
      requires fs.Valid()
      modifies fs
      ensures fs.Valid() && old(fs.next) <= fs.next && fs.disk.links == old(fs.disk.links)
      ensures |old(fs.seen)| <= |fs.seen| && fs.seen[..|old(fs.seen)|] == old(fs.seen)
      ensures forall i :: |old(fs.seen)| <= i < |fs.seen| ==> Beside(old(fs.disk), fs.seen[i], Dir(uid, old(fs.next)))
      ensures Beside(old(fs.disk), fs.disk, Dir(uid, old(fs.next)))
      ensures dir.Some? ==> dir.value == Dir(uid, old(fs.next)) && dir.value in fs.disk.dirs
                            && fs.disk.dirs[dir.value] == Written(files)
      ensures fs.sure || fs.stuck ==> dir.Some?
    {
      dir := fs.MkdirTemp(uid);
      if dir.None? { return; }
      for i := 0 to |files|
        invariant fs.Valid() && fs.next == old(fs.next) + 1 && dir == Some(Dir(uid, old(fs.next)))
        invariant |old(fs.seen)| <= |fs.seen| && fs.seen[..|old(fs.seen)|] == old(fs.seen)
        invariant forall j :: |old(fs.seen)| <= j < |fs.seen| ==> Beside(old(fs.disk), fs.seen[j], dir.value)
        invariant Beside(old(fs.disk), fs.disk, dir.value)
        invariant dir.value in fs.disk.dirs && fs.disk.dirs[dir.value] == Written(files[..i])
      {
        var ok := fs.WriteFile(dir.value, files[i]);
        if !ok { return None; }
        assert files[..i + 1][..i] == files[..i];
      }
      assert files[..|files|] == files;
    }

    /** A second link to the new directory, renamed over the first. `before` is the directory it led to. */
    method Swing(uid: Uid, dir: Location) returns (before: Option<Location>)
      requires fs.Valid() && dir.Dir? && dir.uid == uid && dir in fs.disk.dirs
      requires Resolve(fs.disk, Link(uid)).Some?
      modifies fs`disk, fs`seen
      ensures fs.Valid() && fs.disk.dirs == old(fs.disk.dirs)
      ensures |old(fs.seen)| <= |fs.seen| && fs.seen[..|old(fs.seen)|] == old(fs.seen)
      ensures Steady(fs.seen, |old(fs.seen)|, old(fs.disk), uid,
                     if before.Some? then Some(old(fs.disk.dirs)[dir]) else old(Resolve(fs.disk, Link(uid))))
      ensures before.Some? ==> Swap(uid) !in old(fs.disk.links) && before.value == old(fs.disk.links)[Link(uid)]
                               && fs.disk.links == old(fs.disk.links)[Link(uid) := dir]
      ensures before.None? ==>
                fs.disk.links == old(fs.disk.links) || fs.disk.links == old(fs.disk.links)[Swap(uid) := dir]
      ensures fs.stuck ==> before.None? && Swap(uid) in fs.disk.links
      ensures fs.sure ==> (before.Some? <==> Swap(uid) !in old(fs.disk.links))
    {
      ghost var d0 := fs.disk;
      before := fs.EvalSymlinks(Link(uid));
      if before.None? { return; }
      var ok := fs.Symlink(dir, Swap(uid));
      LinkSet(d0, fs.disk, Swap(uid), uid);
      if !ok { return None; }
      ok := fs.Rename(Swap(uid), Link(uid));
      if !ok { return None; }
      Renamed(d0, fs.disk, uid, dir);
    }

    /** The swap, and then the removal of the old directory. */
    method Exchange(uid: Uid, dir: Location) returns (ok: bool)
      requires fs.Valid() && dir.Dir? && dir.uid == uid && dir in fs.disk.dirs
      requires Resolve(fs.disk, Link(uid)).Some? && Owned(fs.disk, uid) && fs.disk.links[Link(uid)] != dir
      modifies fs`disk, fs`seen
      ensures fs.Valid() && Apart(old(fs.disk), fs.disk, uid)
      ensures |old(fs.seen)| <= |fs.seen| && fs.seen[..|old(fs.seen)|] == old(fs.seen)
      ensures Steady(fs.seen, |old(fs.seen)|, old(fs.disk), uid,
                     if ok then Some(old(fs.disk.dirs)[dir]) else old(Resolve(fs.disk, Link(uid))))
      ensures ok ==> Swap(uid) !in old(fs.disk.links) && fs.disk.links == old(fs.disk.links)[Link(uid) := dir]
                     && Resolve(fs.disk, Link(uid)) == Some(old(fs.disk.dirs)[dir])
      ensures !ok ==> fs.disk.links == old(fs.disk.links) || fs.disk.links == old(fs.disk.links)[Swap(uid) := dir]
      ensures !ok ==> fs.disk.dirs == old(fs.disk.dirs)
      ensures fs.stuck ==> !ok && Swap(uid) in fs.disk.links
      ensures fs.sure ==> (ok <==> Swap(uid) !in old(fs.disk.links))
      ensures fs.sure && ok ==> fs.disk.dirs == old(fs.disk.dirs) - {old(fs.disk.links)[Link(uid)]}
    {
      ghost var d0 := fs.disk;
      var before := Swing(uid, dir);
      ghost var d1 := fs.disk;
      if before.None? { return false; }
      fs.RemoveAll(before.value);
      BesideApart(d1, fs.disk, before.value, uid);
      ApartChain(d0, d1, fs.disk, uid);
      Untouched(d1, fs.disk, before.value, Link(uid));
      ok := true;
      assert fs.sure ==> fs.disk.dirs - {before.value} == fs.disk.dirs;
    }

    /** Register. Readers of an entry's path see the old credentials or the new ones, complete, at every moment; when it
     *  fails, nothing has changed for them; other entries are never touched. */
    method Register(uid: Uid, generation: int, files: seq<File>) returns (ok: bool)
      requires Valid()
      modifies this, fs
      ensures Valid() && Apart(old(fs.disk), fs.disk, uid)
      ensures Steady(fs.seen, |old(fs.seen)|, old(fs.disk), uid,
                     if ok then Some(Written(files)) else old(Resolve(fs.disk, Link(uid))))
      ensures ok ==>
                && entries == old(entries)[uid := Entry(Link(uid), generation)]
                && current == old(current)[uid := Written(files)]
      ensures !ok ==> entries == old(entries) && current == old(current)
      ensures old(uid in entries) ==> old(Resolve(fs.disk, Link(uid))) == Some(old(current[uid]))
      ensures old(Swap(uid) in fs.disk.links) ==> Swap(uid) in fs.disk.links && (ok ==> old(uid !in entries))
      ensures fs.stuck && old(uid in entries) ==> !ok && Swap(uid) in fs.disk.links
      ensures fs.stuck && old(uid !in entries) ==> (ok <==> Link(uid) !in old(fs.disk.links))
      ensures fs.sure ==> (ok <==> (if old(uid in entries) then Swap(uid) else Link(uid)) !in old(fs.disk.links))
      ensures fs.sure && old(Clean(entries, fs.disk)) ==> ok && Clean(entries, fs.disk)
    {
      ghost var d0 := fs.disk;
      var dir := Stage(uid, files);
      ghost var d1, s1 := fs.disk, fs.seen;
      if dir.None? { return false; }
      ok := Commit(uid, generation, files, dir.value);
      SteadyChain(s1, fs.seen, |old(fs.seen)|, d0, d1, uid,
                  if ok then Some(Written(files)) else Resolve(d0, Link(uid)));
      ApartChain(d0, d1, fs.disk, uid);
    }

    /** The new directory takes over, and the map follows. */
    method Commit(uid: Uid, generation: int, files: seq<File>, dir: Location) returns (ok: bool)
      requires Valid() && dir.Dir? && dir.uid == uid && dir in fs.disk.dirs && fs.disk.dirs[dir] == Written(files)
      requires forall p :: p in fs.disk.links ==> fs.disk.links[p] != dir
      modifies this`entries, this`current, fs`disk, fs`seen
      ensures Valid() && Apart(old(fs.disk), fs.disk, uid)
      ensures |old(fs.seen)| <= |fs.seen| && fs.seen[..|old(fs.seen)|] == old(fs.seen)
      ensures Steady(fs.seen, |old(fs.seen)|, old(fs.disk), uid,
                     if ok then Some(Written(files)) else old(Resolve(fs.disk, Link(uid))))
      ensures ok ==>
                && entries == old(entries)[uid := Entry(Link(uid), generation)]
                && current == old(current)[uid := Written(files)]
      ensures !ok ==> entries == old(entries) && current == old(current)
      ensures old(Swap(uid) in fs.disk.links) ==> Swap(uid) in fs.disk.links && (ok ==> old(uid !in entries))
      ensures fs.stuck && old(uid in entries) ==> !ok && Swap(uid) in fs.disk.links
      ensures fs.stuck && old(uid !in entries) ==> (ok <==> Link(uid) !in old(fs.disk.links))
      ensures fs.sure ==> (ok <==> (if old(uid in entries) then Swap(uid) else Link(uid)) !in old(fs.disk.links))
      ensures fs.sure && old(Spare(entries, fs.disk, dir)) ==> ok && Clean(entries, fs.disk)
    {
      ghost var d1 := fs.disk;
      ok := Publish(uid, dir);
      if !ok {
        ConsistentKept(entries, current, d1, fs.disk, uid);
        return;
      }
      assert Consistent(entries[uid := Entry(Link(uid), generation)], current[uid := Written(files)], fs.disk) by {
        ConsistentSet(entries, current, d1, fs.disk, uid, generation, dir);
      }
      assert fs.sure && Spare(entries, d1, dir) ==> Clean(entries[uid := Entry(Link(uid), generation)], fs.disk) by {
        if fs.sure && Spare(entries, d1, dir) {
          CleanSet(entries, d1, fs.disk, uid, generation, dir);
        }
      }
      entries := entries[uid := Entry(Link(uid), generation)];
      current := current[uid := Written(files)];
    }

    /** A new directory with the files, that nothing leads to yet. */
    method Stage(uid: Uid, files: seq<File>) returns (dir: Option<Location>)
      requires Valid()
      modifies fs
      ensures Valid() && fs.disk.links == old(fs.disk.links)
      ensures Apart(old(fs.disk), fs.disk, uid) && Resolve(fs.disk, Link(uid)) == Resolve(old(fs.disk), Link(uid))
      ensures |old(fs.seen)| <= |fs.seen| && fs.seen[..|old(fs.seen)|] == old(fs.seen)
      ensures Steady(fs.seen, |old(fs.seen)|, old(fs.disk), uid, old(Resolve(fs.disk, Link(uid))))
      ensures dir.Some? ==> dir.value.Dir? && dir.value.uid == uid && dir.value !in old(fs.disk.dirs)
                            && dir.value in fs.disk.dirs && fs.disk.dirs[dir.value] == Written(files)
                            && fs.disk.dirs.Keys == old(fs.disk.dirs.Keys) + {dir.value}
                            && forall p :: p in fs.disk.links ==> fs.disk.links[p] != dir.value
      ensures dir.Some? && old(Clean(entries, fs.disk)) ==> Spare(entries, fs.disk, dir.value)
      ensures fs.sure || fs.stuck ==> dir.Some?
    {
      ghost var d0, s0 := fs.disk, fs.seen;
      dir := Prepare(uid, files);
      ghost var own := Dir(uid, old(fs.next));
      forall i | |s0| <= i < |fs.seen|
        ensures Apart(d0, fs.seen[i], uid) && Resolve(fs.seen[i], Link(uid)) == Resolve(d0, Link(uid))
      {
        Prepared(d0, fs.seen[i], own, uid);
      }
      Prepared(d0, fs.disk, own, uid);
      ConsistentKept(entries, current, d0, fs.disk, uid);
      if dir.Some? && Clean(entries, d0) { SpareFrom(entries, d0, fs.disk, own); }
    }

    /** A plain link for a new entry, the swap for one that is known. */
    method Publish(uid: Uid, dir: Location) returns (ok: bool)
      requires Valid() && dir.Dir? && dir.uid == uid && dir in fs.disk.dirs
      requires forall p :: p in fs.disk.links ==> fs.disk.links[p] != dir
      modifies fs`disk, fs`seen
      ensures fs.Valid()
      ensures |old(fs.seen)| <= |fs.seen| && fs.seen[..|old(fs.seen)|] == old(fs.seen)
      ensures Apart(old(fs.disk), fs.disk, uid)
      ensures Steady(fs.seen, |old(fs.seen)|, old(fs.disk), uid,
                     if ok then Some(old(fs.disk.dirs)[dir]) else old(Resolve(fs.disk, Link(uid))))
      ensures ok ==> fs.disk.links == old(fs.disk.links)[Link(uid) := dir]
                     && Resolve(fs.disk, Link(uid)) == Some(old(fs.disk.dirs)[dir])
      ensures !ok ==> fs.disk.links == old(fs.disk.links) || fs.disk.links == old(fs.disk.links)[Swap(uid) := dir]
      ensures !ok ==> fs.disk.dirs == old(fs.disk.dirs)
      ensures ok && uid in entries ==> Swap(uid) !in old(fs.disk.links)
      ensures fs.stuck && uid in entries ==> !ok && Swap(uid) in fs.disk.links
      ensures fs.stuck && uid !in entries ==> (ok <==> Link(uid) !in old(fs.disk.links))
      ensures fs.sure ==> (ok <==> (if uid in entries then Swap(uid) else Link(uid)) !in old(fs.disk.links))
      ensures fs.sure && ok ==>
                fs.disk.dirs == if uid in entries then old(fs.disk.dirs) - {old(fs.disk.links)[Link(uid)]}
                                                else old(fs.disk.dirs)
    {
      if uid in entries {
        ok := Exchange(uid, dir);
      } else {
        ghost var d := fs.disk;
        ok := fs.Symlink(dir, Link(uid));
        LinkSet(d, fs.disk, Link(uid), uid);
      }
    }

    /** Deregister: out of the map first, then the link, then the directory it led to. */
    method Deregister(uid: Uid)
      requires Valid()
      modifies this, fs
      ensures Valid() && Apart(old(fs.disk), fs.disk, uid)
      ensures entries == old(entries) - {uid} && current == old(current) - {uid}
      ensures old(Swap(uid) in fs.disk.links) ==> Swap(uid) in fs.disk.links
      ensures old(uid !in entries) ==> fs.disk == old(fs.disk)
      ensures fs.sure && old(Clean(entries, fs.disk)) ==> Clean(entries, fs.disk)
    {
      if uid !in entries {
        assert entries - {uid} == entries && current - {uid} == current;
        return;
      }
      ghost var d0, was := fs.disk, entries;
      var target := fs.EvalSymlinks(Link(uid));
      entries := entries - {uid};
      ghost var files := current;
      current := current - {uid};
      Erase(uid, target);
      ConsistentApart(was, files, d0, fs.disk, uid);
      if fs.sure && Clean(was, d0) { CleanRemoved(was, d0, fs.disk, uid); }
    }

    /** Removes the link of `uid`, and the directory if it could be resolved. */
    method Erase(uid: Uid, target: Option<Location>)
      requires fs.Valid() && (target.Some? ==> target.value.uid == uid)
      modifies fs`disk, fs`seen
      ensures fs.Valid() && Apart(old(fs.disk), fs.disk, uid)
      ensures Swap(uid) in fs.disk.links <==> old(Swap(uid) in fs.disk.links)
      ensures fs.sure ==> fs.disk.links == old(fs.disk.links) - {Link(uid)}
      ensures fs.sure && target.Some? ==>
                target.value !in fs.disk.dirs && fs.disk.dirs - {target.value} == old(fs.disk.dirs) - {target.value}
    {
      ghost var d0 := fs.disk;
      fs.Remove(Link(uid));
      ghost var d1 := fs.disk;
      LinkGone(d0, d1, uid);
      if target.Some? {
        fs.RemoveAll(target.value);
        BesideApart(d1, fs.disk, target.value, uid);
        ApartChain(d0, d1, fs.disk, uid);
      }
    }

    method Lookup(uid: Uid) returns (entry: Option<Entry>)
      requires Valid()
      ensures entry == if uid in entries then Some(entries[uid]) else None
      ensures entry.Some? ==> Resolve(fs.disk, entry.value.path) == Some(current[uid])
    {
      entry := if uid in entries then Some(entries[uid]) else None;
    }
  }

  lemma ConsistentApart(entries: map<Uid, Entry>, current: map<Uid, Files>, d: Disk, n: Disk, uid: Uid)
    requires Consistent(entries, current, d) && Apart(d, n, uid)
    ensures Consistent(entries - {uid}, current - {uid}, n)
  {
    forall u | u in entries && u != uid
      ensures Resolve(n, Link(u)) == Some(current[u]) && n.links[Link(u)] == d.links[Link(u)]
    {
      ResolveApart(d, n, uid, u);
    }
  }

  lemma CleanRemoved(entries: map<Uid, Entry>, d: Disk, n: Disk, uid: Uid)
    requires Clean(entries, d) && uid in entries && n.links == d.links - {Link(uid)}
    requires d.links[Link(uid)] !in n.dirs && n.dirs - {d.links[Link(uid)]} == d.dirs - {d.links[Link(uid)]}
    ensures Clean(entries - {uid}, n)
  {
    var gone := d.links[Link(uid)];
    assert n.dirs == n.dirs - {gone};
    assert forall p :: p in n.dirs <==> p in d.dirs && p != gone;
  }

  /** The store is clean but for a directory nothing leads to yet. */
  ghost predicate Spare(entries: map<Uid, Entry>, d: Disk, dir: Location) {
    && (forall p :: p in d.links ==> d.links[p] != dir)
    && Clean(entries, d.(dirs := d.dirs - {dir}))
  }

  lemma SpareFrom(entries: map<Uid, Entry>, d: Disk, n: Disk, dir: Location)
    requires Clean(entries, d) && n.links == d.links && n.dirs.Keys == d.dirs.Keys + {dir} && dir !in d.dirs
    requires forall p :: p in d.links ==> d.links[p] != dir
    ensures Spare(entries, n, dir)
  {
    assert (n.dirs - {dir}).Keys == d.dirs.Keys;
  }

  lemma Prepared(d: Disk, n: Disk, dir: Location, uid: Uid)
    requires Beside(d, n, dir) && dir.uid == uid && forall p :: p in d.links ==> d.links[p] != dir
    ensures Apart(d, n, uid) && Resolve(n, Link(uid)) == Resolve(d, Link(uid))
    ensures dir in n.dirs ==> n.dirs.Keys == d.dirs.Keys + {dir}
  {
    BesideApart(d, n, dir, uid);
    Untouched(d, n, dir, Link(uid));
    assert n.dirs.Keys - {dir} == (n.dirs - {dir}).Keys && d.dirs.Keys - {dir} == (d.dirs - {dir}).Keys;
    if dir in n.dirs {
      assert n.dirs.Keys == (n.dirs.Keys - {dir}) + {dir};
    }
  }

  lemma ResolveApart(d: Disk, n: Disk, uid: Uid, u: Uid)
    requires Apart(d, n, uid) && u != uid && (Link(u) in d.links ==> Owned(d, u))
    ensures Resolve(n, Link(u)) == Resolve(d, Link(u)) && (Link(u) in n.links <==> Link(u) in d.links)
    ensures Link(u) in d.links ==> n.links[Link(u)] == d.links[Link(u)]
  {
  }

  lemma ConsistentKept(entries: map<Uid, Entry>, current: map<Uid, Files>, d: Disk, n: Disk, uid: Uid)
    requires Consistent(entries, current, d) && Apart(d, n, uid)
    requires Resolve(n, Link(uid)) == Resolve(d, Link(uid))
    requires Link(uid) in d.links && Link(uid) in n.links ==> n.links[Link(uid)] == d.links[Link(uid)]
    ensures Consistent(entries, current, n)
  {
    forall u | u in entries
      ensures Resolve(n, Link(u)) == Some(current[u]) && n.links[Link(u)] == d.links[Link(u)]
    {
      if u != uid { ResolveApart(d, n, uid, u); }
    }
  }

  lemma ConsistentSet(entries: map<Uid, Entry>, current: map<Uid, Files>, d: Disk, n: Disk, uid: Uid, generation: int,
                      dir: Location)
    requires Consistent(entries, current, d) && Apart(d, n, uid) && dir.Dir? && dir.uid == uid && dir in d.dirs
    requires Link(uid) in n.links && n.links[Link(uid)] == dir && Resolve(n, Link(uid)) == Some(d.dirs[dir])
    ensures Consistent(entries[uid := Entry(Link(uid), generation)], current[uid := d.dirs[dir]], n)
  {
    forall u | u in entries && u != uid
      ensures Resolve(n, Link(u)) == Some(current[u]) && n.links[Link(u)] == d.links[Link(u)]
    {
      ResolveApart(d, n, uid, u);
    }
  }

  lemma CleanSet(entries: map<Uid, Entry>, d: Disk, n: Disk, uid: Uid, generation: int, dir: Location)
    requires Spare(entries, d, dir) && dir.Dir? && dir.uid == uid && dir in n.dirs
    requires n.links == d.links[Link(uid) := dir]
    requires n.dirs.Keys == d.dirs.Keys - (if uid in entries then {d.links[Link(uid)]} else {})
    ensures Clean(entries[uid := Entry(Link(uid), generation)], n)
  {
  }

  /** On every disk since `from`, a reader of the entry of `uid` finds what `d` has there or else `later`, complete
   *  either way, and everybody else finds what `d` has. */
  ghost predicate Steady(seen: seq<Disk>, from: nat, d: Disk, uid: Uid, later: Option<Files>) {
    && from <= |seen|
    && (forall i :: from <= i < |seen| ==>
          && Apart(d, seen[i], uid)
          && (Resolve(seen[i], Link(uid)) == Resolve(d, Link(uid)) || Resolve(seen[i], Link(uid)) == later))
  }

  lemma SteadyChain(before: seq<Disk>, seen: seq<Disk>, from: nat, d: Disk, m: Disk, uid: Uid, later: Option<Files>)
    requires Steady(before, from, d, uid, Resolve(d, Link(uid)))
    requires |before| <= |seen| && seen[..|before|] == before && Steady(seen, |before|, m, uid, later)
    requires Apart(d, m, uid) && Resolve(m, Link(uid)) == Resolve(d, Link(uid))
    ensures Steady(seen, from, d, uid, later)
  {
    forall i | from <= i < |seen|
      ensures Apart(d, seen[i], uid)
      ensures Resolve(seen[i], Link(uid)) == Resolve(d, Link(uid)) || Resolve(seen[i], Link(uid)) == later
    {
      if i < |before| {
        assert seen[i] == before[i];
      } else {
        ApartChain(d, m, seen[i], uid);
      }
    }
  }

  lemma BesideApart(d: Disk, n: Disk, dir: Location, uid: Uid)
    requires Beside(d, n, dir) && dir.uid == uid
    ensures Apart(d, n, uid)
  {
    forall p | p != dir
      ensures p in d.dirs <==> p in n.dirs
      ensures p in d.dirs ==> n.dirs[p] == d.dirs[p]
    {
      assert p in d.dirs <==> p in d.dirs - {dir};
      assert p in n.dirs <==> p in n.dirs - {dir};
      assert p in d.dirs ==> (d.dirs - {dir})[p] == d.dirs[p] && (n.dirs - {dir})[p] == n.dirs[p];
    }
  }

  lemma Untouched(d: Disk, n: Disk, dir: Location, p: Location)
    requires Beside(d, n, dir) && (p in d.links ==> d.links[p] != dir)
    ensures Resolve(n, p) == Resolve(d, p)
  {
    if p in d.links {
      var q := d.links[p];
      assert q in d.dirs <==> q in d.dirs - {dir};
      assert q in n.dirs <==> q in n.dirs - {dir};
      assert q in d.dirs ==> (d.dirs - {dir})[q] == d.dirs[q] && (n.dirs - {dir})[q] == n.dirs[q];
    }
  }

  lemma LinkSet(d: Disk, n: Disk, path: Location, uid: Uid)
    requires path.uid == uid && (n == d || (path in n.links && n == d.(links := d.links[path := n.links[path]])))
    ensures Apart(d, n, uid)
  {
  }

  lemma LinkGone(d: Disk, n: Disk, uid: Uid)
    requires n == d || n == d.(links := d.links - {Link(uid)})
    ensures Apart(d, n, uid)
  {
  }

  lemma Renamed(d: Disk, n: Disk, uid: Uid, dir: Location)
    requires n.dirs == d.dirs && Swap(uid) !in d.links
    requires n.links == (d.links[Swap(uid) := dir] - {Swap(uid)})[Link(uid) := dir]
    ensures n == d.(links := d.links[Link(uid) := dir]) && Apart(d, n, uid)
  {
    assert d.links[Swap(uid) := dir] - {Swap(uid)} == d.links;
  }

  lemma ApartChain(d: Disk, m: Disk, n: Disk, uid: Uid)
    requires Apart(d, m, uid) && Apart(m, n, uid)
    ensures Apart(d, n, uid)
  {
  }

  /** The link of `uid` leads to a directory made for it. */
  predicate Owned(d: Disk, uid: Uid)
    requires Link(uid) in d.links
  {
    d.links[Link(uid)].Dir? && d.links[Link(uid)].uid == uid
  }

  /** The links are those of the entries, and every directory is the target of exactly one of them. */
  ghost predicate Clean(entries: map<Uid, Entry>, d: Disk) {
    && (forall p :: p in d.links <==> p.Link? && p.uid in entries)
    && (forall u :: u in entries ==> Link(u) in d.links && Owned(d, u) && d.links[Link(u)] in d.dirs)
    && (forall p :: p in d.dirs ==> p.uid in entries && d.links[Link(p.uid)] == p)
  }

  /** Entries resolve to what was registered last, each to a directory of its own. */
  ghost predicate Consistent(entries: map<Uid, Entry>, current: map<Uid, Files>, d: Disk) {
    forall u :: u in entries ==>
      && entries[u].path == Link(u) && u in current && Resolve(d, Link(u)) == Some(current[u])
      && d.links[Link(u)].Dir? && d.links[Link(u)].uid == u
  }

  /** The disks differ in the directory `dir` only. */
  predicate Beside(d: Disk, n: Disk, dir: Location) {
    n.links == d.links && n.dirs - {dir} == d.dirs - {dir}
  }

  // ---------- many operations ----------

  datatype Op = Register(uid: Uid, generation: int, files: seq<File>) | Deregister(uid: Uid)

  /** What is registered after the operations, the last one being the last of the sequence. */
  function Registered(ops: seq<Op>): map<Uid, Files> {
    if ops == [] then map[]
    else
      var before := Registered(ops[..|ops| - 1]);
      match ops[|ops| - 1]
      case Register(uid, _, files) => before[uid := Written(files)]
      case Deregister(uid) => before - {uid}
  }

  /** The directories and the entries are in one-to-one correspondence. */
  lemma {:induction false} CleanCounts(entries: map<Uid, Entry>, d: Disk)
    requires Clean(entries, d)
    ensures |d.dirs| == |entries| == |d.links|
    decreases |entries|
  {
    if entries == map[] {
      assert d.dirs == map[] && d.links == map[];
    } else {
      var u :| u in entries;
      var dir := d.links[Link(u)];
      var n := Disk(d.dirs - {dir}, d.links - {Link(u)});
      CleanRemoved(entries, d, n, u);
      LessOne(d.dirs, dir);
      LessOne(d.links, Link(u));
      LessOne(entries, u);
      CleanCounts(entries - {u}, n);
    }
  }

  lemma LessOne<K, V>(m: map<K, V>, k: K)
    requires k in m
    ensures |m - {k}| == |m| - 1
  {
    assert m.Keys == (m - {k}).Keys + {k};
  }

  /** While no file operation fails, every registration succeeds; every entry's path shows the files registered last,
   *  and there is one link and one directory per entry and nothing else: no swap link, no directory left behind. */
  method Drive(ops: seq<Op>) returns (store: Store)
    ensures fresh(store) && fresh(store.fs) && store.Valid()
    ensures store.entries.Keys == Registered(ops).Keys && Clean(store.entries, store.fs.disk)
    ensures forall u :: u in store.entries ==> Resolve(store.fs.disk, Link(u)) == Some(Registered(ops)[u])
    ensures |store.fs.disk.dirs| == |Registered(ops)| == |store.fs.disk.links|
  {
    var fs := new FileSystem(true, false);
    store := new Store(fs);
    for i := 0 to |ops|
      invariant fresh(store) && fresh(store.fs) && store.fs.sure && store.Valid() && Clean(store.entries, store.fs.disk)
      invariant store.current == Registered(ops[..i])
    {
      assert ops[..i + 1][..i] == ops[..i];
      match ops[i]
      case Register(uid, generation, files) =>
        var ok := store.Register(uid, generation, files);
      case Deregister(uid) =>
        store.Deregister(uid);
    }
    assert ops[..|ops|] == ops;
    CleanCounts(store.entries, store.fs.disk);
    assert |store.entries| == |store.entries.Keys| == |store.current|;
  }

  /** Where renames fail, a second registration of a uid leaves its swap link behind: the entry keeps the first files,
   *  and no later registration of the uid can succeed while it is known. */
  method RenameFails(uid: Uid, generation: int, files: seq<File>, later: seq<File>) returns (store: Store)
    ensures fresh(store) && fresh(store.fs) && store.Valid()
    ensures uid in store.entries && Swap(uid) in store.fs.disk.links
    ensures Resolve(store.fs.disk, Link(uid)) == Some(Written(files))
  {
    var fs := new FileSystem(false, true);
    store := new Store(fs);
    var first := store.Register(uid, generation, files);
    var second := store.Register(uid, generation + 1, later);
    assert first && !second;
  }
}

/** How the store writes one file: a temporary file, its fsync, a link or a rename, and the fsync of the directory. The
    process may be killed between any two system calls, and the power may fail at any time. */
module Durability {
  import opened Outcomes

  // ----- One directory of a disk -----

  /** `synced`: the content is on the platter; a power failure leaves it alone. */
  datatype File = File(bytes: string, synced: bool)

  /** `live` is the directory as processes see it, `durable` the one of the last directory fsync. */
  datatype Disk = Disk(files: map<nat, File>, live: map<string, nat>, durable: map<string, nat>)
  {
    ghost predicate Sound() {
      && (forall n :: n in live ==> live[n] in files && (Leftover(n) || files[live[n]].synced))
      && (forall n :: n in durable ==> durable[n] in files && (Leftover(n) || files[durable[n]].synced))
    }

    /** What a scan of the directory has to find: every name that is no leftover, with its content. */
    function Visible(): map<string, string>
      requires Sound()
    {
      map n | n in live && !Leftover(n) :: files[live[n]].bytes
    }

    /** What would be found if every directory change since the last fsync were lost. */
    function Settled(): map<string, string>
      requires Sound()
    {
      map n | n in durable && !Leftover(n) :: files[durable[n]].bytes
    }
  }

  predicate StartsWith(s: string, prefix: string) {
    |prefix| <= |s| && s[..|prefix|] == prefix
  }

  predicate EndsWith(s: string, suffix: string) {
    |suffix| <= |s| && s[|s| - |suffix|..] == suffix
  }

  /** The names that scans skip. */
  predicate Leftover(name: string) {
    StartsWith(name, ".") && EndsWith(name, ".partial")
  }

  /** The name of a temporary file. */
  function Temporary(path: string, random: string): string {
    "." + path + "." + random + ".partial"
  }

  lemma TemporaryIsLeftover(path: string, random: string)
    ensures Leftover(Temporary(path, random))
  {
    var t := Temporary(path, random);
    assert t[..1] == ".";
    assert t[|t| - |".partial"|..] == ".partial";
  }

  // ----- Power failure -----

  /** After a power failure each name is as it was last synced or as processes last saw it, and content that was not
      synced can be anything. */
  ghost predicate Survives(before: Disk, after: Disk) {
    && after.live == after.durable
    && after.files.Keys == before.files.Keys
    && (forall i :: i in before.files && before.files[i].synced ==> after.files[i] == before.files[i])
    && (forall i :: i in after.files ==> after.files[i].synced)
    && (forall n :: n in after.live ==>
          || (n in before.live && after.live[n] == before.live[n])
          || (n in before.durable && after.live[n] == before.durable[n]))
    && (forall n :: n in before.live && n in before.durable ==> n in after.live)
  }

  /** What is found after a power failure is, name by name, what was seen before it or what was synced before it. */
  lemma SurvivorsAreOldOrNew(before: Disk, after: Disk)
    requires before.Sound() && Survives(before, after)
    ensures after.Sound() && after.Settled() == after.Visible()
    ensures forall n :: n in after.Visible() ==>
              || (n in before.Visible() && after.Visible()[n] == before.Visible()[n])
              || (n in before.Settled() && after.Visible()[n] == before.Settled()[n])
    ensures forall n :: n in before.Visible() && n in before.Settled() ==> n in after.Visible()
  {
  }

  /** The failure that loses every directory change since the last fsync. */
  function Reverted(d: Disk): Disk
    requires d.Sound()
  {
    Disk(map i | i in d.files :: d.files[i].(synced := true), d.durable, d.durable)
  }

  /** What processes see now outlives every power failure exactly if it is what was last synced. */
  lemma StableIff(d: Disk)
    requires d.Sound()
    ensures (forall after :: Survives(d, after) ==> after.Sound() && after.Visible() == d.Visible()) <==>
            d.Visible() == d.Settled()
  {
    if d.Visible() == d.Settled() {
      forall after | Survives(d, after) ensures after.Sound() && after.Visible() == d.Visible() {
        SurvivorsAreOldOrNew(d, after);
        assert forall n :: n in d.Visible() ==> n in d.Settled() && n in after.Visible();
      }
    } else {
      var after := Reverted(d);
      assert Survives(d, after);
      assert after.Visible() == d.Settled();
    }
  }

  // ----- System calls -----

  function Opened(d: Disk, tmp: string, i: nat): Disk {
    d.(files := d.files[i := File("", false)], live := d.live[tmp := i])
  }

  function Wrote(d: Disk, i: nat, data: string): Disk {
    d.(files := d.files[i := File(data, false)])
  }

  function Synced(d: Disk, i: nat): Disk
    requires i in d.files
  {
    d.(files := d.files[i := d.files[i].(synced := true)])
  }

  function Renamed(d: Disk, tmp: string, path: string): Disk
    requires tmp in d.live
  {
    d.(live := (d.live - {tmp})[path := d.live[tmp]])
  }

  function Linked(d: Disk, tmp: string, path: string): Disk
    requires tmp in d.live
  {
    d.(live := d.live[path := d.live[tmp]])
  }

  function DirectorySynced(d: Disk): Disk {
    d.(durable := d.live)
  }

  function Unlinked(d: Disk, tmp: string): Disk {
    d.(live := d.live - {tmp})
  }

  /** A temporary file with its content synced; nothing a scan can see has changed. */
  ghost predicate Staged(before: Disk, d: Disk, tmp: string, data: string) {
    && before.Sound() && d.Sound() && Leftover(tmp)
    && tmp in d.live && d.files[d.live[tmp]] == File(data, true)
    && d.Visible() == before.Visible() && d.Settled() == before.Settled()
  }

  /** Only leftovers name the file. */
  ghost predicate Hidden(d: Disk, i: nat) {
    && (forall n :: n in d.live && d.live[n] == i ==> Leftover(n))
    && (forall n :: n in d.durable && d.durable[n] == i ==> Leftover(n))
  }

  lemma OpenHides(d: Disk, tmp: string, i: nat)
    requires d.Sound() && Leftover(tmp) && i !in d.files
    ensures var o := Opened(d, tmp, i);
            o.Sound() && Hidden(o, i) && o.Visible() == d.Visible() && o.Settled() == d.Settled()
  {
  }

  lemma ChangeHidden(d: Disk, i: nat, file: File)
    requires d.Sound() && i in d.files && Hidden(d, i)
    ensures var c := d.(files := d.files[i := file]);
            c.Sound() && Hidden(c, i) && c.Visible() == d.Visible() && c.Settled() == d.Settled()
  {
  }

  lemma RenameShows(before: Disk, d: Disk, tmp: string, path: string, data: string)
    requires Staged(before, d, tmp, data) && !Leftover(path)
    ensures var r := Renamed(d, tmp, path);
            r.Sound() && r.Visible() == before.Visible()[path := data] && r.Settled() == before.Settled()
  {
  }

  lemma LinkShows(before: Disk, d: Disk, tmp: string, path: string, data: string)
    requires Staged(before, d, tmp, data) && !Leftover(path)
    ensures var r := Linked(d, tmp, path);
            r.Sound() && r.Visible() == before.Visible()[path := data] && r.Settled() == before.Settled()
  {
  }

  lemma SyncSettles(d: Disk)
    requires d.Sound()
    ensures var s := DirectorySynced(d); s.Sound() && s.Visible() == d.Visible() && s.Settled() == d.Visible()
  {
  }

  lemma UnlinkHides(d: Disk, tmp: string)
    requires d.Sound() && Leftover(tmp)
    ensures var u := Unlinked(d, tmp); u.Sound() && u.Visible() == d.Visible() && u.Settled() == d.Settled()
  {
  }

  // ----- The two writers -----

  /** What a write of `data` under `path` may leave behind when it does not return: the old content or the new, as seen;
      and settled is what was settled before, or what is seen. */
  ghost predicate OldOrNew(before: Disk, after: Disk, path: string, data: string) {
    && before.Sound() && after.Sound()
    && (after.Visible() == before.Visible() || after.Visible() == before.Visible()[path := data])
    && (after.Settled() == before.Settled() || after.Settled() == after.Visible())
  }

  /** A name-by-name mixture of an old map and the same map with one entry replaced is one of the two. */
  lemma Mixed(was: map<string, string>, a: map<string, string>, b: map<string, string>, m: map<string, string>,
              path: string, data: string)
    requires (a == was || a == was[path := data]) && (b == was || b == was[path := data])
    requires forall n :: n in m ==> (n in a && m[n] == a[n]) || (n in b && m[n] == b[n])
    requires forall n :: n in a && n in b ==> n in m
    ensures m == was || m == was[path := data]
  {
    if path in m && m[path] == data {
      assert m == was[path := data];
    } else {
      assert m == was;
    }
  }

  /** Whether or not the power fails after it, an interrupted write on a settled disk shows the complete old or the
      complete new content under its path, and everything else is untouched. */
  lemma InterruptedWrite(before: Disk, after: Disk, lost: Disk, path: string, data: string)
    requires OldOrNew(before, after, path, data) && before.Visible() == before.Settled() && Survives(after, lost)
    ensures lost.Sound()
    ensures lost.Visible() == before.Visible() || lost.Visible() == before.Visible()[path := data]
  {
    SurvivorsAreOldOrNew(after, lost);
    Mixed(before.Visible(), after.Visible(), after.Settled(), lost.Visible(), path, data);
  }

  // ----- The removal of a file -----

  lemma UnlinkShows(d: Disk, path: string)
    requires d.Sound() && !Leftover(path)
    ensures var u := Unlinked(d, path);
            u.Sound() && u.Visible() == d.Visible() - {path} && u.Settled() == d.Settled()
  {
  }

  /** What the removal of `path` may leave behind when it does not return. */
  ghost predicate OldOrGone(before: Disk, after: Disk, path: string) {
    && before.Sound() && after.Sound()
    && (after.Visible() == before.Visible() || after.Visible() == before.Visible() - {path})
    && (after.Settled() == before.Settled() || after.Settled() == after.Visible())
  }

  lemma MixedRemoval(was: map<string, string>, a: map<string, string>, b: map<string, string>, m: map<string, string>,
                     path: string)
    requires (a == was || a == was - {path}) && (b == was || b == was - {path})
    requires forall n :: n in m ==> (n in a && m[n] == a[n]) || (n in b && m[n] == b[n])
    requires forall n :: n in a && n in b ==> n in m
    ensures m == was || m == was - {path}
  {
    if path in m {
      assert m == was;
    } else {
      assert m == was - {path};
    }
  }

  /** Whether or not the power fails after it, an interrupted removal on a settled disk shows the old content or none
      under its path, and everything else is untouched. */
  lemma InterruptedRemoval(before: Disk, after: Disk, lost: Disk, path: string)
    requires OldOrGone(before, after, path) && before.Visible() == before.Settled() && Survives(after, lost)
    ensures lost.Sound()
    ensures lost.Visible() == before.Visible() || lost.Visible() == before.Visible() - {path}
  {
    SurvivorsAreOldOrNew(after, lost);
    MixedRemoval(before.Visible(), after.Visible(), after.Settled(), lost.Visible(), path);
  }

  // ----- Scans -----

  /** Every visible file has a value, and is named after it. */
  ghost predicate Readable<T>(visible: map<string, string>, decode: string -> Option<T>, nameOf: T -> string) {
    forall n :: n in visible ==> decode(visible[n]).Some? && nameOf(decode(visible[n]).value) == n
  }

  /** A directory that holds exactly the files of the entries of `content`. */
  ghost predicate Represents<T>(visible: map<string, string>, content: map<string, T>, encode: T -> string) {
    visible.Keys == content.Keys && forall n :: n in content ==> visible[n] == encode(content[n])
  }

  /** A write that is interrupted, also by a power failure, leaves a directory that holds the old or the new content. */
  lemma StoreSurvives<T>(before: Disk, after: Disk, lost: Disk, content: map<string, T>, encode: T -> string,
                         name: string, value: T)
    requires before.Sound() && before.Visible() == before.Settled() && Represents(before.Visible(), content, encode)
    requires OldOrNew(before, after, name, encode(value)) && Survives(after, lost)
    ensures lost.Sound()
    ensures Represents(lost.Visible(), content, encode) || Represents(lost.Visible(), content[name := value], encode)
  {
    InterruptedWrite(before, after, lost, name, encode(value));
    WriteRepresents(before.Visible(), content, encode, name, value);
  }

  lemma WriteRepresents<T>(visible: map<string, string>, content: map<string, T>, encode: T -> string, name: string,
                           value: T)
    requires Represents(visible, content, encode)
    ensures Represents(visible[name := encode(value)], content[name := value], encode)
  {
  }

  /** What a settled directory stands for outlives every power failure. */
  lemma SettledStays<T>(d: Disk, content: map<string, T>, encode: T -> string)
    requires d.Sound() && d.Settled() == d.Visible() && Represents(d.Visible(), content, encode)
    ensures forall lost :: Survives(d, lost) ==> lost.Sound() && Represents(lost.Visible(), content, encode)
  {
    StableIff(d);
  }

  class Directory {
    var disk: Disk

    constructor (disk: Disk)
      ensures this.disk == disk
    {
      this.disk := disk;
    }

    /** Creates, fills and syncs the temporary file. */
    method Stage(tmp: string, i: nat, data: string) returns (r: Outcome<()>)
      requires disk.Sound() && Leftover(tmp) && tmp !in disk.live && i !in disk.files
      modifies this
      ensures r.Done? || r.Crashed?
      ensures disk.Sound() && disk.Visible() == old(disk).Visible() && disk.Settled() == old(disk).Settled()
      ensures r.Done? ==> Staged(old(disk), disk, tmp, data)
    {
      OpenHides(disk, tmp, i);
      disk := Opened(disk, tmp, i);
      if * { return Crashed; }
      ChangeHidden(disk, i, File(data, false));
      disk := Wrote(disk, i, data);
      if * { return Crashed; }
      ChangeHidden(disk, i, File(data, true));
      disk := Synced(disk, i);
      if * { return Crashed; }
      r := Done(());
    }

    /** `_atomic_bytes`. */
    method AtomicBytes(path: string, data: string, random: string, i: nat) returns (r: Outcome<()>)
      requires disk.Sound() && !Leftover(path) && Temporary(path, random) !in disk.live && i !in disk.files
      modifies this
      ensures (r.Done? || r.Crashed?) && OldOrNew(old(disk), disk, path, data)
      ensures r.Done? ==> disk.Visible() == old(disk).Visible()[path := data] && disk.Settled() == disk.Visible()
    {
      var tmp := Temporary(path, random);
      TemporaryIsLeftover(path, random);
      var _ :- Stage(tmp, i, data);
      RenameShows(old(disk), disk, tmp, path, data);
      disk := Renamed(disk, tmp, path);
      if * { return Crashed; }
      SyncSettles(disk);
      disk := DirectorySynced(disk);
      if * { return Crashed; }
      UnlinkHides(disk, tmp);
      disk := Unlinked(disk, tmp);
      r := Done(());
    }

    /** `_create_bytes`: an existing file is never overwritten. */
    method CreateBytes(path: string, data: string, random: string, i: nat) returns (r: Outcome<()>)
      requires disk.Sound() && !Leftover(path) && Temporary(path, random) !in disk.live && i !in disk.files
      modifies this
      ensures (r.Done? || r.Crashed? || r.Defect?) && OldOrNew(old(disk), disk, path, data)
      ensures path in old(disk).Visible() ==> !r.Done? && disk.Visible() == old(disk).Visible()
      ensures r.Done? ==> disk.Visible() == old(disk).Visible()[path := data] && disk.Settled() == disk.Visible()
      ensures r.Defect? ==> path in old(disk).Visible() && disk.Settled() == old(disk).Settled()
    {
      var tmp := Temporary(path, random);
      TemporaryIsLeftover(path, random);
      var _ :- Stage(tmp, i, data);
      UnlinkHides(disk, tmp);
      if path in disk.live {
        assert path in disk.Visible();
        disk := Unlinked(disk, tmp);
        return Defect;
      }
      LinkShows(old(disk), disk, tmp, path, data);
      disk := Linked(disk, tmp, path);
      if * { return Crashed; }
      SyncSettles(disk);
      disk := DirectorySynced(disk);
      if * { return Crashed; }
      r := Finish(tmp);
    }

    /** Removes the temporary name and syncs the directory once more. */
    method Finish(tmp: string) returns (r: Outcome<()>)
      requires disk.Sound() && Leftover(tmp) && disk.Settled() == disk.Visible()
      modifies this
      ensures r.Done? || r.Crashed?
      ensures disk.Sound() && disk.Visible() == old(disk).Visible() && disk.Settled() == disk.Visible()
    {
      UnlinkHides(disk, tmp);
      disk := Unlinked(disk, tmp);
      if * { return Crashed; }
      SyncSettles(disk);
      disk := DirectorySynced(disk);
      r := Done(());
    }

    /** `unlink` and the directory fsync after it. */
    method Remove(path: string) returns (r: Outcome<()>)
      requires disk.Sound() && !Leftover(path) && path in disk.Visible()
      modifies this
      ensures (r.Done? || r.Crashed?) && OldOrGone(old(disk), disk, path)
      ensures r.Done? ==> disk.Visible() == old(disk).Visible() - {path} && disk.Settled() == disk.Visible()
    {
      UnlinkShows(disk, path);
      disk := Unlinked(disk, path);
      if * { return Crashed; }
      SyncSettles(disk);
      disk := DirectorySynced(disk);
      r := Done(());
    }

    /** Reads every file but the leftovers; one that does not decode, or is misnamed, is a defect. */
    method Scan<T>(decode: string -> Option<T>, nameOf: T -> string) returns (r: Outcome<map<string, T>>)
      requires disk.Sound()
      ensures r.Done? || r.Defect?
      ensures r.Done? <==> Readable(disk.Visible(), decode, nameOf)
      ensures r.Done? ==> r.value.Keys == disk.Visible().Keys
      ensures r.Done? ==> forall n :: n in r.value ==> decode(disk.Visible()[n]) == Some(r.value[n])
    {
      var pending := disk.live.Keys;
      var found: map<string, T> := map[];
      while pending != {}
        invariant pending <= disk.live.Keys
        invariant found.Keys == (set n | n in disk.live && n !in pending && !Leftover(n))
        invariant forall n :: n in found ==> decode(disk.Visible()[n]) == Some(found[n]) && nameOf(found[n]) == n
        decreases |pending|
      {
        var name :| name in pending;
        pending := pending - {name};
        if !Leftover(name) {
          assert name in disk.Visible();
          var value := decode(disk.files[disk.live[name]].bytes);
          if value.None? || nameOf(value.value) != name {
            return Defect;
          }
          found := found[name := value.value];
        }
      }
      r := Done(found);
    }

    /** If every value decodes to itself, a scan of a directory that holds `content` returns exactly `content`. */
    method ScanContent<T>(decode: string -> Option<T>, nameOf: T -> string, ghost encode: T -> string,
                          ghost content: map<string, T>)
      returns (r: Outcome<map<string, T>>)
      requires disk.Sound() && Represents(disk.Visible(), content, encode)
      requires forall n :: n in content ==> decode(encode(content[n])) == Some(content[n]) && nameOf(content[n]) == n
      ensures r == Done(content)
    {
      r := Scan(decode, nameOf);
      assert r.value == content;
    }

    /** An atomic write in a directory that holds `content`: interrupted or not, the directory holds the old or the new
        content, and after a normal return the new one, come what may. */
    method AtomicEntry<T>(encode: T -> string, name: string, value: T, random: string, i: nat,
                          ghost content: map<string, T>)
      returns (r: Outcome<()>)
      requires disk.Sound() && Represents(disk.Visible(), content, encode) && !Leftover(name)
      requires Temporary(name, random) !in disk.live && i !in disk.files
      modifies this
      ensures disk.Sound() && (r.Done? || r.Crashed?)
      ensures || Represents(disk.Visible(), content, encode)
              || Represents(disk.Visible(), content[name := value], encode)
      ensures r.Done? ==> forall lost :: Survives(disk, lost) ==>
                lost.Sound() && Represents(lost.Visible(), content[name := value], encode)
    {
      WriteRepresents(disk.Visible(), content, encode, name, value);
      r := AtomicBytes(name, encode(value), random, i);
      if r.Done? {
        SettledStays(disk, content[name := value], encode);
      }
    }

    /** A create-only write in a directory that holds `content`: an entry that is there stays what it is. */
    method CreateEntry<T>(encode: T -> string, name: string, value: T, random: string, i: nat,
                          ghost content: map<string, T>)
      returns (r: Outcome<()>)
      requires disk.Sound() && Represents(disk.Visible(), content, encode) && !Leftover(name)
      requires Temporary(name, random) !in disk.live && i !in disk.files
      modifies this
      ensures disk.Sound() && (r.Done? || r.Crashed? || r.Defect?)
      ensures r.Defect? || name in content ==>
                !r.Done? && name in content && Represents(disk.Visible(), content, encode)
      ensures || Represents(disk.Visible(), content, encode)
              || Represents(disk.Visible(), content[name := value], encode)
      ensures r.Done? ==> forall lost :: Survives(disk, lost) ==>
                lost.Sound() && Represents(lost.Visible(), content[name := value], encode)
    {
      WriteRepresents(disk.Visible(), content, encode, name, value);
      r := CreateBytes(name, encode(value), random, i);
      if r.Done? {
        SettledStays(disk, content[name := value], encode);
      }
    }
  }
}

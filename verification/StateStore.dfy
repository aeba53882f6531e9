/** internal/state/store.go: one `Store` over one directory. Every system call takes its outcome
    from an `Environment`, so each error exit is a possible run. The lock is modelled in
    StoreHistory; here one call runs alone. */
module StateStore {
  import opened Text
  import opened StateCodec
  import opened StateModel

  /** A directory entry: its bytes, and whether they have been forced to disk. */
  datatype File = File(content: string, synced: bool)

  type Directory = map<string, File>

  /** A name `os.CreateTemp` can return: never the target's, and exclusively created. */
  predicate FreshTemp(temp: string, base: string, d: Directory) {
    temp != base && temp !in d
  }

  function Content(d: Directory, base: string): Option<string> {
    if base in d then Some(d[base].content) else None
  }

  /** What each step of one file replacement does: `true` means the call succeeds. */
  datatype Environment = Environment(
    mkdir: bool, create: bool, temp: string, chmod: bool, write: bool, written: nat, sync: bool,
    close: bool, rename: bool, removeTarget: bool, renameAgain: bool, syncDir: bool, removeTemp: bool)

  /** The temporary file was completely written, synced and closed. */
  predicate Prepared(e: Environment) {
    e.create && e.chmod && e.write && e.sync && e.close
  }

  /** The new file took the place of the old one. */
  predicate Replaced(e: Environment, windows: bool) {
    Prepared(e) && (e.rename || (windows && e.removeTarget && e.renameAgain))
  }

  /** Windows only: the old file was removed and the second rename failed. */
  predicate Destroyed(e: Environment, windows: bool) {
    windows && Prepared(e) && !e.rename && e.removeTarget && !e.renameAgain
  }

  /** The temporary file stayed behind. */
  predicate Leaked(e: Environment, windows: bool) {
    e.create && !Replaced(e, windows) && !e.removeTemp
  }

  /** How many of the payload's characters reached the temporary file. */
  function WrittenPart(e: Environment, payload: string): string {
    if !e.chmod then "" else if e.write then payload
    else if e.written <= |payload| then payload[..e.written] else payload
  }

  /** The directory after `writeFileAtomic`. */
  function AfterWrite(d: Directory, base: string, payload: string, e: Environment, windows: bool): Directory {
    if Replaced(e, windows) then d[base := File(payload, true)]
    else
      var d' := if Destroyed(e, windows) then d - {base} else d;
      if Leaked(e, windows)
      then d'[e.temp := File(WrittenPart(e, payload), e.chmod && e.write && e.sync)]
      else d'
  }

  /** One directory seen during a replacement: the target is complete, old or new (or absent, on
      Windows), its bytes are on disk when they were before, and only the temporary file differs otherwise. */
  ghost predicate Atomic(before: Directory, now: Directory, base: string, payload: string, temp: string,
    windows: bool)
  {
    && (|| (base in now && now[base] == File(payload, true))
        || (base in before && base in now && now[base] == before[base])
        || (base !in before && base !in now)
        || (windows && base !in now))
    && (forall name :: name !in {base, temp} ==> (name in before <==> name in now))
    && (forall name :: name !in {base, temp} && name in before && name in now ==> before[name] == now[name])
  }

  /** While only the temporary file differs, the directory is one a crash may leave. */
  lemma {:induction false} TempIsAtomic(before: Directory, base: string, payload: string, temp: string, f: File,
      windows: bool)
    requires temp != base
    ensures Atomic(before, before[temp := f], base, payload, temp, windows)
  {
  }

  lemma {:induction false} AtomicLater(before: Directory, f: File, now: Directory, base: string, payload: string,
      temp: string, windows: bool)
    requires temp != base && Atomic(before[temp := f], now, base, payload, temp, windows)
    ensures Atomic(before, now, base, payload, temp, windows)
  {
    var mid := before[temp := f];
    forall name | name !in {base, temp} && name in before && name in now ensures before[name] == now[name] {
      assert name in mid && mid[name] == before[name];
    }
    assert forall name :: name !in {base, temp} ==> (name in before <==> name in mid);
  }

  lemma {:induction false} AtomicCleaned(before: Directory, now: Directory, base: string, payload: string,
      temp: string, windows: bool)
    requires temp != base && Atomic(before, now, base, payload, temp, windows)
    ensures Atomic(before, now - {temp}, base, payload, temp, windows)
  {
  }

  /** A caller's answer: a state, or an error. */
  datatype Answer = Ok(value: State) | Failed

  class Store {
    const base: string
    const windows: bool
    var dir: Directory
    /** Every directory the disk has shown since construction. */
    ghost var shown: seq<Directory>

    constructor (base: string, windows: bool, dir: Directory)
      ensures this.base == base && this.windows == windows && this.dir == dir && shown == [dir]
    {
      this.base, this.windows, this.dir, shown := base, windows, dir, [dir];
    }

    ghost function Current(): Register
      reads this
    {
      Interpret(Content(dir, base))
    }

    ghost predicate Dirty()
      reads this
    {
      NeedsRepair(Content(dir, base))
    }

    /** `writeFileAtomic`: the exact final directory, the exact success condition, and crash
        atomicity of every directory shown on the way. */
    method WriteFileAtomic(payload: string, e: Environment) returns (ok: bool)
      requires FreshTemp(e.temp, base, dir)
      modifies this
      ensures ok == (Replaced(e, windows) && (windows || e.syncDir))
      ensures dir == AfterWrite(old(dir), base, payload, e, windows)
      ensures old(shown) <= shown
      ensures forall i :: |old(shown)| <= i < |shown| ==>
                Atomic(old(dir), shown[i], base, payload, e.temp, windows)
    {
      if !e.create {
        return false;
      }
      ghost var before := dir;
      var cleanup := true;
      ok := false;
      var prepared := PrepareTemp(payload, e);
      ghost var preparing := shown;
      if prepared {
        var replaced := ReplaceFile(e.temp, payload, e);
        AtomicLater(before, File(payload, true), dir, base, payload, e.temp, windows);
        forall i | |preparing| <= i < |shown| ensures Atomic(before, shown[i], base, payload, e.temp, windows) {
          AtomicLater(before, File(payload, true), shown[i], base, payload, e.temp, windows);
        }
        if replaced {
          cleanup := false;
          ok := windows || e.syncDir;
        }
      }
      if cleanup && e.removeTemp {
        AtomicCleaned(before, dir, base, payload, e.temp, windows);
        dir := dir - {e.temp};
        shown := shown + [dir];
      }
    }

    /** The temporary file from creation to close; only its own entry changes. */
    method PrepareTemp(payload: string, e: Environment) returns (ok: bool)
      requires e.create && FreshTemp(e.temp, base, dir)
      modifies this
      ensures ok == Prepared(e)
      ensures dir == old(dir)[e.temp := File(WrittenPart(e, payload), e.chmod && e.write && e.sync)]
      ensures Atomic(old(dir), dir, base, payload, e.temp, windows)
      ensures old(shown) <= shown
      ensures forall i :: |old(shown)| <= i < |shown| ==>
                Atomic(old(dir), shown[i], base, payload, e.temp, windows)
    {
      ghost var before := dir;
      dir := dir[e.temp := File("", false)];
      shown := shown + [dir];
      TempIsAtomic(before, base, payload, e.temp, File("", false), windows);
      if !e.chmod {
        return false;
      }
      dir := dir[e.temp := File(WrittenPart(e, payload), false)];
      shown := shown + [dir];
      assert dir == before[e.temp := File(WrittenPart(e, payload), false)];
      TempIsAtomic(before, base, payload, e.temp, File(WrittenPart(e, payload), false), windows);
      if !e.write || !e.sync {
        return false;
      }
      dir := dir[e.temp := File(payload, true)];
      shown := shown + [dir];
      assert dir == before[e.temp := File(payload, true)];
      TempIsAtomic(before, base, payload, e.temp, File(payload, true), windows);
      ok := e.close;
    }

    /** `replaceFile`: rename, with the remove-and-retry path on Windows. */
    method ReplaceFile(temp: string, payload: string, e: Environment) returns (ok: bool)
      requires temp != base && temp in dir && dir[temp] == File(payload, true)
      modifies this
      ensures ok == (e.rename || (windows && e.removeTarget && e.renameAgain))
      ensures dir == if ok then (old(dir) - {temp})[base := File(payload, true)]
                     else if windows && e.removeTarget then old(dir) - {base}
                     else old(dir)
      ensures Atomic(old(dir), dir, base, payload, temp, windows)
      ensures old(shown) <= shown
      ensures forall i :: |old(shown)| <= i < |shown| ==>
                Atomic(old(dir), shown[i], base, payload, temp, windows)
    {
      ok := e.rename;
      if !ok && windows {
        if !e.removeTarget {
          return false;
        }
        dir := dir - {base};
        shown := shown + [dir];
        ok := e.renameAgain;
      }
      if ok {
        dir := (dir - {temp})[base := dir[temp]];
        shown := shown + [dir];
      }
    }

    /** `saveUnlocked`. */
    method SaveUnlocked(s: State, e: Environment) returns (ok: bool)
      requires FreshTemp(e.temp, base, dir)
      modifies this
      ensures ok == (e.mkdir && Replaced(e, windows) && (windows || e.syncDir))
      ensures dir == if e.mkdir then AfterWrite(old(dir), base, Encode(s), e, windows) else old(dir)
      ensures old(shown) <= shown
      ensures forall i :: |old(shown)| <= i < |shown| ==>
                Atomic(old(dir), shown[i], base, Encode(s), e.temp, windows)
    {
      if !e.mkdir {
        return false;
      }
      ok := WriteFileAtomic(Encode(s), e);
    }

    /** The rewrite inside `loadUnlocked`, run when text follows the first value. */
    method Repair(raw: State, e: Environment) returns (ok: bool)
      requires FreshTemp(e.temp, base, dir)
      requires Current() == Holds(Normalize(raw))
      modifies this
      ensures ok == (e.mkdir && Replaced(e, windows) && (windows || e.syncDir))
      ensures ok ==> !Dirty() && dir == old(dir)[base := File(Encode(Normalize(raw)), true)]
      ensures Current() == old(Current()) || (Destroyed(e, windows) && base !in dir && !ok)
    {
      NormalizedStateReads(raw);
      ok := SaveUnlocked(Normalize(raw), e);
    }

    /** `loadUnlocked`: the register's value, after a repair when text follows the first value.
        The register itself never changes, except by the Windows replacement that destroys the file. */
    method LoadUnlocked(read: bool, e: Environment) returns (r: Answer)
      requires FreshTemp(e.temp, base, dir)
      modifies this
      ensures r.Ok? ==> old(Current()) == Holds(r.value) && !Dirty()
      ensures r.Failed? <==> || !read || old(Current()).Unreadable?
                             || (old(Dirty()) && !(e.mkdir && Replaced(e, windows) && (windows || e.syncDir)))
      ensures Current() == old(Current()) || (Destroyed(e, windows) && base !in dir && r.Failed?)
      ensures r.Ok? && old(Dirty()) ==> dir == old(dir)[base := File(Encode(r.value), true)]
      ensures !old(Dirty()) ==> dir == old(dir)
    {
      if !read {
        return Failed;
      }
      if base !in dir {
        return Ok(Normalize(EMPTY_STATE));
      }
      var decoded := Decode(dir[base].content);
      if decoded.Fail? {
        return Failed;
      }
      if Trim(decoded.rest) != "" {
        var ok := Repair(decoded.value, e);
        if !ok {
          return Failed;
        }
      }
      return Ok(Normalize(decoded.value));
    }

    /** `Load`. */
    method Load(read: bool, e: Environment) returns (r: Answer)
      requires FreshTemp(e.temp, base, dir)
      modifies this
      ensures r.Ok? ==> old(Current()) == Holds(r.value) == Current() && !Dirty()
      ensures !old(Dirty()) ==> dir == old(dir)
      ensures !old(Dirty()) && read && old(Current()).Holds? ==> r == Ok(old(Current()).state)
      ensures !windows ==> Current() == old(Current())
    {
      r := LoadUnlocked(read, e);
    }

    /** `Save`: replaces the register, or leaves it alone, whatever it held before. */
    method Save(s: State, e: Environment) returns (ok: bool)
      requires FreshTemp(e.temp, base, dir)
      modifies this
      ensures ok ==> Current() == Holds(Normalize(s)) && !Dirty()
      ensures !ok ==> || Current() == old(Current())
                      || (Replaced(e, windows) && !windows && !e.syncDir && Current() == Holds(Normalize(s)))
                      || (Destroyed(e, windows) && base !in dir)
    {
      NormalizedStateReads(s);
      ok := SaveUnlocked(Normalize(s), e);
    }

    /** `Update`: read, change, normalise, write. A success is one atomic read-modify-write; a
        failure leaves the register alone unless only the directory sync after the rename failed
        (or, on Windows, the replacement destroyed the file). */
    method Update(change: State -> Option<State>, read: bool, repair: Environment, e: Environment) returns (r: Answer)
      requires FreshTemp(e.temp, base, dir) && FreshTemp(repair.temp, base, dir)
      modifies this
      ensures r.Ok? ==>
                && old(Current()).Holds? && change(old(Current()).state).Some?
                && r.value == Normalize(change(old(Current()).state).value)
                && Current() == Holds(r.value) && !Dirty()
      ensures r.Failed? ==>
                || Current() == old(Current())
                || (&& Replaced(e, windows) && !windows && !e.syncDir
                    && old(Current()).Holds? && change(old(Current()).state).Some?
                    && Current() == Holds(Normalize(change(old(Current()).state).value)))
                || (windows && base !in dir && (Destroyed(e, windows) || Destroyed(repair, windows)))
    {
      var loaded := LoadUnlocked(read, repair);
      if loaded.Failed? {
        return Failed;
      }
      var changed := change(loaded.value);
      if changed.None? {
        return Failed;
      }
      NormalizedStateReads(changed.value);
      var ok := SaveUnlocked(Normalize(changed.value), e);
      if !ok {
        return Failed;
      }
      return Ok(Normalize(changed.value));
    }
  }

  /** On success the directory has exactly one changed entry; when a failed replacement can remove
      its temporary file (and the platform is not Windows) the directory is exactly as before. */
  lemma {:induction false} NoTraceLeft(d: Directory, base: string, payload: string, e: Environment, windows: bool)
    requires FreshTemp(e.temp, base, d)
    ensures Replaced(e, windows) ==> AfterWrite(d, base, payload, e, windows) == d[base := File(payload, true)]
    ensures !windows && !Replaced(e, windows) ==>
              (AfterWrite(d, base, payload, e, windows) == d <==> !e.create || e.removeTemp)
    ensures windows && base in d ==>
              (base !in AfterWrite(d, base, payload, e, windows) <==> Destroyed(e, windows))
  {
  }
}

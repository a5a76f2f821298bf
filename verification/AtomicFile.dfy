/**
 `atomic_write_private`: replacing a file by a temporary one that is written, synced and renamed.

 Every system call may fail, a write may take any part of what it is given, and the process may die
 between any two calls.  `history` is the directory after each call, so that a statement about all of
 `history` is a statement about every moment at which the process may die.
 */
module AtomicFile {
  import Numbers
  import opened Wrappers

  type Byte = bv8
  type Path = string
  type Files = map<Path, seq<Byte>>

  datatype Sync = Synced | Unsupported | SyncFailed

  /** `renamed` says whether the exception came after the new content was in place. */
  datatype Written = Done | Raised(renamed: bool)

  function Content(files: Files, path: Path): Option<seq<Byte>> {
    if path in files then Some(files[path]) else None
  }

  /** `files` is `before`, except for the temporary file. */
  ghost predicate SameBut(before: Files, files: Files, temporary: Path) {
    forall path :: path != temporary ==> Content(files, path) == Content(before, path)
  }

  /**
   The destination holds the old or all of the new content; apart from it and the temporary file,
   nothing differs from `before`.
   */
  ghost predicate Consistent(before: Files, files: Files, destination: Path, data: seq<Byte>, temporary: Path) {
    && (Content(files, destination) == Content(before, destination) || Content(files, destination) == Some(data))
    && forall path :: path != destination && path != temporary ==> Content(files, path) == Content(before, path)
  }

  lemma SameContents(files: Files, others: Files)
    requires forall path :: Content(files, path) == Content(others, path)
    ensures files == others
  {
    forall path
      ensures path in files <==> path in others
      ensures path in files ==> files[path] == others[path]
    {
      assert Content(files, path) == Content(others, path);
    }
  }

  lemma RenameGives(before: Files, staged: Files, temporary: Path, destination: Path, data: seq<Byte>)
    requires SameBut(before, staged, temporary) && temporary !in before && temporary != destination
    requires temporary in staged && staged[temporary] == data
    ensures staged[destination := data] - {temporary} == before[destination := data]
  {
    var after := staged[destination := data] - {temporary};
    forall path
      ensures Content(after, path) == Content(before[destination := data], path)
    {
      assert path != temporary ==> Content(staged, path) == Content(before, path);
    }
    SameContents(after, before[destination := data]);
  }

  lemma WithoutTemporary(before: Files, files: Files, temporary: Path)
    requires SameBut(before, files, temporary) && temporary !in before
    ensures files - {temporary} == before
  {
    forall path
      ensures Content(files - {temporary}, path) == Content(before, path)
    {
      assert path != temporary ==> Content(files, path) == Content(before, path);
    }
    SameContents(files - {temporary}, before);
  }

  /** There is always another name. */
  lemma UnusedName(names: set<Path>) returns (name: Path)
    ensures name !in names
  {
    var lengths := set n <- names :: |n|;
    var length := Numbers.Unused(lengths);
    name := seq(length, _ => 'x');
    assert name in names ==> |name| in lengths;
  }

  class Directory {
    var files: Files
    ghost var history: seq<Files>
    /** How many calls have failed; a `write` that takes nothing counts. */
    ghost var faults: nat
    /** The files whose content has reached the disk, and whether the directory has. */
    ghost var synced: set<Path>
    ghost var directorySynced: bool

    constructor (files: Files)
      ensures this.files == files && history == [] && faults == 0
    {
      this.files, history, faults := files, [], 0;
      synced, directorySynced := {}, false;
    }

    /** Whether the next call fails. */
    method Fate() returns (fails: bool)
      modifies `faults
      ensures faults == old(faults) + if fails then 1 else 0
    {
      fails := *;
      if fails {
        faults := faults + 1;
      }
    }

    /** A call that leaves the directory as it is. */
    method Call() returns (fails: bool)
      modifies `history, `faults
      ensures history == old(history) + [files] && faults == old(faults) + if fails then 1 else 0
    {
      fails := Fate();
      history := history + [files];
    }

    /** `fsync`. */
    method Sync(name: Path) returns (fails: bool)
      modifies `history, `faults, `synced
      ensures history == old(history) + [files] && faults == old(faults) + if fails then 1 else 0
      ensures !fails ==> name in synced
    {
      fails := Fate();
      if !fails {
        synced := synced + {name};
      }
      history := history + [files];
    }

    /** `mkstemp`: a longer name that does not exist yet, or an error. */
    method MakeTemporary(destination: Path) returns (name: Option<Path>)
      modifies `files, `history, `faults, `synced, `directorySynced
      ensures name.Some? ==> name.value != destination && name.value !in old(files)
      ensures name.Some? ==> files == old(files)[name.value := []]
      ensures name.None? ==> files == old(files)
      ensures history == old(history) + [files] && faults == old(faults) + if name.None? then 1 else 0
    {
      var fails := Fate();
      if fails {
        name := None;
      } else {
        ghost var unused := UnusedName(files.Keys + {destination});
        assert unused !in files.Keys && unused != destination;
        var candidate: Path :| candidate !in files && candidate != destination;
        name := Some(candidate);
        files, synced, directorySynced := files[candidate := []], synced - {candidate}, false;
      }
      history := history + [files];
    }

    /** `write`: some prefix of `data` is appended, possibly nothing; or an error. */
    method Write(name: Path, data: seq<Byte>) returns (written: Option<nat>)
      requires name in files
      modifies `files, `history, `faults, `synced
      ensures written.Some? ==> written.value <= |data| &&
                                files == old(files)[name := old(files)[name] + data[..written.value]]
      ensures written.None? ==> files == old(files)
      ensures history == old(history) + [files]
      ensures data != [] ==> faults == old(faults) + if written.None? || written.value == 0 then 1 else 0
    {
      var n: int, fails: bool := *, *;
      if fails {
        written := None;
      } else {
        written := Some(if 0 <= n <= |data| then n else |data|);
        files := files[name := files[name] + data[..written.value]];
      }
      synced := synced - {name};
      if fails || written == Some(0) {
        faults := faults + 1;
      }
      history := history + [files];
    }

    /** A rename, of a file whose content is on the disk. */
    method Replace(source: Path, destination: Path) returns (fails: bool)
      requires source in files && source != destination && source in synced
      modifies `files, `history, `faults, `synced, `directorySynced
      ensures files == if fails then old(files) else old(files)[destination := old(files)[source]] - {source}
      ensures history == old(history) + [files] && faults == old(faults) + if fails then 1 else 0
      ensures !fails ==> destination in synced
    {
      fails := Fate();
      if !fails {
        files, synced := files[destination := files[source]] - {source}, synced - {source} + {destination};
        directorySynced := false;
      }
      history := history + [files];
    }

    method Unlink(name: Path) returns (fails: bool)
      modifies `files, `history, `faults, `directorySynced
      ensures files == if fails then old(files) else old(files) - {name}
      ensures history == old(history) + [files] && faults == old(faults) + if fails then 1 else 0
    {
      fails := Fate();
      if !fails {
        files, directorySynced := files - {name}, false;
      }
      history := history + [files];
    }

    /** `_fsync_directory` ignores a platform that cannot sync directories. */
    method SyncDirectory() returns (fails: bool)
      modifies `history, `faults, `directorySynced
      ensures history == old(history) + [files] && faults == old(faults) + if fails then 1 else 0
      ensures !fails ==> directorySynced
    {
      var answer: Sync := *;
      fails := answer.SyncFailed?;
      if fails {
        faults := faults + 1;
      } else {
        directorySynced := true;
      }
      history := history + [files];
    }

    /** The cleanup of a failed write; a second failing close skips the removal of the temporary file. */
    method CleanUp(open: bool, temporary: Path)
      modifies `files, `history, `faults, `directorySynced
      ensures |history| > |old(history)| && history[|history| - 1] == files
      ensures old(history) <= history
      ensures forall k :: |old(history)| <= k < |history| ==>
                history[k] == old(files) || history[k] == old(files) - {temporary}
      ensures faults >= old(faults) && (faults == old(faults) ==> files == old(files) - {temporary})
    {
      if open {
        var failed := Call();
        if failed {
          return;
        }
      }
      var _ := Unlink(temporary);
    }

    /** The write loop; it ends because every turn writes at least one byte or gives up. */
    method WriteAll(temporary: Path, data: seq<Byte>) returns (ok: bool)
      requires temporary in files && files[temporary] == []
      modifies `files, `history, `faults, `synced
      ensures temporary in files && SameBut(old(files), files, temporary)
      ensures ok ==> files[temporary] == data
      ensures faults == old(faults) + if ok then 0 else 1
      ensures old(history) <= history
      ensures forall k :: |old(history)| <= k < |history| ==> SameBut(old(files), history[k], temporary)
    {
      var offset := 0;
      while offset < |data|
        invariant 0 <= offset <= |data| && faults == old(faults)
        invariant temporary in files && files[temporary] == data[..offset]
        invariant SameBut(old(files), files, temporary)
        invariant old(history) <= history
        invariant forall k :: |old(history)| <= k < |history| ==> SameBut(old(files), history[k], temporary)
        decreases |data| - offset
      {
        var written := Write(temporary, data[offset..]);
        if written.None? || written.value == 0 {
          return false;
        }
        assert data[..offset] + data[offset..][..written.value] == data[..offset + written.value];
        offset := offset + written.value;
      }
      assert data[..offset] == data;
      return true;
    }

    /** Everything before the rename; a close that fails leaves the descriptor open. */
    method Stage(temporary: Path, data: seq<Byte>, encodes: bool) returns (ok: bool, open: bool)
      requires temporary in files && files[temporary] == []
      modifies `files, `history, `faults, `synced
      ensures temporary in files && SameBut(old(files), files, temporary)
      ensures ok ==> encodes && !open && files[temporary] == data && temporary in synced
      ensures old(faults) <= faults <= old(faults) + 1 && (ok <==> encodes && faults == old(faults))
      ensures old(history) <= history
      ensures forall k :: |old(history)| <= k < |history| ==> SameBut(old(files), history[k], temporary)
    {
      open := true;
      var failed := Call();
      if failed || !encodes {
        return false, open;
      }
      ok := WriteAll(temporary, data);
      if !ok {
        return;
      }
      failed := Sync(temporary);
      if failed {
        return false, open;
      }
      open := Call();
      return !open, open;
    }

    /**
     At every moment the destination holds exactly the old or exactly the new content and no other file
     changes.  The call returns normally exactly if the text has an encoding and no system call failed; then the
     new content is in place and on the disk, and no temporary file is left.  An exception before the
     rename means the old content; one after it, from the directory sync, the new content.  If no second call
     fails the temporary file is removed in either case.
     */
    method AtomicWritePrivate(destination: Path, data: seq<Byte>, encodes: bool)
      returns (r: Written, ghost temporary: Path)
      modifies this
      ensures r.Done? <==> encodes && faults == old(faults)
      ensures r.Done? ==> files == old(files)[destination := data] && destination in synced && directorySynced
      ensures r == Raised(false) ==> Content(files, destination) == Content(old(files), destination)
      ensures r == Raised(false) && (faults == old(faults) || (encodes && faults == old(faults) + 1)) ==>
                files == old(files)
      ensures r == Raised(true) ==> encodes && files == old(files)[destination := data]
      ensures old(history) < history && history[|history| - 1] == files
      ensures forall k :: |old(history)| <= k < |history| ==>
                Consistent(old(files), history[k], destination, data, temporary)
      ensures temporary == destination || temporary !in old(files)
    {
      temporary := destination;
      var made := MakeTemporary(destination);
      if made.None? {
        return Raised(false), temporary;
      }
      var name := made.value;
      temporary := name;
      assert SameBut(old(files), files, name);
      var staged, open := Stage(name, data, encodes);
      WithoutTemporary(old(files), files, name);
      if !staged {
        CleanUp(open, name);
        return Raised(false), temporary;
      }
      RenameGives(old(files), files, name, destination, data);
      var failed := Replace(name, destination);
      if failed {
        CleanUp(false, name);
        return Raised(false), temporary;
      }
      failed := SyncDirectory();
      if failed {
        CleanUp(false, name);
        return Raised(true), temporary;
      }
      return Done, temporary;
    }
  }
}

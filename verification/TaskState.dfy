/**
 Saving and loading the task state.  A save writes a temporary file and renames it over
 the live one; each system call works or fails, and the process may be killed before any
 of them.  Renaming is atomic, and the JSON encoding is any encoding that can be undone.
 */
module TaskState {
  import opened Wrappers

  type Bytes = seq<bv8>

  type Files = map<string, Bytes>

  /** A failed write may leave any number of bytes behind. */
  datatype Call = Works | Fails(written: nat)

  datatype Result = Saved | Error | Killed

  datatype Codec<!T> = Codec(encode: T -> Bytes, decode: Bytes -> Option<T>)

  ghost predicate Undoes<T(!new)>(c: Codec<T>) {
    forall x: T :: c.decode(c.encode(x)) == Some(x)
  }

  datatype Loaded<+T> = Missing | Unreadable | BadState | State(value: T)

  // ---------------------------------------------------------------- what a save does to the files

  /** Create, write, close and rename all worked. */
  predicate Complete(calls: seq<Call>) {
    |calls| >= 4 && calls[0].Works? && calls[1].Works? && calls[2].Works? && calls[3].Works?
  }

  function Torn(data: Bytes, written: nat): Bytes {
    if written <= |data| then data[..written] else data
  }

  /** The files after a save that was answered `calls` and then went no further. */
  function AfterWrite(files: Files, path: string, data: Bytes, tmp: string, calls: seq<Call>): Files {
    if Complete(calls) then files[path := data] - {tmp}
    else if |calls| == 0 || calls[0].Fails? then files
    else if |calls| == 1 then files[tmp := []]
    else if calls[1].Fails? then files[tmp := Torn(data, calls[1].written)]
    else files[tmp := data]
  }

  /** Reading a file: it may be missing, and a read may fail for any other reason. */
  datatype Read = NotThere | ReadFails | Contents(data: Bytes)

  function ReadFile(files: Files, broken: set<string>, path: string): Read {
    if path in broken then ReadFails else if path in files then Contents(files[path]) else NotThere
  }

  /** The contents a load starts from: the live file, or the old one when there is no live file. */
  function Source(files: Files, broken: set<string>, path: string, oldPath: string): Read {
    var live := ReadFile(files, broken, path);
    if live.NotThere? then ReadFile(files, broken, oldPath) else live
  }

  function Load<T>(files: Files, broken: set<string>, path: string, oldPath: string, c: Codec<T>): Loaded<T> {
    match Source(files, broken, path, oldPath)
    case NotThere => Missing
    case ReadFails => Unreadable
    case Contents(d) => Decoded(c, d)
  }

  /** A load that got some contents removes the old file, if that works. */
  function AfterLoad(files: Files, broken: set<string>, path: string, oldPath: string, removed: bool): Files {
    if Source(files, broken, path, oldPath).Contents? && removed then files - {oldPath} else files
  }

  function Decoded<T>(c: Codec<T>, d: Bytes): Loaded<T> {
    match c.decode(d)
    case None => BadState
    case Some(x) => State(x)
  }

  // ---------------------------------------------------------------- the imperative code

  class StateDir {
    var files: Files

    /**
     writeFile with the temporary name `tmp` picked by the system; `calls` answers
     create, write, close and rename, and the process dies when they run out.
     */
    method WriteFile(path: string, data: Bytes, tmp: string, calls: seq<Call>) returns (r: Result)
      requires tmp !in files && tmp != path
      modifies this
      ensures r == Saved <==> Complete(calls)
      ensures r == Killed <==> |calls| < 4 && forall i :: 0 <= i < |calls| ==> calls[i].Works?
      ensures files == AfterWrite(old(files), path, data, tmp, calls)
      ensures r == Saved ==> files == old(files)[path := data]
      ensures r != Saved ==> files - {tmp} == old(files)
    {
      if |calls| == 0 {
        return Killed;
      }
      if calls[0].Fails? {
        return Error;
      }
      files := files[tmp := []];
      if |calls| == 1 {
        return Killed;
      }
      if calls[1].Fails? {
        files := files[tmp := Torn(data, calls[1].written)];
        return Error;
      }
      files := files[tmp := data];
      if |calls| == 2 {
        return Killed;
      }
      if calls[2].Fails? {
        return Error;
      }
      if |calls| == 3 {
        return Killed;
      }
      if calls[3].Fails? {
        return Error;
      }
      // The rename replaces the live file and takes the temporary one away.
      files := files[path := files[tmp]] - {tmp};
      return Saved;
    }

    /** loadState: the old location is read only when the live file is missing, and then removed. */
    method LoadState<T>(broken: set<string>, path: string, oldPath: string, c: Codec<T>, removed: bool)
      returns (l: Loaded<T>)
      requires path != oldPath
      modifies this
      ensures l == Load(old(files), broken, path, oldPath, c)
      ensures files == AfterLoad(old(files), broken, path, oldPath, removed)
      ensures path in broken ==> l == Unreadable
      ensures path in old(files) && path !in broken ==> l == Decoded(c, old(files)[path])
      ensures path !in old(files) && path !in broken ==>
                && (oldPath in broken ==> l == Unreadable)
                && (oldPath in old(files) && oldPath !in broken ==> l == Decoded(c, old(files)[oldPath]))
                && (oldPath !in old(files) && oldPath !in broken ==> l == Missing)
      ensures files == if removed && !l.Missing? && !l.Unreadable? then old(files) - {oldPath} else old(files)
    {
      var d := ReadFile(files, broken, path);
      if d.NotThere? {
        d := ReadFile(files, broken, oldPath);
        if d.NotThere? {
          return Missing;
        }
      }
      if d.ReadFails? {
        return Unreadable;
      }
      if removed {
        files := files - {oldPath};
      }
      l := Decoded(c, d.data);
    }
  }

  // ---------------------------------------------------------------- crash safety

  /** One attempt to save `state`, with its temporary name and the calls it got answered. */
  datatype Attempt<+T> = Attempt(state: T, tmp: string, calls: seq<Call>)

  function AfterSaves<T>(files: Files, path: string, c: Codec<T>, attempts: seq<Attempt<T>>): Files {
    if attempts == [] then files
    else
      var last := attempts[|attempts| - 1];
      var before := AfterSaves(files, path, c, attempts[..|attempts| - 1]);
      AfterWrite(before, path, c.encode(last.state), last.tmp, last.calls)
  }

  /** The state of the last attempt that got all four calls through, if there is one. */
  function LastComplete<T>(attempts: seq<Attempt<T>>): Option<T> {
    if attempts == [] then None
    else if Complete(attempts[|attempts| - 1].calls) then Some(attempts[|attempts| - 1].state)
    else LastComplete(attempts[..|attempts| - 1])
  }

  /** A save stopped anywhere leaves every file but the temporary one old, or installs the new contents. */
  lemma {:induction false} SaveIsAtomic(files: Files, path: string, data: Bytes, tmp: string, calls: seq<Call>)
    requires tmp != path && tmp !in files
    ensures var after := AfterWrite(files, path, data, tmp, calls);
            && after - {tmp} == (if Complete(calls) then files[path := data] else files)
            && (Complete(calls) ==> tmp !in after)
  {
    assert files - {tmp} == files;
    assert files[path := data] - {tmp} == files[path := data];
  }

  /**
   Over any series of saves, whatever fails or is killed in between, a load that can read
   finds exactly the last state that was saved in full, or what was there before.
   */
  lemma {:induction false} LoadFindsLastComplete<T(!new)>(
    files: Files, broken: set<string>, path: string, oldPath: string, c: Codec<T>, attempts: seq<Attempt<T>>)
    requires Undoes(c) && path != oldPath
    requires forall i :: 0 <= i < |attempts| ==> attempts[i].tmp != path && attempts[i].tmp != oldPath
    ensures var l := Load(AfterSaves(files, path, c, attempts), broken, path, oldPath, c);
            match LastComplete(attempts)
            case None => l == Load(files, broken, path, oldPath, c)
            case Some(x) => l == if path in broken then Unreadable else State(x)
  {
    if attempts != [] {
      LoadFindsLastComplete(files, broken, path, oldPath, c, attempts[..|attempts| - 1]);
    }
  }

  /** Loading again gives the same answer exactly when the first load did not use up the old location. */
  lemma {:induction false} LoadIsRepeatable<T>(
    files: Files, broken: set<string>, path: string, oldPath: string, c: Codec<T>)
    requires path != oldPath
    ensures Load(AfterLoad(files, broken, path, oldPath, true), broken, path, oldPath, c)
            == Load(files, broken, path, oldPath, c)
            <==> path in files || path in broken || oldPath !in files || oldPath in broken
  {
    assert path in files ==> (files - {oldPath})[path] == files[path];
  }
}

/** The model store: install by staged copy and rename, pointers by symlink replacement. Each
    file-system call may fail or be the last one before a kill; the journal keeps the store after
    every call. */
module ModelStore {
  import opened Options

  type Bytes = seq<int>

  datatype Leaf = Regular(bytes: Bytes) | SymLink(target: string)

  datatype Node = Directory(files: map<string, Leaf>) | Link(target: string) | File(bytes: Bytes)

  type Store = map<string, Node>

  const MANIFEST := "manifest.json"
  const CURRENT := "current"
  const KNOWN_GOOD := "known-good"

  /** The selected baseline: its ID and artifact name, which bytes are its manifest, the manifest
      the installer writes, and which bytes have the declared SHA-256. */
  datatype Baseline = Baseline(
    id: string,
    artifact: string,
    isManifest: Bytes -> bool,
    manifest: Bytes,
    hasDigest: Bytes -> bool
  ) {
    ghost predicate Sensible() {
      && isManifest(manifest)
      && artifact != MANIFEST && id != CURRENT && id != KNOWN_GOOD
    }

    /** What `validate_model` accepts in a directory. */
    predicate Valid(files: map<string, Leaf>) {
      && MANIFEST in files && files[MANIFEST].Regular? && isManifest(files[MANIFEST].bytes)
      && artifact in files && files[artifact].Regular? && hasDigest(files[artifact].bytes)
    }

    /** What `_installed_version` accepts. */
    predicate Installed(store: Store) {
      id in store && store[id].Directory? && Valid(store[id].files)
    }

    /** Exactly the two files of a completed installation. */
    predicate Published(node: Node) {
      node.Directory? && node.files.Keys == {artifact, MANIFEST} && Valid(node.files)
    }
  }

  datatype Call =
    | MakeDirectory(name: string)
    | Write(directory: string, file: string, bytes: Bytes)
    | ChangeMode(path: seq<string>)
    | Sync(path: seq<string>)
    | Rename(from: string, to: string)
    | MakeLink(directory: string, target: string)
    | Repoint(directory: string, pointer: string)
    | Unlink(directory: string, file: string)
    | Remove(name: string)

  predicate Possible(store: Store, call: Call) {
    match call
    case MakeDirectory(name) => name !in store
    case Write(directory, _, _) => directory in store && store[directory].Directory?
    case ChangeMode(_) => true
    case Sync(_) => true
    case Rename(from, to) => from in store && to !in store
    case MakeLink(directory, _) => directory in store && store[directory].Directory?
    case Repoint(directory, pointer) =>
      && directory in store && store[directory].Directory? && "link" in store[directory].files
      && store[directory].files["link"].SymLink? && directory != pointer
      && (pointer in store ==> !store[pointer].Directory?)
    case Unlink(directory, file) =>
      directory in store && store[directory].Directory? && file in store[directory].files
    case Remove(name) => name in store && store[name].Directory? && store[name].files == map[]
  }

  function Effect(store: Store, call: Call): Store
    requires Possible(store, call)
  {
    match call
    case MakeDirectory(name) => store[name := Directory(map[])]
    case Write(directory, file, bytes) =>
      store[directory := Directory(store[directory].files[file := Regular(bytes)])]
    case ChangeMode(_) => store
    case Sync(_) => store
    case Rename(from, to) => (store - {from})[to := store[from]]
    case MakeLink(directory, target) =>
      store[directory := Directory(store[directory].files["link" := SymLink(target)])]
    case Repoint(directory, pointer) =>
      store[directory := Directory(store[directory].files - {"link"})]
           [pointer := Link(store[directory].files["link"].target)]
    case Unlink(directory, file) => store[directory := Directory(store[directory].files - {file})]
    case Remove(name) => store - {name}
  }

  predicate IsPointer(name: string) {
    name == CURRENT || name == KNOWN_GOOD
  }

  /** The version directory is absent, as found, or complete; each pointer is as found or names a
      complete version; nothing else that was found has changed. */
  ghost predicate Intact(now: Store, origin: Store, b: Baseline) {
    && (b.id in origin ==> b.id in now && now[b.id] == origin[b.id])
    && (b.id in now && b.id !in origin ==> b.Published(now[b.id]))
    && (forall p :: IsPointer(p) ==>
          || ((p in now <==> p in origin) && (p in now ==> now[p] == origin[p]))
          || (p in now && now[p] == Link(b.id) && b.Installed(now)))
    && (forall n :: n in origin && !IsPointer(n) ==> n in now && now[n] == origin[n])
  }

  /** A version once present is never changed. */
  ghost predicate Stable(now: Store, before: Store, b: Baseline) {
    b.id in before ==> b.id in now && now[b.id] == before[b.id]
  }

  lemma {:induction false} RepointIsIntact(
      now: Store, origin: Store, b: Baseline, temporary: string, pointer: string)
    requires Intact(now, origin, b) && b.Sensible() && b.Installed(now)
    requires temporary !in origin && temporary != b.id && !IsPointer(temporary) && IsPointer(pointer)
    requires Possible(now, Repoint(temporary, pointer)) && now[temporary].files["link"] == SymLink(b.id)
    ensures var after := Effect(now, Repoint(temporary, pointer));
      && Intact(after, origin, b) && Stable(after, now, b)
      && pointer in after && after[pointer] == Link(b.id) && b.Installed(after)
  {
  }

  function Joined(chunks: seq<Bytes>): Bytes {
    if chunks == [] then [] else Joined(chunks[..|chunks| - 1]) + chunks[|chunks| - 1]
  }

  /** An operation, its working directory's name, and the number of its calls before a kill. */
  datatype Operation =
    | Install(temporary: string, calls: nat, manifestAccepted: bool, sourceRegular: bool, sourceMatches: bool,
              chunks: seq<Bytes>)
    | Activate(temporary: string, calls: nat, modelId: string)
    | Qualify(temporary: string, calls: nat, modelId: string)
    | Rollback(temporary: string, calls: nat)

  /** How an operation ended, and what it did: the stores around it, the calls it made, and whether
      none of them failed. */
  datatype Ended = Ignored | Killed | Finished(done: bool)

  datatype Report = Report(before: Store, now: Store, made: int, ended: Ended, faultless: bool)

  /** Of the lasting entries, nothing but `name` has changed. */
  ghost predicate Touches(before: Store, now: Store, temporary: string, name: string) {
    && (forall n :: n != temporary && n != name ==> (n in now <==> n in before))
    && (forall n :: n != temporary && n != name && n in now ==> now[n] == before[n])
  }

  predicate Points(store: Store, pointer: string, b: Baseline) {
    pointer in store && store[pointer] == Link(b.id) && b.Installed(store)
  }

  /** A pointer may be replaced: the version validates and no directory has the pointer's name. */
  predicate Replaceable(store: Store, pointer: string, b: Baseline) {
    b.Installed(store) && (pointer in store ==> !store[pointer].Directory?)
  }

  ghost predicate Repoints(
      pointer: string, allowed: bool, temporary: string, before: Store, now: Store, done: bool, faultless: bool,
      b: Baseline)
  {
    && Touches(before, now, temporary, pointer)
    && (done ==> Points(now, pointer, b))
    && (faultless ==> (done <==> allowed && Replaceable(before, pointer, b)))
  }

  /** What an operation does that is not killed: success is the version or the pointer it promises,
      and without a failing call it takes exactly the conditions that the source checks. */
  ghost predicate Fulfils(o: Operation, before: Store, now: Store, done: bool, faultless: bool, b: Baseline) {
    match o
    case Install(temporary, _, manifestAccepted, sourceRegular, sourceMatches, chunks) =>
      && Touches(before, now, temporary, b.id)
      && (done ==> b.Installed(now))
      && (faultless ==>
            (done <==>
              && manifestAccepted && sourceRegular
              && (if b.id in before then sourceMatches && b.Installed(before) else b.hasDigest(Joined(chunks)))))
    case Activate(temporary, _, modelId) =>
      Repoints(CURRENT, modelId == b.id, temporary, before, now, done, faultless, b)
    case Qualify(temporary, _, modelId) =>
      Repoints(KNOWN_GOOD, modelId == b.id, temporary, before, now, done, faultless, b)
    case Rollback(temporary, _) =>
      var allowed := KNOWN_GOOD in before && before[KNOWN_GOOD] == Link(b.id);
      Repoints(CURRENT, allowed, temporary, before, now, done, faultless, b)
  }

  /** An operation is killed after exactly its number of calls, or it is finished, or its working
      directory is not a new one. */
  ghost predicate Reports(o: Operation, r: Report, origin: Store, b: Baseline) {
    match r.ended
    case Ignored =>
      r.now == r.before && r.made == 0 && !(o.temporary !in r.before && Unused(o.temporary, origin, b))
    case Killed => r.made == o.calls
    case Finished(done) => Fulfils(o, r.before, r.now, done, r.faultless, b)
  }

  /** A working directory's name: it was not there at first and is no version's or pointer's. */
  predicate Unused(name: string, origin: Store, b: Baseline) {
    name !in origin && name != b.id && !IsPointer(name)
  }

  /** Each operation begins with the store that the one before it left. */
  predicate Linked(first: Store, reports: seq<Report>, last: Store) {
    if reports == [] then first == last
    else
      && reports[0].before == first && reports[|reports| - 1].now == last
      && forall i {:trigger reports[i]} :: 0 < i < |reports| ==> reports[i].before == reports[i - 1].now
  }

  predicate Private(call: Call, temporary: string) {
    match call
    case MakeDirectory(name) => name == temporary
    case Write(directory, _, _) => directory == temporary
    case MakeLink(directory, _) => directory == temporary
    case Unlink(directory, _) => directory == temporary
    case Remove(name) => name == temporary
    case _ => false
  }

  lemma {:induction false} PrivateIsIntact(
      now: Store, origin: Store, b: Baseline, call: Call, temporary: string)
    requires Intact(now, origin, b) && Private(call, temporary) && Possible(now, call)
    requires temporary !in origin && temporary != b.id && !IsPointer(temporary)
    ensures Intact(Effect(now, call), origin, b) && Stable(Effect(now, call), now, b)
    ensures forall n :: n != temporary ==> (n in Effect(now, call) <==> n in now)
    ensures forall n :: n != temporary && n in now ==> Effect(now, call)[n] == now[n]
  {
  }

  class Administration {
    const baseline: Baseline
    const origin: Store
    var entries: Store
    var journal: seq<Store>
    ghost var failures: nat

    ghost predicate Valid()
      reads this
    {
      && baseline.Sensible()
      && Intact(entries, origin, baseline)
      && (forall k :: 0 <= k < |journal| ==> Intact(journal[k], origin, baseline))
      && (forall k :: 0 <= k < |journal| ==> Stable(entries, journal[k], baseline))
      && (forall j, k :: 0 <= j < k < |journal| ==> Stable(journal[k], journal[j], baseline))
    }

    constructor (baseline: Baseline, store: Store)
      requires baseline.Sensible()
      ensures Valid() && entries == store && origin == store && this.baseline == baseline && failures == 0
    {
      this.baseline := baseline;
      origin, entries, journal, failures := store, store, [], 0;
    }

    /** A working directory of this process. */
    predicate Scratch(name: string)
      reads this
    {
      Unused(name, origin, baseline)
    }

    method Perform(call: Call) returns (ok: bool)
      requires Valid()
      requires Possible(entries, call) ==>
        Intact(Effect(entries, call), origin, baseline) && Stable(Effect(entries, call), entries, baseline)
      modifies `entries, `journal, `failures
      ensures Valid()
      ensures ok ==> Possible(old(entries), call) && entries == Effect(old(entries), call)
      ensures !ok ==> entries == old(entries)
      ensures failures == old(failures) + if !ok && Possible(old(entries), call) then 1 else 0
    {
      var possible := Possible(entries, call);
      ok := *;
      ok := ok && possible;
      if ok {
        entries := Effect(entries, call);
      }
      failures := failures + if !ok && possible then 1 else 0;
      journal := journal + [entries];
    }

    /** A call on this process's own working directory. */
    method Scribble(call: Call, temporary: string) returns (ok: bool)
      requires Valid() && Scratch(temporary) && Private(call, temporary)
      modifies `entries, `journal, `failures
      ensures Valid() && old(failures) <= failures
      ensures ok ==> Possible(old(entries), call) && entries == Effect(old(entries), call)
      ensures !ok ==> entries == old(entries)
      ensures failures == old(failures) + if !ok && Possible(old(entries), call) then 1 else 0
    {
      if Possible(entries, call) {
        PrivateIsIntact(entries, origin, baseline, call, temporary);
      }
      ok := Perform(call);
    }

    /** A kill after `calls` journalled calls. */
    method Kill(calls: nat)
      requires Valid() && 0 < calls <= |journal|
      modifies `entries, `journal
      ensures Valid() && journal == old(journal)[..calls] && entries == journal[calls - 1]
    {
      entries := journal[calls - 1];
      journal := journal[..calls];
    }

    /** Nothing but the working directory differs from `before`. */
    ghost predicate OnlyScratch(before: Store, temporary: string)
      reads this
    {
      && (forall n :: n != temporary ==> (n in entries <==> n in before))
      && (forall n :: n != temporary && n in entries ==> entries[n] == before[n])
    }

    /** Of the lasting entries, nothing but `name` differs from `before`. */
    ghost predicate OnlyTouches(before: Store, temporary: string, name: string)
      reads this
    {
      Touches(before, entries, temporary, name)
    }

    /** The artifact is the working directory's only file so far. */
    method WriteArtifact(temporary: string, bytes: Bytes, ghost before: Store) returns (written: bool)
      requires Valid() && Scratch(temporary) && OnlyScratch(before, temporary)
      requires temporary in entries && entries[temporary].Directory?
      requires entries[temporary].files.Keys <= {baseline.artifact}
      modifies `entries, `journal, `failures
      ensures Valid() && OnlyScratch(before, temporary)
      ensures failures == old(failures) + if written then 0 else 1
      ensures if written
              then temporary in entries && entries[temporary] == Directory(map[baseline.artifact := Regular(bytes)])
              else entries == old(entries)
    {
      written := Scribble(Write(temporary, baseline.artifact, bytes), temporary);
    }

    /** `copyfile`, one chunk after another. */
    method Copy(temporary: string, chunks: seq<Bytes>, ghost before: Store) returns (done: bool, copied: Bytes)
      requires Valid() && Scratch(temporary) && OnlyScratch(before, temporary)
      requires temporary in entries && entries[temporary] == Directory(map[])
      modifies `entries, `journal, `failures
      ensures Valid() && old(failures) <= failures && OnlyScratch(before, temporary)
      ensures done ==>
        && copied == Joined(chunks)
        && temporary in entries && entries[temporary] == Directory(map[baseline.artifact := Regular(copied)])
      ensures !done ==> failures > old(failures)
    {
      copied := [];
      done := WriteArtifact(temporary, [], before);
      if !done {
        return;
      }
      for i := 0 to |chunks|
        invariant Valid() && old(failures) <= failures && OnlyScratch(before, temporary)
        invariant temporary in entries && entries[temporary] == Directory(map[baseline.artifact := Regular(copied)])
        invariant copied == Joined(chunks[..i])
      {
        done := WriteArtifact(temporary, copied + chunks[i], before);
        if !done {
          return;
        }
        copied := copied + chunks[i];
        assert chunks[..i + 1][..i] == chunks[..i];
      }
      assert chunks[..|chunks|] == chunks;
      done := true;
    }

    method Stage(temporary: string, chunks: seq<Bytes>) returns (staged: bool, copied: Bytes)
      requires Valid() && Scratch(temporary) && temporary !in entries
      modifies `entries, `journal, `failures
      ensures Valid() && old(failures) <= failures && OnlyScratch(old(entries), temporary)
      ensures staged ==>
        && copied == Joined(chunks)
        && temporary in entries
        && entries[temporary] ==
           Directory(map[baseline.artifact := Regular(copied), MANIFEST := Regular(baseline.manifest)])
      ensures !staged ==> failures > old(failures)
    {
      copied := [];
      staged := Scribble(MakeDirectory(temporary), temporary);
      if !staged {
        return;
      }
      staged, copied := Copy(temporary, chunks, old(entries));
      if staged {
        staged := Scribble(Write(temporary, MANIFEST, baseline.manifest), temporary);
      }
    }

    /** The end of `TemporaryDirectory`: its files are removed one by one, then the directory. */
    method Clean(temporary: string)
      requires Valid() && Scratch(temporary)
      modifies `entries, `journal, `failures
      ensures Valid() && old(failures) <= failures
      ensures OnlyScratch(old(entries), temporary)
    {
      if temporary !in entries || !entries[temporary].Directory? {
        return;
      }
      while entries[temporary].files != map[]
        invariant Valid() && old(failures) <= failures && OnlyScratch(old(entries), temporary)
        invariant temporary in entries && entries[temporary].Directory?
        decreases |entries[temporary].files|
      {
        var file :| file in entries[temporary].files;
        var unlinked := Scribble(Unlink(temporary, file), temporary);
        if !unlinked {
          return;
        }
      }
      var removed := Scribble(Remove(temporary), temporary);
    }

    /** `manifestAccepted`, `sourceRegular` and `sourceMatches` are what the checks of the caller's
        files answer; `chunks` is what the copy reads while the source may change. */
    method InstallModel(manifestAccepted: bool, sourceRegular: bool, sourceMatches: bool,
                        temporary: string, chunks: seq<Bytes>)
      returns (installed: bool)
      requires Valid() && Scratch(temporary) && temporary !in entries
      modifies `entries, `journal, `failures
      ensures Valid() && old(failures) <= failures
      ensures OnlyTouches(old(entries), temporary, baseline.id)
      ensures installed ==> baseline.Installed(entries)
      ensures installed ==> manifestAccepted && sourceRegular
      ensures failures == old(failures) ==>
        (installed <==>
          && manifestAccepted && sourceRegular
          && (if baseline.id in old(entries) then sourceMatches && baseline.Installed(old(entries))
              else baseline.hasDigest(Joined(chunks))))
    {
      installed := false;
      if !manifestAccepted {
        return;
      }
      if baseline.id in entries {
        installed := sourceRegular && sourceMatches && baseline.Installed(entries);
        return;
      }
      if !sourceRegular {
        return;
      }
      var staged, copied := Stage(temporary, chunks);
      if staged && baseline.Valid(entries[temporary].files) {
        installed := Publish(temporary);
      }
      Clean(temporary);
    }

    /** The file or directory gets its mode and is put on disk. */
    method Settle(path: seq<string>) returns (settled: bool)
      requires Valid()
      modifies `entries, `journal, `failures
      ensures Valid() && old(failures) <= failures && entries == old(entries)
      ensures failures == old(failures) ==> settled
    {
      settled := Perform(ChangeMode(path));
      if settled {
        settled := Perform(Sync(path));
      }
    }

    /** Every file is settled, then the directory, and only then is it published by one rename. */
    method Publish(temporary: string) returns (published: bool)
      requires Valid() && Scratch(temporary) && temporary in entries && baseline.Published(entries[temporary])
      requires baseline.id !in entries
      modifies `entries, `journal, `failures
      ensures Valid() && old(failures) <= failures
      ensures OnlyTouches(old(entries), temporary, baseline.id)
      ensures published ==> baseline.Installed(entries)
      ensures failures == old(failures) ==> published
    {
      published := false;
      var files := [baseline.artifact, MANIFEST];
      for i := 0 to |files|
        invariant Valid() && old(failures) <= failures && entries == old(entries)
      {
        var settled := Settle([temporary, files[i]]);
        if !settled {
          return;
        }
      }
      var ready := Settle([temporary]);
      if !ready {
        return;
      }
      published := Perform(Rename(temporary, baseline.id));
      if published {
        published := Perform(Sync([]));
      }
    }

    /** The pointer is replaced by one rename, and only to a version that has just validated. */
    method ReplacePointer(pointer: string, modelId: string, temporary: string) returns (replaced: bool)
      requires Valid() && IsPointer(pointer) && Scratch(temporary) && temporary !in entries
      modifies `entries, `journal, `failures
      ensures Valid() && old(failures) <= failures
      ensures OnlyTouches(old(entries), temporary, pointer)
      ensures replaced ==>
        && modelId == baseline.id
        && pointer in entries && entries[pointer] == Link(baseline.id)
        && baseline.Installed(entries)
      ensures failures == old(failures) ==>
        (replaced <==>
          && modelId == baseline.id && baseline.Installed(old(entries))
          && (pointer in old(entries) ==> !old(entries)[pointer].Directory?))
    {
      replaced := false;
      if modelId != baseline.id || !baseline.Installed(entries) {
        return;
      }
      var made := Scribble(MakeDirectory(temporary), temporary);
      if !made {
        return;
      }
      replaced := PointAt(pointer, temporary);
      Clean(temporary);
    }

    method PointAt(pointer: string, temporary: string) returns (replaced: bool)
      requires Valid() && IsPointer(pointer) && Scratch(temporary) && baseline.Installed(entries)
      requires temporary in entries && entries[temporary] == Directory(map[])
      modifies `entries, `journal, `failures
      ensures Valid() && old(failures) <= failures
      ensures OnlyTouches(old(entries), temporary, pointer)
      ensures replaced ==> pointer in entries && entries[pointer] == Link(baseline.id) && baseline.Installed(entries)
      ensures failures == old(failures) ==>
        (replaced <==> (pointer in old(entries) ==> !old(entries)[pointer].Directory?))
    {
      replaced := Scribble(MakeLink(temporary, baseline.id), temporary);
      if replaced {
        replaced := Swap(pointer, temporary);
      }
    }

    /** `os.replace` of the pointer by the link in the working directory. */
    method Swap(pointer: string, temporary: string) returns (swapped: bool)
      requires Valid() && IsPointer(pointer) && Scratch(temporary) && baseline.Installed(entries)
      requires temporary in entries && entries[temporary] == Directory(map["link" := SymLink(baseline.id)])
      modifies `entries, `journal, `failures
      ensures Valid() && old(failures) <= failures
      ensures OnlyTouches(old(entries), temporary, pointer)
      ensures swapped ==> pointer in entries && entries[pointer] == Link(baseline.id) && baseline.Installed(entries)
      ensures failures == old(failures) ==>
        (swapped <==> (pointer in old(entries) ==> !old(entries)[pointer].Directory?))
    {
      if Possible(entries, Repoint(temporary, pointer)) {
        RepointIsIntact(entries, origin, baseline, temporary, pointer);
      }
      swapped := Perform(Repoint(temporary, pointer));
      if swapped {
        swapped := Perform(Sync([]));
      }
    }

    method ActivateModel(modelId: string, temporary: string) returns (done: bool)
      requires Valid() && Scratch(temporary) && temporary !in entries
      modifies `entries, `journal, `failures
      ensures Valid() && old(failures) <= failures && OnlyTouches(old(entries), temporary, CURRENT)
      ensures done ==> CURRENT in entries && entries[CURRENT] == Link(baseline.id) && baseline.Installed(entries)
      ensures failures == old(failures) ==>
        (done <==>
          && modelId == baseline.id && baseline.Installed(old(entries))
          && (CURRENT in old(entries) ==> !old(entries)[CURRENT].Directory?))
    {
      done := ReplacePointer(CURRENT, modelId, temporary);
    }

    method QualifyModel(modelId: string, temporary: string) returns (done: bool)
      requires Valid() && Scratch(temporary) && temporary !in entries
      modifies `entries, `journal, `failures
      ensures Valid() && old(failures) <= failures && OnlyTouches(old(entries), temporary, KNOWN_GOOD)
      ensures done ==> KNOWN_GOOD in entries && entries[KNOWN_GOOD] == Link(baseline.id) && baseline.Installed(entries)
      ensures failures == old(failures) ==>
        (done <==>
          && modelId == baseline.id && baseline.Installed(old(entries))
          && (KNOWN_GOOD in old(entries) ==> !old(entries)[KNOWN_GOOD].Directory?))
    {
      done := ReplacePointer(KNOWN_GOOD, modelId, temporary);
    }

    /** Rolling back makes `current` what `known-good` names, if that still validates. */
    method RollbackModel(temporary: string) returns (done: bool)
      requires Valid() && Scratch(temporary) && temporary !in entries
      modifies `entries, `journal, `failures
      ensures Valid() && old(failures) <= failures && OnlyTouches(old(entries), temporary, CURRENT)
      ensures done ==>
        && KNOWN_GOOD in old(entries) && CURRENT in entries
        && entries[CURRENT] == old(entries)[KNOWN_GOOD] == Link(baseline.id)
        && baseline.Installed(entries)
      ensures failures == old(failures) ==>
        (done <==>
          && KNOWN_GOOD in old(entries) && old(entries)[KNOWN_GOOD] == Link(baseline.id)
          && baseline.Installed(old(entries))
          && (CURRENT in old(entries) ==> !old(entries)[CURRENT].Directory?))
    {
      if KNOWN_GOOD !in entries || !entries[KNOWN_GOOD].Link? {
        return false;
      }
      done := ReplacePointer(CURRENT, entries[KNOWN_GOOD].target, temporary);
    }

    method Execute(o: Operation) returns (done: bool)
      requires Valid() && Scratch(o.temporary) && o.temporary !in entries
      modifies `entries, `journal, `failures
      ensures Valid() && old(failures) <= failures
      ensures Fulfils(o, old(entries), entries, done, failures == old(failures), baseline)
    {
      match o {
        case Install(_, _, manifestAccepted, sourceRegular, sourceMatches, chunks) =>
          done := InstallModel(manifestAccepted, sourceRegular, sourceMatches, o.temporary, chunks);
        case Activate(_, _, modelId) => done := ActivateModel(modelId, o.temporary);
        case Qualify(_, _, modelId) => done := QualifyModel(modelId, o.temporary);
        case Rollback(_, _) => done := RollbackModel(o.temporary);
      }
    }

    method ExecuteOrDie(o: Operation) returns (ended: Ended)
      requires Valid()
      modifies `entries, `journal, `failures
      ensures Valid() && old(failures) <= failures
      ensures Reports(o,
        Report(old(entries), entries, |journal| - |old(journal)|, ended, failures == old(failures)), origin, baseline)
    {
      if o.temporary in entries || !Scratch(o.temporary) {
        return Ignored;
      }
      var start := |journal|;
      var done := Execute(o);
      if 0 < start + o.calls < |journal| {
        Kill(start + o.calls);
        return Killed;
      }
      ended := Finished(done);
    }

    /** Any sequence of operations, each finished or killed after any of its calls, keeps the
        store intact after every single call; every operation is made, and one that is not killed
        does what it promises. */
    method Operate(operations: seq<Operation>) returns (ghost reports: seq<Report>)
      requires Valid()
      modifies `entries, `journal, `failures
      ensures Valid()
      ensures forall k :: 0 <= k < |journal| ==>
        Intact(journal[k], origin, baseline) && Stable(entries, journal[k], baseline)
      ensures |reports| == |operations| && Linked(old(entries), reports, entries)
      ensures forall i :: 0 <= i < |operations| ==> Reports(operations[i], reports[i], origin, baseline)
    {
      reports := [];
      for i := 0 to |operations|
        invariant Valid()
        invariant |reports| == i && Linked(old(entries), reports, entries)
        invariant forall j :: 0 <= j < i ==> Reports(operations[j], reports[j], origin, baseline)
      {
        ghost var before, start, failed := entries, |journal|, failures;
        var ended := ExecuteOrDie(operations[i]);
        reports := reports + [Report(before, entries, |journal| - start, ended, failures == failed)];
      }
    }
  }
}

/** A run of commands that leaves two canonical profiles. */
module ForkExample {
  import opened Options
  import opened Profiles
  import opened ProfileSafety

  predicate LinkedTo(store: Store, e: Entry) {
    if e.ok then Possible(store, e.command) && e.store == Effect(store, e.command) else e.store == store
  }

  predicate LinkedAt(before: Store, journal: seq<Entry>, k: nat)
    requires k < |journal|
  {
    LinkedTo(if k == 0 then before else journal[k - 1].store, journal[k])
  }

  /** Each entry is what its command does to the store before it. */
  ghost predicate Linked(before: Store, journal: seq<Entry>) {
    forall k :: 0 <= k < |journal| ==> LinkedAt(before, journal, k)
  }

  const OLD := Profile(SAVED_PROFILE, false, "old")
  const NEW := Profile(PENDING_PROFILE, false, "new")
  const FOUND: Store := map[1 := OLD]
  const STAGED: Store := map[1 := OLD, 2 := NEW]
  const BACKED_UP: Store := map[1 := OLD.(name := PREVIOUS_PROFILE), 2 := NEW]
  const RENAMED: Store := map[1 := OLD.(name := PREVIOUS_PROFILE), 2 := NEW.(name := SAVED_PROFILE)]
  const FORKED: Store := map[1 := OLD, 2 := NEW.(name := SAVED_PROFILE)]
  const FORKING: Attempt := Attempt(FOUND, Some(1), 2, [])

  /** The code's commands from the creation of the candidate on: the promotion's verification
      fails, so does the demotion, the old profile is renamed back, and the deletion of the
      candidate fails too. */
  const FORKING_LOG: seq<Entry> := [
    Entry(Add(2, "new"), true, STAGED),
    Entry(ListProfiles, true, STAGED),
    Entry(UpUuid(2), true, STAGED),
    Entry(Rename(1, PREVIOUS_PROFILE), true, BACKED_UP),
    Entry(ReadName(1), true, BACKED_UP),
    Entry(ReadAutoconnect(1), true, BACKED_UP),
    Entry(Rename(2, SAVED_PROFILE), true, RENAMED),
    Entry(ReadName(2), false, RENAMED),
    Entry(Rename(2, PENDING_PROFILE), false, RENAMED),
    Entry(Rename(1, SAVED_PROFILE), true, FORKED),
    Entry(DeleteUuid(2), false, FORKED)]

  lemma {:induction false} ForkingEffects()
    ensures Effect(FOUND, Add(2, "new")) == STAGED
    ensures Effect(STAGED, Rename(1, PREVIOUS_PROFILE)) == BACKED_UP
    ensures Effect(BACKED_UP, Rename(2, SAVED_PROFILE)) == RENAMED
    ensures Effect(RENAMED, Rename(1, SAVED_PROFILE)) == FORKED
  {
  }

  lemma {:induction false} StagingIsLinked()
    ensures forall k :: 0 <= k < 7 ==> LinkedAt(FOUND, FORKING_LOG, k)
  {
    ForkingEffects();
  }

  lemma {:induction false} RollbackIsLinked()
    ensures forall k :: 7 <= k < |FORKING_LOG| ==> LinkedAt(FOUND, FORKING_LOG, k)
  {
    ForkingEffects();
  }

  lemma {:induction false} ForkingIsLinked()
    ensures Linked(FOUND, FORKING_LOG)
  {
    StagingIsLinked();
    RollbackIsLinked();
  }

  /** From one saved profile and no backup the fork can occur. */
  lemma {:induction false} ForkOccurs()
    ensures Sole(FOUND, SAVED_PROFILE, 1) && Nobody(FOUND, PREVIOUS_PROFILE) && Linked(FOUND, FORKING_LOG)
    ensures ForkPath(FORKING_LOG, |FORKING_LOG|, FORKING)
    ensures Forked(FORKED, FORKING) && !Recoverable(FORKED)
  {
    ForkingIsLinked();
    var log, a := FORKING_LOG, FORKING;
    assert Promotes(log[6], a) && FailsToDemote(log[8], a) && Reinstates(log[9], a);
    assert PromotedBefore(log, 8, a) && StuckBefore(log, 9, a);
    assert Named(FORKED, 1, SAVED_PROFILE) && Named(FORKED, 2, SAVED_PROFILE);
  }

  /** The other store that boot refuses: from every store with one saved profile and a backup, the
      commands from the candidate's creation to the renaming of the old profile, if the daemon is
      killed after them. */
  lemma {:induction false} BackupsCollide(before: Store, saved: Uuid, backup: Uuid, candidate: Uuid, ssid: string)
    returns (log: seq<Entry>, a: Attempt)
    requires Sole(before, SAVED_PROFILE, saved) && Named(before, backup, PREVIOUS_PROFILE) && candidate !in before
    ensures a == Attempt(before, Some(saved), candidate, []) && Linked(before, log) && |log| == 4
    ensures log[0].command == Add(candidate, ssid) && log[1].command == ListProfiles
    ensures log[2].command == UpUuid(candidate) && log[3].command == Rename(saved, PREVIOUS_PROFILE)
    ensures forall k :: 0 <= k < |log| ==> log[k].ok
    ensures Collided(log[3].store, a) && !Recoverable(log[3].store)
  {
    a := Attempt(before, Some(saved), candidate, []);
    var staged := Effect(before, Add(candidate, ssid));
    var backed := Effect(staged, Rename(saved, PREVIOUS_PROFILE));
    log := [
      Entry(Add(candidate, ssid), true, staged),
      Entry(ListProfiles, true, staged),
      Entry(UpUuid(candidate), true, staged),
      Entry(Rename(saved, PREVIOUS_PROFILE), true, backed)];
    assert LinkedTo(before, log[0]) && LinkedTo(staged, log[1]) && LinkedTo(staged, log[2]) && LinkedTo(staged, log[3]);
    assert Named(backed, saved, PREVIOUS_PROFILE) && Named(backed, backup, PREVIOUS_PROFILE);
    assert Nobody(backed, SAVED_PROFILE);
  }
}

/** What one command may do to the old and the new profile while a connection is promoted,
    and what boot can do with the store it leaves. */
module ProfileSafety {
  import opened Options
  import opened Profiles

  /** One attempt to connect: the store it found, the canonical profile there, the UUID of the
      new profile, and the journal when it began. */
  datatype Attempt = Attempt(before: Store, canonical: Option<Uuid>, candidate: Uuid, log: seq<Entry>)

  predicate IsCanonical(store: Store, canonical: Option<Uuid>) {
    match canonical
    case Some(u) => Sole(store, SAVED_PROFILE, u)
    case None => Nobody(store, SAVED_PROFILE)
  }

  ghost function CanonicalOf(store: Store): (canonical: Option<Uuid>)
    ensures canonical.Some? ==> Sole(store, SAVED_PROFILE, canonical.value)
    ensures canonical.None? ==> forall u: Uuid :: !Sole(store, SAVED_PROFILE, u)
  {
    if u: Uuid :| Sole(store, SAVED_PROFILE, u) then Some(u) else None
  }

  /** The old profile survives under a name that boot looks for. */
  predicate Kept(before: Store, now: Store, uuid: Uuid) {
    && uuid in before && uuid in now
    && now[uuid].ssid == before[uuid].ssid
    && (now[uuid].name == SAVED_PROFILE || now[uuid].name == PREVIOUS_PROFILE)
    && (now[uuid].autoconnect ==> before[uuid].autoconnect)
  }

  /** Every profile that is neither pending nor the old one is untouched, nothing appears but the
      new one, and the old one is kept unless the new one is canonical. */
  ghost predicate Guarded(now: Store, a: Attempt) {
    && (forall v :: v in a.before && a.before[v].name != PENDING_PROFILE && Some(v) != a.canonical ==>
          v in now && now[v] == a.before[v])
    && (forall v :: v in now && v != a.candidate && Some(v) != a.canonical ==>
          v in a.before && now[v] == a.before[v])
    && (a.candidate in now ==>
          || now[a.candidate].name == PENDING_PROFILE
          || (now[a.candidate].name == SAVED_PROFILE && !now[a.candidate].autoconnect))
    && (a.canonical.Some? ==>
          if a.canonical.value in now then Kept(a.before, now, a.canonical.value)
          else Named(now, a.candidate, SAVED_PROFILE))
  }

  /** Two canonical profiles: the store that boot refuses. */
  predicate Forked(now: Store, a: Attempt) {
    a.canonical.Some? && Named(now, a.canonical.value, SAVED_PROFILE) && Named(now, a.candidate, SAVED_PROFILE)
  }

  /** How far an attempt's commands have got: the candidate was brought up, then made canonical;
      towards a fork, its demotion failed and the old profile was made canonical too. */
  datatype Trail = Trail(connected: bool, promoted: bool, stuck: bool, forked: bool)

  const UNTOUCHED := Trail(false, false, false, false)
  const CONNECTED := Trail(true, false, false, false)

  predicate Connects(e: Entry, a: Attempt) {
    e.ok && e.command == UpUuid(a.candidate)
  }

  predicate Promotes(e: Entry, a: Attempt) {
    e.ok && e.command == Rename(a.candidate, SAVED_PROFILE)
  }

  predicate FailsToDemote(e: Entry, a: Attempt) {
    !e.ok && e.command == Rename(a.candidate, PENDING_PROFILE)
  }

  predicate Reinstates(e: Entry, a: Attempt) {
    e.ok && a.canonical.Some? && e.command == Rename(a.canonical.value, SAVED_PROFILE)
  }

  predicate Discards(e: Entry, a: Attempt) {
    e.ok && e.command == DeleteUuid(a.candidate)
  }

  function Follow(t: Trail, e: Entry, a: Attempt): Trail {
    Trail(t.connected || Connects(e, a),
          t.promoted || Promotes(e, a),
          t.stuck || (t.promoted && FailsToDemote(e, a)),
          (t.forked || (t.stuck && Reinstates(e, a))) && !Discards(e, a))
  }

  /** The trail of the attempt's entries before entry `end`. */
  function TrailOf(journal: seq<Entry>, end: nat, a: Attempt): Trail
    requires end <= |journal|
  {
    if end <= |a.log| then UNTOUCHED else Follow(TrailOf(journal, end - 1, a), journal[end - 1], a)
  }

  lemma {:induction false} TrailOfPrefix(journal: seq<Entry>, longer: seq<Entry>, end: nat, a: Attempt)
    requires journal <= longer && end <= |journal|
    ensures TrailOf(longer, end, a) == TrailOf(journal, end, a)
  {
    if end > |a.log| {
      TrailOfPrefix(journal, longer, end - 1, a);
      assert longer[end - 1] == journal[end - 1];
    }
  }

  ghost predicate ConnectedBefore(journal: seq<Entry>, end: nat, a: Attempt)
    requires end <= |journal|
  {
    exists i :: |a.log| <= i < end && Connects(journal[i], a)
  }

  ghost predicate PromotedBefore(journal: seq<Entry>, end: nat, a: Attempt)
    requires end <= |journal|
  {
    exists i :: |a.log| <= i < end && Promotes(journal[i], a)
  }

  ghost predicate StuckBefore(journal: seq<Entry>, end: nat, a: Attempt)
    requires end <= |journal|
  {
    exists j :: |a.log| <= j < end && FailsToDemote(journal[j], a) && PromotedBefore(journal, j, a)
  }

  /** The candidate was renamed to the canonical name, its later demotion failed, the old profile
      was renamed back after that, and no deletion of the candidate has succeeded since. */
  ghost predicate ForkPath(journal: seq<Entry>, end: nat, a: Attempt)
    requires end <= |journal|
  {
    exists k :: |a.log| <= k < end && Reinstates(journal[k], a) && StuckBefore(journal, k, a)
                && forall l :: k < l < end ==> !Discards(journal[l], a)
  }

  lemma {:induction false} TrailMeans(journal: seq<Entry>, end: nat, a: Attempt)
    requires end <= |journal|
    ensures TrailOf(journal, end, a).connected <==> ConnectedBefore(journal, end, a)
    ensures TrailOf(journal, end, a).promoted <==> PromotedBefore(journal, end, a)
    ensures TrailOf(journal, end, a).stuck <==> StuckBefore(journal, end, a)
    ensures TrailOf(journal, end, a).forked <==> ForkPath(journal, end, a)
  {
    if end > |a.log| {
      TrailMeans(journal, end - 1, a);
    }
  }

  /** The store after every command since the attempt began is guarded, and forked exactly if the
      commands so far say so; nothing is renamed before the candidate has come up. */
  ghost predicate Safe(journal: seq<Entry>, a: Attempt) {
    && a.log <= journal
    && (forall k :: |a.log| <= k < |journal| ==> Guarded(journal[k].store, a))
    && (forall k :: |a.log| <= k < |journal| ==>
          (Forked(journal[k].store, a) <==> TrailOf(journal, k + 1, a).forked))
    && (forall k :: |a.log| <= k < |journal| && journal[k].command.Rename? ==> TrailOf(journal, k, a).connected)
  }

  /** The present store, with the journal that led to it. */
  ghost predicate Steady(journal: seq<Entry>, now: Store, a: Attempt) {
    && Safe(journal, a)
    && Guarded(now, a)
    && (Forked(now, a) <==> TrailOf(journal, |journal|, a).forked)
  }

  lemma {:induction false} SafeGrows(journal: seq<Entry>, e: Entry, a: Attempt)
    requires Safe(journal, a) && Guarded(e.store, a)
    requires Forked(e.store, a) <==> Follow(TrailOf(journal, |journal|, a), e, a).forked
    requires e.command.Rename? ==> TrailOf(journal, |journal|, a).connected
    ensures Safe(journal + [e], a)
    ensures TrailOf(journal + [e], |journal| + 1, a) == Follow(TrailOf(journal, |journal|, a), e, a)
  {
    var grown := journal + [e];
    TrailOfPrefix(journal, grown, |journal|, a);
    forall k | |a.log| <= k < |grown|
      ensures Guarded(grown[k].store, a)
      ensures Forked(grown[k].store, a) <==> TrailOf(grown, k + 1, a).forked
      ensures grown[k].command.Rename? ==> TrailOf(grown, k, a).connected
    {
      TrailOfPrefix(journal, grown, k, a);
      if k < |journal| {
        TrailOfPrefix(journal, grown, k + 1, a);
      }
    }
  }

  /** Commands that do not touch profiles or what is up. */
  predicate Passive(command: Command) {
    !command.Add? && !command.Rename? && !command.DeleteByName? && !command.DeleteUuid? && !command.UpUuid?
  }

  /** Only commands that left the store alone. */
  ghost predicate Quiet(earlier: seq<Entry>, journal: seq<Entry>, now: Store) {
    && earlier <= journal
    && forall k :: |earlier| <= k < |journal| ==> journal[k].store == now && Passive(journal[k].command)
  }

  lemma {:induction false} QuietTrail(earlier: seq<Entry>, journal: seq<Entry>, a: Attempt, end: nat)
    requires a.log == earlier && Quiet(earlier, journal, a.before) && end <= |journal|
    ensures TrailOf(journal, end, a) == UNTOUCHED
  {
    if end > |a.log| {
      QuietTrail(earlier, journal, a, end - 1);
    }
  }

  lemma {:induction false} QuietIsSteady(earlier: seq<Entry>, journal: seq<Entry>, a: Attempt)
    requires a.log == earlier && Quiet(earlier, journal, a.before)
    requires a.candidate !in a.before && (a.canonical.Some? ==> Sole(a.before, SAVED_PROFILE, a.canonical.value))
    ensures Steady(journal, a.before, a) && Restored(a.before, a)
    ensures TrailOf(journal, |journal|, a) == UNTOUCHED
  {
    assert Guarded(a.before, a) && !Forked(a.before, a);
    forall k | |a.log| <= k < |journal|
      ensures Forked(journal[k].store, a) <==> TrailOf(journal, k + 1, a).forked
    {
      QuietTrail(earlier, journal, a, k + 1);
    }
    QuietTrail(earlier, journal, a, |journal|);
  }

  /** No profile is renamed before the candidate has come up. */
  lemma {:induction false} RenamesFollowConnection(journal: seq<Entry>, a: Attempt, k: nat)
    requires Safe(journal, a) && |a.log| <= k < |journal| && journal[k].command.Rename?
    ensures ConnectedBefore(journal, k, a)
  {
    TrailMeans(journal, k, a);
  }

  /** Every profile that is not pending is as it was, except that the old one's autoconnect may
      have been forced off, and no candidate is left. */
  ghost predicate Restored(now: Store, a: Attempt) {
    && (forall v :: v in now ==> v in a.before)
    && (forall v :: v in a.before && a.before[v].name != PENDING_PROFILE ==>
          v in now
          && (now[v] == a.before[v]
              || (Some(v) == a.canonical && now[v] == a.before[v].(autoconnect := false))))
  }

  /** The profiles a connection does not touch. */
  function Bystanders(a: Attempt): Store {
    map v | v in a.before && a.before[v].name != PENDING_PROFILE && Some(v) != a.canonical :: a.before[v]
  }

  /** The store a completed connection leaves. */
  function Promoted(a: Attempt, ssid: string): Store {
    Bystanders(a)[a.candidate := Profile(SAVED_PROFILE, false, ssid)]
  }

  lemma {:induction false} PromotedIsSole(a: Attempt, ssid: string)
    requires IsCanonical(a.before, a.canonical)
    ensures var now := Promoted(a, ssid);
      Sole(now, SAVED_PROFILE, a.candidate) && now[a.candidate] == Profile(SAVED_PROFILE, false, ssid)
  {
  }

  /** The store while a candidate exists: the old profile's present name and the candidate's,
      with everything else untouched. */
  ghost predicate Shaped(now: Store, a: Attempt, oldName: Option<string>, newName: string, ssid: string) {
    && a.candidate !in a.before
    && IsCanonical(a.before, a.canonical)
    && (oldName.Some? ==> a.canonical.Some?)
    && (forall v :: v != a.candidate && Some(v) != a.canonical ==>
          && (v in now <==> v in a.before && a.before[v].name != PENDING_PROFILE)
          && (v in now ==> now[v] == a.before[v]))
    && (a.canonical.Some? ==>
          && (a.canonical.value in now <==> oldName.Some?)
          && (oldName.Some? ==> Relabelled(a.before[a.canonical.value], now[a.canonical.value], oldName.value)))
    && Named(now, a.candidate, newName)
    && now[a.candidate] == Profile(newName, false, ssid)
  }

  predicate Relabelled(before: Profile, now: Profile, name: string) {
    now == before.(name := name) || now == before.(name := name, autoconnect := false)
  }

  /** The store while candidates come and go: only pending profiles differ. */
  ghost predicate Thinned(now: Store, a: Attempt) {
    && a.candidate !in a.before
    && IsCanonical(a.before, a.canonical)
    && (forall v :: v in now && v != a.candidate ==> v in a.before && now[v] == a.before[v])
    && (forall v :: v in a.before && a.before[v].name != PENDING_PROFILE ==> v in now)
    && (a.candidate in now ==> now[a.candidate].name == PENDING_PROFILE)
  }

  lemma {:induction false} ThinnedIsGuarded(now: Store, a: Attempt)
    requires Thinned(now, a)
    ensures Guarded(now, a) && !Forked(now, a)
    ensures a.candidate !in now ==> Restored(now, a)
    ensures Nobody(now, PENDING_PROFILE) ==> Restored(now, a)
  {
  }

  lemma {:induction false} ThinnedSteps(now: Store, a: Attempt, ssid: string)
    requires Thinned(now, a)
    ensures Thinned(Effect(now, Add(a.candidate, ssid)), a)
    ensures Thinned(Effect(now, DeleteByName(PENDING_PROFILE)), a)
  {
  }

  lemma {:induction false} ThinnedDeletion(now: Store, a: Attempt)
    requires Thinned(now, a)
    ensures var after := Effect(now, DeleteByName(PENDING_PROFILE));
      && Thinned(after, a) && Guarded(after, a) && !Forked(after, a)
      && Nobody(after, PENDING_PROFILE) && Restored(after, a)
  {
    var after := Effect(now, DeleteByName(PENDING_PROFILE));
    ThinnedSteps(now, a, "");
    ThinnedIsGuarded(after, a);
  }

  /** A deletion that finds nothing to delete. */
  lemma {:induction false} ThinnedWithoutPending(now: Store, a: Attempt)
    requires Thinned(now, a) && !Possible(now, DeleteByName(PENDING_PROFILE))
    ensures Nobody(now, PENDING_PROFILE) && Restored(now, a)
  {
    ThinnedIsGuarded(now, a);
  }

  lemma {:induction false} ThinnedIsShaped(now: Store, a: Attempt)
    requires Thinned(now, a) && Sole(now, PENDING_PROFILE, a.candidate) && !now[a.candidate].autoconnect
    ensures Shaped(now, a, if a.canonical.Some? then Some(SAVED_PROFILE) else None, PENDING_PROFILE,
                   now[a.candidate].ssid)
  {
  }

  /** The names a promotion or its rollback passes through. */
  predicate Legal(a: Attempt, oldName: Option<string>, newName: string) {
    && (oldName.Some? ==> oldName.value == SAVED_PROFILE || oldName.value == PREVIOUS_PROFILE)
    && (newName == PENDING_PROFILE || newName == SAVED_PROFILE)
    && (oldName.None? && a.canonical.Some? ==> newName == SAVED_PROFILE)
  }

  lemma {:induction false} ShapedIsGuarded(
      now: Store, a: Attempt, oldName: Option<string>, newName: string, ssid: string)
    requires Shaped(now, a, oldName, newName, ssid) && Legal(a, oldName, newName)
    ensures Guarded(now, a)
    ensures Forked(now, a) <==> oldName == Some(SAVED_PROFILE) && newName == SAVED_PROFILE
  {
  }

  lemma {:induction false} RenameOld(
      now: Store, a: Attempt, oldName: string, newName: string, ssid: string, name: string)
    requires Shaped(now, a, Some(oldName), newName, ssid)
    ensures Shaped(Effect(now, Rename(a.canonical.value, name)), a, Some(name), newName, ssid)
  {
  }

  lemma {:induction false} RenameNew(
      now: Store, a: Attempt, oldName: Option<string>, newName: string, ssid: string, name: string)
    requires Shaped(now, a, oldName, newName, ssid)
    ensures Shaped(Effect(now, Rename(a.candidate, name)), a, oldName, name, ssid)
  {
  }

  lemma {:induction false} RetireOld(now: Store, a: Attempt, oldName: string, newName: string, ssid: string)
    requires Shaped(now, a, Some(oldName), newName, ssid)
    ensures Shaped(Effect(now, DeleteUuid(a.canonical.value)), a, None, newName, ssid)
  {
  }

  lemma {:induction false} ShapedIsPromoted(now: Store, a: Attempt, ssid: string)
    requires Shaped(now, a, None, SAVED_PROFILE, ssid)
    ensures now == Promoted(a, ssid)
  {
  }

  lemma {:induction false} DropNew(
      now: Store, a: Attempt, oldName: Option<string>, newName: string, ssid: string)
    requires Shaped(now, a, oldName, newName, ssid) && Legal(a, oldName, newName)
    requires a.canonical.Some? ==> oldName.Some?
    ensures Guarded(Effect(now, DeleteUuid(a.candidate)), a)
    ensures !Forked(Effect(now, DeleteUuid(a.candidate)), a)
    ensures oldName != Some(PREVIOUS_PROFILE) ==> Restored(Effect(now, DeleteUuid(a.candidate)), a)
  {
  }

  /** No loss, command by command. */
  lemma {:induction false} GuardedHolds(now: Store, a: Attempt)
    requires Guarded(now, a) && Held(a.before)
    ensures Held(now)
  {
    var u :| u in a.before && (a.before[u].name == SAVED_PROFILE || a.before[u].name == PREVIOUS_PROFILE);
    if Some(u) == a.canonical {
      if u !in now {
        assert now[a.candidate].name == SAVED_PROFILE;
      }
    } else {
      assert u in now && now[u] == a.before[u];
    }
  }

  /** Beside an older backup the old profile has itself become a backup, and the candidate is not
      canonical yet: the other store that boot refuses. */
  ghost predicate Collided(now: Store, a: Attempt) {
    && a.canonical.Some? && Named(now, a.canonical.value, PREVIOUS_PROFILE)
    && !Named(now, a.candidate, SAVED_PROFILE)
    && !Nobody(a.before, PREVIOUS_PROFILE)
  }

  /** Where a kill leaves boot able to find the old or the new profile: not with two canonical
      ones, and not between backup and promotion when an older backup was already there. */
  lemma {:induction false} RecoverableIff(now: Store, a: Attempt)
    requires a.canonical.Some? && Sole(a.before, SAVED_PROFILE, a.canonical.value) && a.candidate !in a.before
    requires Guarded(now, a)
    ensures Recoverable(now) <==> !Forked(now, a) && !Collided(now, a)
    ensures forall u :: Bootable(now, u) ==> u == a.canonical.value || u == a.candidate
  {
    var previous := a.canonical.value;
    if Named(now, a.candidate, SAVED_PROFILE) {
      if !Forked(now, a) {
        assert Sole(now, SAVED_PROFILE, a.candidate);
        assert Bootable(now, a.candidate);
      }
    } else if Named(now, previous, SAVED_PROFILE) {
      assert Sole(now, SAVED_PROFILE, previous);
      assert Bootable(now, previous);
    } else {
      assert Named(now, previous, PREVIOUS_PROFILE) && Nobody(now, SAVED_PROFILE);
      if Nobody(a.before, PREVIOUS_PROFILE) {
        assert Sole(now, PREVIOUS_PROFILE, previous);
        assert Bootable(now, previous);
      } else {
        var v :| v in a.before && a.before[v].name == PREVIOUS_PROFILE;
        assert v in now && now[v] == a.before[v] && v != previous;
      }
    }
  }

  /** The store a kill leaves: that of the last journal entry that survives. */
  function Survivor(a: Attempt, journal: seq<Entry>): Store {
    if |journal| <= |a.log| then a.before else journal[|journal| - 1].store
  }

  lemma {:induction false} KilledIsSteady(journal: seq<Entry>, a: Attempt, end: nat)
    requires Safe(journal, a) && |a.log| <= end <= |journal|
    requires a.candidate !in a.before && (a.canonical.Some? ==> Sole(a.before, SAVED_PROFILE, a.canonical.value))
    ensures Steady(journal[..end], Survivor(a, journal[..end]), a)
  {
    var cut := journal[..end];
    forall k | |a.log| <= k < end
      ensures Forked(cut[k].store, a) <==> TrailOf(cut, k + 1, a).forked
      ensures cut[k].command.Rename? ==> TrailOf(cut, k, a).connected
    {
      TrailOfPrefix(cut, journal, k, a);
      TrailOfPrefix(cut, journal, k + 1, a);
    }
    if end == |a.log| {
      assert Guarded(a.before, a) && !Forked(a.before, a);
    } else {
      assert cut[end - 1] == journal[end - 1];
    }
  }

  /** The same for a cut at any length, also one that loses nothing. */
  lemma {:induction false} CutIsSteady(full: seq<Entry>, now: Store, a: Attempt, cut: seq<Entry>, left: Store)
    requires Steady(full, now, a) && a.log <= cut <= full
    requires a.candidate !in a.before && (a.canonical.Some? ==> Sole(a.before, SAVED_PROFILE, a.canonical.value))
    requires left == if |cut| < |full| then Survivor(a, cut) else now
    ensures Steady(cut, left, a)
  {
    if |cut| < |full| {
      KilledIsSteady(full, a, |cut|);
      assert full[..|cut|] == cut;
    } else {
      assert cut == full;
    }
  }

  /** What boot may do to the store: make the profile it picks canonical. */
  ghost predicate BootStep(before: Store, now: Store) {
    now == before || exists u :: Bootable(before, u) && now == Effect(before, Rename(u, SAVED_PROFILE))
  }

  ghost predicate Booting(earlier: seq<Entry>, journal: seq<Entry>, before: Store) {
    earlier <= journal && forall k :: |earlier| <= k < |journal| ==> BootStep(before, journal[k].store)
  }

  lemma {:induction false} BootStepHolds(before: Store, now: Store)
    requires Held(before) && BootStep(before, now)
    ensures Held(now)
  {
    if now != before {
      var u :| Bootable(before, u) && now == Effect(before, Rename(u, SAVED_PROFILE));
      assert now[u].name == SAVED_PROFILE;
    }
  }

  lemma {:induction false} BootMakesSole(before: Store, u: Uuid)
    requires Bootable(before, u)
    ensures Sole(Effect(before, Rename(u, SAVED_PROFILE)), SAVED_PROFILE, u)
  {
  }

  ghost predicate AllHeld(earlier: seq<Entry>, journal: seq<Entry>) {
    earlier <= journal && forall k :: |earlier| <= k < |journal| ==> Held(journal[k].store)
  }

  lemma {:induction false} SafeIsHeld(journal: seq<Entry>, now: Store, a: Attempt)
    requires Steady(journal, now, a) && Held(a.before)
    ensures AllHeld(a.log, journal) && Held(now)
  {
    forall k | |a.log| <= k < |journal|
      ensures Held(journal[k].store)
    {
      GuardedHolds(journal[k].store, a);
    }
    GuardedHolds(now, a);
  }

  lemma {:induction false} BootingIsHeld(earlier: seq<Entry>, journal: seq<Entry>, before: Store, now: Store)
    requires Booting(earlier, journal, before) && BootStep(before, now) && Held(before)
    ensures AllHeld(earlier, journal) && Held(now)
  {
    forall k | |earlier| <= k < |journal|
      ensures Held(journal[k].store)
    {
      BootStepHolds(before, journal[k].store);
    }
    BootStepHolds(before, now);
  }
}

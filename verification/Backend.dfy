/** The daemon's profile operations: ordered commands on NetworkManager's store, any of which
    may fail, with the store after every command kept in a journal. A kill after a command
    leaves the store that its journal entry holds. */
module Backend {
  import opened Options
  import opened Protocol
  import opened RadioState
  import opened Profiles
  import opened ProfileSafety
  import opened Scan

  datatype Result =
    | Connected(ssid: Option<string>)
    | Refused(error: string)
    | Exception(error: string)

  /** One call and the number of its commands after which the daemon is killed. */
  datatype Call =
    | Connect(ssid: string, password: Option<string>, output: seq<string>, uuid: Uuid, commands: nat)
    | Activate(commands: nat)

  /** How a call ended, and what one call did: the stores around it, the commands it issued, and
      whether none of them failed. */
  datatype Ended = Ignored | Killed | Answered(result: Result)

  datatype Report = Report(before: Store, now: Store, issued: int, ended: Ended, faultless: bool)

  datatype Lookup = Failed | Found(uuid: Option<Uuid>)

  /** A line of the listing; None is a UUID that does not parse. */
  datatype Row = Row(uuid: Option<Uuid>, name: string)

  predicate Lists(row: Row, uuid: Uuid, store: Store) {
    uuid in store && row.name == store[uuid].name && (row.uuid.Some? ==> row.uuid.value == uuid)
  }

  /** What a lookup by name may answer about a store. */
  ghost predicate Answers(store: Store, name: string, lookup: Lookup) {
    lookup.Found? ==>
      match lookup.uuid
      case Some(u) => Sole(store, name, u)
      case None => Nobody(store, name)
  }

  /** `_profile_uuid` on a complete listing refuses exactly the ambiguous names. */
  ghost predicate Ambiguous(store: Store, name: string) {
    exists u, v :: u != v && Named(store, u, name) && Named(store, v, name)
  }

  /** `_saved_ssid` of a profile that can be read. */
  function ReportedSsid(profile: Profile): Option<string> {
    var ssid := Strip(profile.ssid);
    if ValidSsid(ssid) then Some(ssid) else None
  }

  /** A profile for an SSID that neither begins nor ends with a blank reports that SSID. */
  lemma {:induction false} ReportedIsOwn(profile: Profile)
    requires ValidSsid(profile.ssid)
    requires !Whitespace(profile.ssid[0]) && !Whitespace(profile.ssid[|profile.ssid| - 1])
    ensures ReportedSsid(profile) == Some(profile.ssid)
  {
    UnspacedIsStripped(profile.ssid);
  }

  /** Boot's pick is up, alone under the saved name. */
  predicate Activated(before: Store, now: Store, uuid: Uuid) {
    Bootable(before, uuid) && Sole(now, SAVED_PROFILE, uuid) && now == Effect(before, Rename(uuid, SAVED_PROFILE))
  }

  function CredentialError(security: Security, password: Option<string>): Option<string> {
    if security == Enterprise || security == Unsupported then Some("security_not_supported")
    else if security == Open then if password.None? then None else Some("password_not_expected")
    else if password.None? then Some("password_required")
    else if ValidPassword(password.value) then None
    else Some("password_invalid")
  }

  /** The password suits the network: none for an open one, a valid one for personal security. */
  predicate Suits(security: Security, password: Option<string>) {
    || (security == Open && password == None)
    || (security == WpaPersonal && password.Some? && ValidPassword(password.value))
  }

  /** The scan lists the network and the password suits it. */
  predicate Connectable(ssid: string, password: Option<string>, listed: seq<AccessPoint>) {
    ValidSsid(ssid) && exists p :: p in listed && p.ssid == ssid && Suits(p.security, password)
  }

  /** Why the entry is refused with this password. */
  predicate ExplainedBy(reason: string, p: AccessPoint, password: Option<string>) {
    && !Suits(p.security, password)
    && reason ==
       if p.security == Enterprise || p.security == Unsupported then "security_not_supported"
       else if p.security == Open then "password_not_expected"
       else if password == None then "password_required"
       else "password_invalid"
  }

  /** Why a valid SSID is refused. */
  predicate Explains(reason: string, ssid: string, password: Option<string>, listed: seq<AccessPoint>) {
    if exists p :: p in listed && p.ssid == ssid
    then exists p :: p in listed && p.ssid == ssid && ExplainedBy(reason, p, password)
    else reason == "ssid_not_found"
  }

  /** The reason names the command that failed. */
  predicate EndsActivation(reason: string, last: Command) {
    reason ==
      if last == RadioOn then "wifi_radio_failed"
      else if last == StopDhcp then "ap_dhcp_stop_failed"
      else if last.UpUuid? then "saved_station_timeout"
      else "saved_station_profile_failed"
  }

  predicate EndsProvisioning(reason: Option<string>, last: Entry, store: Store) {
    && !last.ok && Possible(store, last.command)
    && (reason == Some("wifi_radio_failed") <==> last.command == RadioOn)
    && (reason == Some("ap_activation_failed") <==> last.command == UpProvisioning)
    && (reason == Some("ap_dhcp_failed") <==> last.command == StartDhcp)
    && (last.command == RadioOn || last.command == UpProvisioning || last.command == StartDhcp)
  }

  /** A connection that has answered: success is the candidate as the only saved profile, and it
      takes an unambiguous saved name and a listing that allows it; without a fault refusal takes
      the opposite. */
  ghost predicate AnswersConnect(ssid: string, password: Option<string>, output: seq<string>, candidate: Uuid,
                                 before: Store, now: Store, result: Result, faultless: bool)
  {
    if result.Connected? then
      && result.ssid == Some(ssid) && candidate !in before
      && Sole(now, SAVED_PROFILE, candidate) && now[candidate] == Profile(SAVED_PROFILE, false, ssid)
      && !Ambiguous(before, SAVED_PROFILE)
      && exists listed :: Listing(Parsed(output), listed) && Connectable(ssid, password, listed)
    else
      faultless ==>
        || Ambiguous(before, SAVED_PROFILE) || !ValidSsid(ssid)
        || exists listed :: Listing(Parsed(output), listed) && !Connectable(ssid, password, listed)
  }

  /** An activation that has answered: success is boot's pick alone under the saved name, and
      without a fault it fails exactly if there is none. */
  ghost predicate AnswersActivate(before: Store, now: Store, result: Result, faultless: bool) {
    && (result.Connected? ==> exists u :: Activated(before, now, u))
    && (faultless ==> (result.Connected? <==> Recoverable(before)))
  }

  /** A call is killed after exactly its number of commands, or it has answered, or its UUID was
      not new. */
  ghost predicate Reports(call: Call, r: Report) {
    match r.ended
    case Ignored => call.Connect? && call.uuid in r.before && r.now == r.before && r.issued == 0
    case Killed => r.issued == call.commands
    case Answered(result) =>
      match call
      case Connect(ssid, password, output, uuid, _) =>
        AnswersConnect(ssid, password, output, uuid, r.before, r.now, result, r.faultless)
      case Activate(_) => AnswersActivate(r.before, r.now, result, r.faultless)
  }

  /** Each call begins with the store that the one before it left. */
  predicate Linked(first: Store, reports: seq<Report>, last: Store) {
    if reports == [] then first == last
    else
      && reports[0].before == first && reports[|reports| - 1].now == last
      && forall i {:trigger reports[i]} :: 0 < i < |reports| ==> reports[i].before == reports[i - 1].now
  }

  /** The commands that find the saved profile and give it its name. */
  predicate Looks(command: Command) {
    command == ListProfiles || command.Rename? || command.ReadName? || command.ReadAutoconnect?
  }

  class NetworkManagerBackend {
    var profiles: Store
    var radio: Device
    var journal: seq<Entry>
    ghost var faults: nat

    constructor (store: Store)
      ensures profiles == store && journal == [] && faults == 0
      ensures radio == Device(NeverRaised, NeverCommanded, None)
    {
      profiles, journal, faults := store, [], 0;
      radio := Device(NeverRaised, NeverCommanded, None);
    }

    /** What the daemon may know of the device. */
    ghost function Air(): Radio
      reads this
    {
      Radio(radio.ap, radio.dhcp, radio.up.Some? && Sole(profiles, SAVED_PROFILE, radio.up.value))
    }

    /** One command: it takes effect, or it reports failure and has none. A failure although
        the target is there is a fault, and so is a listing that cannot be read. */
    method Execute(command: Command) returns (ok: bool)
      modifies this
      ensures profiles == if ok then Effect(old(profiles), command) else old(profiles)
      ensures radio == DeviceAfter(old(radio), command, ok, profiles)
      ensures journal == old(journal) + [Entry(command, ok, profiles)]
      ensures ok ==> Possible(old(profiles), command)
      ensures faults == old(faults) + if !ok && Possible(old(profiles), command) then 1 else 0
    {
      var possible := Possible(profiles, command);
      ok := *;
      ok := ok && possible;
      if ok {
        profiles := Effect(profiles, command);
      }
      radio := DeviceAfter(radio, command, ok, profiles);
      journal := journal + [Entry(command, ok, profiles)];
      faults := faults + if !ok && possible then 1 else 0;
    }

    /** nmcli lists each profile once, in an order of its own; a line's UUID may not parse. */
    method Rows() returns (rows: seq<Row>, ghost listed: seq<Uuid>)
      ensures |rows| == |listed|
      ensures forall u :: u in profiles <==> u in listed
      ensures forall i, j :: 0 <= i < j < |listed| ==> listed[i] != listed[j]
      ensures forall i :: 0 <= i < |rows| ==> Lists(rows[i], listed[i], profiles)
    {
      rows, listed := [], [];
      var rest := profiles.Keys;
      while rest != {}
        invariant rest <= profiles.Keys && |rows| == |listed|
        invariant forall u :: u in profiles && u !in rest <==> u in listed
        invariant forall i, j :: 0 <= i < j < |listed| ==> listed[i] != listed[j]
        invariant forall i :: 0 <= i < |rows| ==> Lists(rows[i], listed[i], profiles)
        decreases rest
      {
        var u :| u in rest;
        var parses: bool := *;
        rows := rows + [Row(if parses then Some(u) else None, profiles[u].name)];
        listed := listed + [u];
        rest := rest - {u};
      }
    }

    /** The UUIDs of the lines with that name; None if one of them does not parse. */
    method Matching(name: string) returns (matches: Option<seq<Uuid>>)
      modifies `faults
      ensures faults == old(faults) + if matches.None? then 1 else 0
      ensures matches.Some? ==>
        && (forall u :: u in matches.value <==> Named(profiles, u, name))
        && forall k, l :: 0 <= k < l < |matches.value| ==> matches.value[k] != matches.value[l]
    {
      var rows, listed := Rows();
      var found: seq<Uuid> := [];
      for i := 0 to |rows|
        invariant faults == old(faults)
        invariant forall k :: 0 <= k < |found| ==> found[k] !in listed[i..] && Named(profiles, found[k], name)
        invariant forall j :: 0 <= j < i && rows[j].name == name ==> listed[j] in found
        invariant forall k, l :: 0 <= k < l < |found| ==> found[k] != found[l]
      {
        assert Lists(rows[i], listed[i], profiles);
        if rows[i].name == name {
          if rows[i].uuid.None? {
            faults := faults + 1;
            return None;
          }
          found := found + [rows[i].uuid.value];
        }
        assert listed[i..] == [listed[i]] + listed[i + 1..];
      }
      matches := Some(found);
      forall u | Named(profiles, u, name)
        ensures u in found
      {
        var i :| 0 <= i < |listed| && listed[i] == u;
        assert Lists(rows[i], listed[i], profiles);
      }
    }

    method ProfileUuid(name: string) returns (lookup: Lookup)
      modifies this
      ensures profiles == old(profiles) && radio == old(radio)
      ensures |journal| == |old(journal)| + 1 && old(journal) <= journal
      ensures journal[|old(journal)|].store == profiles && journal[|old(journal)|].command == ListProfiles
      ensures old(faults) <= faults
      ensures Answers(profiles, name, lookup)
      ensures lookup.Failed? <==> faults > old(faults) || Ambiguous(profiles, name)
    {
      var ok := Execute(ListProfiles);
      if !ok {
        return Failed;
      }
      var matches := Matching(name);
      if matches.None? {
        return Failed;
      }
      assert forall k :: 0 <= k < |matches.value| ==> matches.value[k] in matches.value;
      forall u | u in profiles && profiles[u].name == name
        ensures u in matches.value
      {
        assert Named(profiles, u, name);
      }
      if |matches.value| > 1 {
        assert matches.value[0] != matches.value[1];
        return Failed;
      }
      lookup := Found(if |matches.value| == 1 then Some(matches.value[0]) else None);
    }

    ghost function Progress(a: Attempt): Trail
      reads this
    {
      TrailOf(journal, |journal|, a)
    }

    /** Execute, inside an attempt: both outcomes were shown to be guarded beforehand. */
    method Try(command: Command, ghost a: Attempt) returns (ok: bool)
      requires Steady(journal, profiles, a)
      requires Possible(profiles, command) ==>
        && Guarded(Effect(profiles, command), a)
        && (Forked(Effect(profiles, command), a) <==>
              Follow(Progress(a), Entry(command, true, Effect(profiles, command)), a).forked)
      requires command.Rename? ==> Progress(a).connected
      modifies this
      ensures profiles == if ok then Effect(old(profiles), command) else old(profiles)
      ensures radio == DeviceAfter(old(radio), command, ok, profiles)
      ensures journal == old(journal) + [Entry(command, ok, profiles)]
      ensures faults == old(faults) + if !ok && Possible(old(profiles), command) then 1 else 0
      ensures Steady(journal, profiles, a)
      ensures Progress(a) == Follow(old(Progress(a)), Entry(command, ok, profiles), a)
    {
      ok := Execute(command);
      SafeGrows(old(journal), Entry(command, ok, profiles), a);
      assert journal[|old(journal)|] == Entry(command, ok, profiles);
    }

    /** A command that cannot touch profiles. */
    method TryPassive(command: Command, ghost a: Attempt) returns (ok: bool)
      requires Steady(journal, profiles, a) && Passive(command)
      modifies this
      ensures profiles == old(profiles) && radio == DeviceAfter(old(radio), command, ok, profiles)
      ensures faults == old(faults) + if !ok && Possible(profiles, command) then 1 else 0
      ensures Steady(journal, profiles, a) && Progress(a) == old(Progress(a))
    {
      ok := Try(command, a);
    }

    method TryProfileUuid(name: string, ghost a: Attempt) returns (lookup: Lookup)
      requires Steady(journal, profiles, a)
      modifies this
      ensures profiles == old(profiles) && radio == old(radio) && Progress(a) == old(Progress(a))
      ensures old(faults) <= faults
      ensures Answers(profiles, name, lookup)
      ensures lookup.Failed? <==> faults > old(faults) || Ambiguous(profiles, name)
      ensures Steady(journal, profiles, a)
    {
      lookup := ProfileUuid(name);
      SafeGrows(old(journal), journal[|old(journal)|], a);
      assert journal == old(journal) + [journal[|old(journal)|]];
    }

    method ProfileHasIdentity(uuid: Uuid, name: string, ghost a: Attempt) returns (same: bool)
      requires Steady(journal, profiles, a) && uuid in profiles
      modifies this
      ensures profiles == old(profiles) && radio == old(radio) && Progress(a) == old(Progress(a))
      ensures old(faults) <= faults
      ensures same ==> profiles[uuid].name == name && !profiles[uuid].autoconnect
      ensures !same ==> faults > old(faults) || profiles[uuid].name != name || profiles[uuid].autoconnect
      ensures Steady(journal, profiles, a)
    {
      var nameRead := TryPassive(ReadName(uuid), a);
      if !nameRead || profiles[uuid].name != name {
        return false;
      }
      var autoconnectRead := TryPassive(ReadAutoconnect(uuid), a);
      same := autoconnectRead && !profiles[uuid].autoconnect;
    }

    method AddPending(point: AccessPoint, candidate: Uuid, ghost a: Attempt) returns (added: bool)
      requires Steady(journal, profiles, a) && Thinned(profiles, a)
      requires a.candidate == candidate && candidate !in profiles
      modifies this
      ensures Steady(journal, profiles, a) && Thinned(profiles, a)
      ensures radio == old(radio) && Progress(a) == old(Progress(a))
      ensures if added then faults == old(faults) else faults == old(faults) + 1
      ensures profiles == if added then Effect(old(profiles), Add(candidate, point.ssid)) else old(profiles)
    {
      ThinnedSteps(profiles, a, point.ssid);
      ThinnedIsGuarded(profiles, a);
      ThinnedIsGuarded(Effect(profiles, Add(candidate, point.ssid)), a);
      added := Try(Add(candidate, point.ssid), a);
    }

    method CreatePendingProfile(point: AccessPoint, candidate: Uuid, ghost a: Attempt) returns (created: bool)
      requires Steady(journal, profiles, a) && Thinned(profiles, a)
      requires a.candidate == candidate && candidate !in profiles
      modifies this
      ensures Steady(journal, profiles, a) && Thinned(profiles, a)
      ensures radio == old(radio) && Progress(a) == old(Progress(a))
      ensures if created then faults == old(faults) else faults == old(faults) + 1
      ensures created ==>
        && candidate in profiles && profiles[candidate] == Profile(PENDING_PROFILE, false, point.ssid)
        && (Nobody(old(profiles), PENDING_PROFILE) <==> Sole(profiles, PENDING_PROFILE, candidate))
    {
      created := AddPending(point, candidate, a);
      if created && point.keyManagement.Some? {
        assert Named(profiles, candidate, PENDING_PROFILE);
        created := TryPassive(SecurePending, a);
      }
    }

    method DeletePending(ghost a: Attempt)
      requires Steady(journal, profiles, a) && Thinned(profiles, a)
      modifies this
      ensures Steady(journal, profiles, a) && Thinned(profiles, a)
      ensures AtMostDropped(old(radio), radio) && Progress(a) == old(Progress(a))
      ensures old(faults) <= faults <= old(faults) + 1
      ensures faults == old(faults) ==> Nobody(profiles, PENDING_PROFILE) && Restored(profiles, a)
      ensures a.candidate in profiles ==> a.candidate in old(profiles)
    {
      ThinnedDeletion(profiles, a);
      ThinnedIsGuarded(profiles, a);
      var deleted := Try(DeleteByName(PENDING_PROFILE), a);
      if !deleted && faults == old(faults) {
        ThinnedWithoutPending(profiles, a);
      }
    }

    /** A state a rollback can start from. */
    ghost predicate Rollbackable(a: Attempt, oldName: Option<string>, newName: string, ssid: string)
      reads this
    {
      && Steady(journal, profiles, a)
      && Shaped(profiles, a, oldName, newName, ssid) && Legal(a, oldName, newName)
      && (a.canonical.Some? ==> oldName.Some?)
      && !Forked(profiles, a)
      && Progress(a) == Trail(true, newName == SAVED_PROFILE, false, false)
    }

    method BackUpPrevious(previous: Uuid, ghost a: Attempt, ghost ssid: string)
      returns (backed: bool, ghost oldName: Option<string>)
      requires a.canonical == Some(previous) && Rollbackable(a, Some(SAVED_PROFILE), PENDING_PROFILE, ssid)
      modifies this
      ensures radio == old(radio) && old(faults) <= faults
      ensures Rollbackable(a, oldName, PENDING_PROFILE, ssid)
      ensures if backed then oldName == Some(PREVIOUS_PROFILE) else faults > old(faults)
    {
      oldName := Some(SAVED_PROFILE);
      RenameOld(profiles, a, SAVED_PROFILE, PENDING_PROFILE, ssid, PREVIOUS_PROFILE);
      ShapedIsGuarded(Effect(profiles, Rename(previous, PREVIOUS_PROFILE)), a,
                      Some(PREVIOUS_PROFILE), PENDING_PROFILE, ssid);
      backed := Try(Rename(previous, PREVIOUS_PROFILE), a);
      if backed {
        oldName := Some(PREVIOUS_PROFILE);
        backed := ProfileHasIdentity(previous, PREVIOUS_PROFILE, a);
      }
    }

    method MakeCanonical(pending: Uuid, ghost a: Attempt, ghost ssid: string, ghost oldName: Option<string>)
      returns (canonical: bool, ghost newName: string)
      requires a.candidate == pending && oldName != Some(SAVED_PROFILE)
      requires Rollbackable(a, oldName, PENDING_PROFILE, ssid)
      modifies this
      ensures radio == old(radio) && old(faults) <= faults
      ensures Rollbackable(a, oldName, newName, ssid)
      ensures if canonical then newName == SAVED_PROFILE else faults > old(faults)
    {
      newName := PENDING_PROFILE;
      RenameNew(profiles, a, oldName, newName, ssid, SAVED_PROFILE);
      ShapedIsGuarded(Effect(profiles, Rename(pending, SAVED_PROFILE)), a, oldName, SAVED_PROFILE, ssid);
      canonical := Try(Rename(pending, SAVED_PROFILE), a);
      if canonical {
        newName := SAVED_PROFILE;
        canonical := ProfileHasIdentity(pending, SAVED_PROFILE, a);
      }
    }

    /** The old profile becomes the backup, the candidate canonical, and only then is the backup
        deleted. It fails only by a fault, and never with two canonical profiles. */
    method PromotePendingProfile(pending: Uuid, previous: Option<Uuid>, ghost a: Attempt, ghost ssid: string)
      returns (promoted: bool, ghost oldName: Option<string>, ghost newName: string)
      requires a.candidate == pending && a.canonical == previous
      requires Rollbackable(a, if previous.Some? then Some(SAVED_PROFILE) else None, PENDING_PROFILE, ssid)
      modifies this
      ensures Steady(journal, profiles, a) && AtMostDropped(old(radio), radio) && old(faults) <= faults
      ensures promoted ==> profiles == Promoted(a, ssid)
      ensures promoted && old(radio).up == Some(pending) ==> radio == old(radio)
      ensures !promoted ==> faults > old(faults) && Rollbackable(a, oldName, newName, ssid)
    {
      promoted, newName := false, PENDING_PROFILE;
      oldName := if previous.Some? then Some(SAVED_PROFILE) else None;
      if previous.Some? {
        var backed;
        backed, oldName := BackUpPrevious(previous.value, a, ssid);
        if !backed {
          return;
        }
      }
      var canonical;
      canonical, newName := MakeCanonical(pending, a, ssid, oldName);
      if !canonical {
        return;
      }
      if previous.None? {
        ShapedIsPromoted(profiles, a, ssid);
        promoted := true;
        return;
      }
      promoted := RetirePrevious(previous.value, a, ssid);
    }

    method RetirePrevious(previous: Uuid, ghost a: Attempt, ghost ssid: string) returns (retired: bool)
      requires a.canonical == Some(previous) && Rollbackable(a, Some(PREVIOUS_PROFILE), SAVED_PROFILE, ssid)
      modifies this
      ensures Steady(journal, profiles, a) && AtMostDropped(old(radio), radio) && old(faults) <= faults
      ensures old(radio).up == Some(a.candidate) ==> radio == old(radio)
      ensures retired ==> profiles == Promoted(a, ssid)
      ensures !retired ==> faults > old(faults) && Rollbackable(a, Some(PREVIOUS_PROFILE), SAVED_PROFILE, ssid)
    {
      RetireOld(profiles, a, PREVIOUS_PROFILE, SAVED_PROFILE, ssid);
      ShapedIsGuarded(Effect(profiles, DeleteUuid(previous)), a, None, SAVED_PROFILE, ssid);
      retired := Try(DeleteUuid(previous), a);
      if retired {
        ShapedIsPromoted(profiles, a, ssid);
      }
    }

    method DeleteCandidate(pending: Uuid, ghost a: Attempt, ghost ssid: string,
                           ghost oldName: Option<string>, ghost newName: string)
      requires Steady(journal, profiles, a) && a.candidate == pending
      requires Shaped(profiles, a, oldName, newName, ssid) && Legal(a, oldName, newName)
      requires a.canonical.Some? ==> oldName.Some?
      modifies this
      ensures Steady(journal, profiles, a) && AtMostDropped(old(radio), radio) && old(faults) <= faults
      ensures faults == old(faults) && oldName != Some(PREVIOUS_PROFILE) ==> Restored(profiles, a)
    {
      DropNew(profiles, a, oldName, newName, ssid);
      var deleted := Try(DeleteUuid(pending), a);
    }

    method Demote(pending: Uuid, ghost a: Attempt, ghost ssid: string, ghost oldName: Option<string>,
                  ghost newName: string)
      returns (ghost pendingName: string)
      requires a.candidate == pending && Rollbackable(a, oldName, newName, ssid)
      modifies this
      ensures radio == old(radio) && old(faults) <= faults
      ensures Steady(journal, profiles, a) && !Forked(profiles, a)
      ensures Shaped(profiles, a, oldName, pendingName, ssid) && Legal(a, oldName, pendingName)
      ensures Progress(a).connected && (Progress(a).stuck <==> pendingName == SAVED_PROFILE)
      ensures faults == old(faults) ==> pendingName == PENDING_PROFILE
    {
      RenameNew(profiles, a, oldName, newName, ssid, PENDING_PROFILE);
      ShapedIsGuarded(Effect(profiles, Rename(pending, PENDING_PROFILE)), a, oldName, PENDING_PROFILE, ssid);
      var demoted := Try(Rename(pending, PENDING_PROFILE), a);
      pendingName := if demoted then PENDING_PROFILE else newName;
    }

    method Reinstate(previous: Option<Uuid>, ghost a: Attempt, ghost ssid: string, ghost oldName: Option<string>,
                     ghost pendingName: string)
      returns (ghost previousName: Option<string>)
      requires a.canonical == previous && (previous.Some? ==> oldName.Some?)
      requires Steady(journal, profiles, a) && !Forked(profiles, a)
      requires Shaped(profiles, a, oldName, pendingName, ssid) && Legal(a, oldName, pendingName)
      requires Progress(a).connected && (Progress(a).stuck <==> pendingName == SAVED_PROFILE)
      modifies this
      ensures radio == old(radio) && old(faults) <= faults
      ensures Steady(journal, profiles, a)
      ensures Shaped(profiles, a, previousName, pendingName, ssid) && Legal(a, previousName, pendingName)
      ensures previous.Some? ==> previousName.Some?
      ensures previous.Some? && faults == old(faults) ==> previousName == Some(SAVED_PROFILE)
      ensures previous.None? ==> previousName == oldName
    {
      previousName := oldName;
      if previous.Some? {
        RenameOld(profiles, a, oldName.value, pendingName, ssid, SAVED_PROFILE);
        ShapedIsGuarded(Effect(profiles, Rename(previous.value, SAVED_PROFILE)), a,
                        Some(SAVED_PROFILE), pendingName, ssid);
        var restored := Try(Rename(previous.value, SAVED_PROFILE), a);
        if restored {
          previousName := Some(SAVED_PROFILE);
        }
      }
    }

    /** Without a further fault the rollback restores the store. */
    method RollbackPromotion(pending: Uuid, previous: Option<Uuid>, ghost a: Attempt, ghost ssid: string,
                             ghost oldName: Option<string>, ghost newName: string)
      requires a.candidate == pending && a.canonical == previous && Rollbackable(a, oldName, newName, ssid)
      modifies this
      ensures Steady(journal, profiles, a) && AtMostDropped(old(radio), radio) && old(faults) <= faults
      ensures faults == old(faults) ==> Restored(profiles, a)
    {
      ghost var pendingName := Demote(pending, a, ssid, oldName, newName);
      ghost var previousName := Reinstate(previous, a, ssid, oldName, pendingName);
      DeleteCandidate(pending, a, ssid, previousName, pendingName);
    }

    method ActivateOrDiscard(pending: Uuid, ghost a: Attempt, ghost ssid: string) returns (activated: bool)
      requires Steady(journal, profiles, a) && a.candidate == pending
      requires Progress(a) == UNTOUCHED
      requires Shaped(profiles, a, if a.canonical.Some? then Some(SAVED_PROFILE) else None, PENDING_PROFILE, ssid)
      modifies this
      ensures Steady(journal, profiles, a) && old(faults) <= faults
      ensures radio.ap == old(radio).ap && radio.dhcp == old(radio).dhcp
      ensures activated ==> profiles == old(profiles) && Progress(a) == CONNECTED && radio.up == Some(pending)
      ensures !activated ==> faults > old(faults)
      ensures !activated && faults <= old(faults) + 1 ==> Restored(profiles, a)
    {
      activated := Try(UpUuid(pending), a);
      if !activated {
        ghost var oldName := if a.canonical.Some? then Some(SAVED_PROFILE) else None;
        DeleteCandidate(pending, a, ssid, oldName, PENDING_PROFILE);
      }
    }

    method PromoteOrRollBack(pending: Uuid, previous: Option<Uuid>, ghost a: Attempt, ghost ssid: string)
      returns (promoted: bool)
      requires Steady(journal, profiles, a) && a.candidate == pending && a.canonical == previous
      requires Progress(a) == CONNECTED
      requires Shaped(profiles, a, if previous.Some? then Some(SAVED_PROFILE) else None, PENDING_PROFILE, ssid)
      modifies this
      ensures Steady(journal, profiles, a) && AtMostDropped(old(radio), radio) && old(faults) <= faults
      ensures promoted ==> profiles == Promoted(a, ssid)
      ensures promoted && old(radio).up == Some(pending) ==> radio == old(radio)
      ensures !promoted ==> faults > old(faults)
      ensures !promoted && faults <= old(faults) + 1 ==> Restored(profiles, a)
    {
      ghost var oldName, newName;
      promoted, oldName, newName := PromotePendingProfile(pending, previous, a, ssid);
      if !promoted {
        RollbackPromotion(pending, previous, a, ssid, oldName, newName);
      }
    }

    /** Clear old candidates, create the new one and find it again by name. */
    method StageCandidate(point: AccessPoint, candidate: Uuid, ghost a: Attempt) returns (pending: Option<Uuid>)
      requires Steady(journal, profiles, a) && Thinned(profiles, a)
      requires a.candidate == candidate && candidate !in profiles
      modifies this
      ensures Steady(journal, profiles, a) && AtMostDropped(old(radio), radio) && old(faults) <= faults
      ensures Progress(a) == old(Progress(a))
      ensures pending.Some? ==>
        && pending.value == candidate
        && Shaped(profiles, a, if a.canonical.Some? then Some(SAVED_PROFILE) else None, PENDING_PROFILE, point.ssid)
      ensures pending.None? ==> faults > old(faults)
      ensures pending.None? && faults <= old(faults) + 1 ==> Restored(profiles, a)
    {
      DeletePending(a);
      var created := CreatePendingProfile(point, candidate, a);
      if !created {
        DeletePending(a);
        return None;
      }
      assert Named(profiles, candidate, PENDING_PROFILE);
      var lookup := TryProfileUuid(PENDING_PROFILE, a);
      if lookup.Failed? || lookup.uuid.None? {
        DeletePending(a);
        return None;
      }
      pending := lookup.uuid;
      ThinnedIsShaped(profiles, a);
    }

    method ScanNetworks(output: seq<string>) returns (listed: Option<seq<AccessPoint>>)
      modifies this
      ensures profiles == old(profiles) && radio == old(radio) && old(faults) <= faults
      ensures Quiet(old(journal), journal, profiles)
      ensures if listed.Some? then Listing(Parsed(output), listed.value) else faults > old(faults)
    {
      var enabled := Execute(RadioOn);
      if !enabled {
        return None;
      }
      var scanned := Execute(ListNetworks);
      if !scanned {
        return None;
      }
      var points := StrongestPerSsid(output);
      listed := Some(points);
    }

    /** The checks before anything is changed. */
    method ChooseNetwork(ssid: string, password: Option<string>, output: seq<string>)
      returns (point: Option<AccessPoint>, refusal: Result, ghost seen: Option<seq<AccessPoint>>)
      modifies this
      ensures profiles == old(profiles) && radio == old(radio) && old(faults) <= faults
      ensures Quiet(old(journal), journal, profiles)
      ensures point.None? ==> !refusal.Connected?
      ensures point.Some? ==>
        && ValidSsid(ssid) && point.value.ssid == ssid && IsChampion(Parsed(output), point.value)
        && Suits(point.value.security, password)
        && seen.Some? && Connectable(ssid, password, seen.value)
      ensures refusal.Refused? && point.None? ==>
        && seen.Some? && !Connectable(ssid, password, seen.value)
        && Explains(refusal.error, ssid, password, seen.value)
      ensures seen.Some? ==> Listing(Parsed(output), seen.value)
      ensures point.None? && faults == old(faults) ==>
        !ValidSsid(ssid) || (seen.Some? && !Connectable(ssid, password, seen.value))
    {
      point, refusal, seen := None, Exception("ssid_invalid"), None;
      if !ValidSsid(ssid) {
        return;
      }
      var listed := ScanNetworks(output);
      if listed.None? {
        refusal := Exception("wifi_scan_failed");
        return;
      }
      seen := listed;
      var index := 0;
      while index < |listed.value| && listed.value[index].ssid != ssid
        invariant index <= |listed.value|
        invariant forall i :: 0 <= i < index ==> listed.value[i].ssid != ssid
      {
        index := index + 1;
      }
      if index == |listed.value| {
        refusal := Refused("ssid_not_found");
        return;
      }
      var credentialError := CredentialError(listed.value[index].security, password);
      if credentialError.Some? {
        assert forall p :: p in listed.value && p.ssid == ssid ==> p == listed.value[index];
        assert ExplainedBy(credentialError.value, listed.value[index], password);
        refusal := Refused(credentialError.value);
        return;
      }
      point := Some(listed.value[index]);
    }

    /** Every command leaves a store that keeps the old profile or has the new one; success means
        exactly the new store; after at most one fault a failure means the old one; without a
        fault only the request or two canonical profiles can make it fail. */
    method ConnectStation(ssid: string, password: Option<string>, output: seq<string>, candidate: Uuid)
      returns (result: Result, ghost seen: Option<seq<AccessPoint>>)
      requires candidate !in profiles
      modifies this
      ensures old(faults) <= faults
      ensures var a := Attempt(old(profiles), CanonicalOf(old(profiles)), candidate, old(journal));
        && Steady(journal, profiles, a)
        && (result.Connected? ==>
              IsCanonical(old(profiles), a.canonical) && profiles == Promoted(a, ssid) && result.ssid == Some(ssid))
        && (!result.Connected? && faults <= old(faults) + 1 ==> Restored(profiles, a))
      ensures result.Connected? ==> radio.up == Some(candidate)
      ensures StationReply(result.Connected?, Air())
      ensures result.Connected? ==> exists p :: IsChampion(Parsed(output), p) && p.ssid == ssid
      ensures result.Connected? || (result.Refused? && faults == old(faults)) ==>
        && seen.Some? && Listing(Parsed(output), seen.value)
        && (result.Connected? <==>
              !Ambiguous(old(profiles), SAVED_PROFILE) && Connectable(ssid, password, seen.value))
        && (result.Refused? ==>
              if Connectable(ssid, password, seen.value) then result.error == "station_profile_persistence_failed"
              else Explains(result.error, ssid, password, seen.value))
      ensures !result.Connected? && faults == old(faults) ==>
        || Ambiguous(old(profiles), SAVED_PROFILE)
        || !ValidSsid(ssid)
        || (seen.Some? && Listing(Parsed(output), seen.value) && !Connectable(ssid, password, seen.value))
    {
      ghost var a := Attempt(profiles, CanonicalOf(profiles), candidate, journal);
      var point, refusal;
      point, refusal, seen := ChooseNetwork(ssid, password, output);
      QuietIsSteady(old(journal), journal, a);
      if point.None? {
        return refusal, seen;
      }
      result := ConnectChosen(point.value, candidate, a);
    }

    /** From the choice of the network on: without a fault only two canonical profiles can make it
        fail. */
    method ConnectChosen(point: AccessPoint, candidate: Uuid, ghost a: Attempt) returns (result: Result)
      requires Steady(journal, profiles, a) && Progress(a) == UNTOUCHED
      requires a == Attempt(profiles, CanonicalOf(profiles), candidate, a.log) && candidate !in profiles
      modifies this
      ensures Steady(journal, profiles, a) && old(faults) <= faults
      ensures result.Connected? ==>
        && IsCanonical(a.before, a.canonical) && profiles == Promoted(a, point.ssid) && result.ssid == Some(point.ssid)
        && radio.up == Some(candidate) && StationReply(true, Air()) && !Ambiguous(a.before, SAVED_PROFILE)
      ensures !result.Connected? ==> result.Refused?
      ensures !result.Connected? && faults <= old(faults) + 1 ==> Restored(profiles, a)
      ensures !result.Connected? && faults == old(faults) ==>
        Ambiguous(a.before, SAVED_PROFILE) && result.error == "station_profile_persistence_failed"
    {
      var saved;
      result, saved := PrepareConnection(a);
      if saved.Found? {
        assert a.canonical == saved.uuid;
        result := ConnectThrough(point, candidate, saved.uuid, a);
      }
    }

    /** The access point's DHCP service is stopped and the saved profile looked up. */
    method PrepareConnection(ghost a: Attempt) returns (refusal: Result, saved: Lookup)
      requires Steady(journal, profiles, a)
      modifies this
      ensures Steady(journal, profiles, a) && Progress(a) == old(Progress(a))
      ensures profiles == old(profiles) && old(faults) <= faults
      ensures Answers(profiles, SAVED_PROFILE, saved)
      ensures saved.Found? ==> radio.dhcp == Stopped && !Ambiguous(profiles, SAVED_PROFILE)
      ensures saved.Failed? ==> refusal.Refused?
      ensures saved.Failed? && faults == old(faults) ==>
        Ambiguous(profiles, SAVED_PROFILE) && refusal.error == "station_profile_persistence_failed"
    {
      refusal := Refused("ap_dhcp_stop_failed");
      var stopped := TryPassive(StopDhcp, a);
      if !stopped {
        return refusal, Failed;
      }
      saved := TryProfileUuid(SAVED_PROFILE, a);
      refusal := Refused("station_profile_persistence_failed");
    }

    /** From the lookup of the saved profile on. */
    method ConnectThrough(point: AccessPoint, candidate: Uuid, previous: Option<Uuid>, ghost a: Attempt)
      returns (result: Result)
      requires Steady(journal, profiles, a) && Thinned(profiles, a) && Progress(a) == UNTOUCHED
      requires a.candidate == candidate && a.canonical == previous && candidate !in profiles
      modifies this
      ensures Steady(journal, profiles, a) && old(faults) <= faults
      ensures radio.ap == old(radio).ap && radio.dhcp == old(radio).dhcp
      ensures result.Connected? ==> radio.up == Some(candidate)
      ensures result.Connected? ==> profiles == Promoted(a, point.ssid) && result.ssid == Some(point.ssid)
      ensures !result.Connected? ==> faults > old(faults)
      ensures !result.Connected? && faults <= old(faults) + 1 ==> Restored(profiles, a)
      ensures !result.Connected? ==> result.Refused?
    {
      var pending := StageCandidate(point, candidate, a);
      if pending.None? {
        return Refused("station_profile_failed");
      }
      var activated := ActivateOrDiscard(pending.value, a, point.ssid);
      if !activated {
        return Refused("station_timeout");
      }
      var promoted := PromoteOrRollBack(pending.value, previous, a, point.ssid);
      result := if promoted then Connected(Some(point.ssid)) else Refused("station_profile_persistence_failed");
    }

    method HasSavedStation() returns (saved: bool)
      modifies this
      ensures profiles == old(profiles) && radio == old(radio) && old(faults) <= faults
      ensures Quiet(old(journal), journal, profiles)
      ensures saved ==> Recoverable(profiles)
      ensures faults == old(faults) ==> (saved <==> Recoverable(profiles))
    {
      var canonical := ProfileUuid(SAVED_PROFILE);
      if canonical.Failed? {
        return false;
      }
      if canonical.uuid.Some? {
        assert Bootable(profiles, canonical.uuid.value);
        return true;
      }
      var backup := ProfileUuid(PREVIOUS_PROFILE);
      saved := backup.Found? && backup.uuid.Some?;
      if saved {
        assert Bootable(profiles, backup.uuid.value);
      }
    }

    method PickSaved() returns (picked: Option<Uuid>)
      modifies this
      ensures profiles == old(profiles) && radio == old(radio) && old(faults) <= faults
      ensures Quiet(old(journal), journal, profiles)
      ensures picked.Some? ==> Bootable(profiles, picked.value)
      ensures faults == old(faults) ==> (picked.Some? <==> Recoverable(profiles))
      ensures journal != [] && Looks(journal[|journal| - 1].command)
    {
      var lookup := ProfileUuid(SAVED_PROFILE);
      if lookup.Failed? {
        return None;
      }
      if lookup.uuid.None? {
        lookup := ProfileUuid(PREVIOUS_PROFILE);
        if lookup.Failed? || lookup.uuid.None? {
          return None;
        }
      }
      picked := lookup.uuid;
      assert Bootable(profiles, picked.value);
    }

    method MakeSaved(uuid: Uuid) returns (made: bool)
      requires Bootable(profiles, uuid)
      modifies this
      ensures radio == old(radio) && old(faults) <= faults
      ensures Booting(old(journal), journal, old(profiles)) && BootStep(old(profiles), profiles)
      ensures if made then profiles == Effect(old(profiles), Rename(uuid, SAVED_PROFILE)) else faults > old(faults)
      ensures journal != [] && Looks(journal[|journal| - 1].command)
    {
      BootMakesSole(profiles, uuid);
      made := Execute(Rename(uuid, SAVED_PROFILE));
      if !made {
        return;
      }
      var nameRead := Execute(ReadName(uuid));
      if !nameRead || profiles[uuid].name != SAVED_PROFILE {
        return false;
      }
      var autoconnectRead := Execute(ReadAutoconnect(uuid));
      made := autoconnectRead && !profiles[uuid].autoconnect;
    }

    /** Picks the canonical profile or, without one, the backup, and makes it canonical. */
    method SavedProfileForActivation() returns (chosen: Option<Uuid>)
      modifies this
      ensures radio == old(radio) && old(faults) <= faults
      ensures Booting(old(journal), journal, old(profiles)) && BootStep(old(profiles), profiles)
      ensures chosen.Some? ==>
        && Bootable(old(profiles), chosen.value) && Sole(profiles, SAVED_PROFILE, chosen.value)
        && profiles == Effect(old(profiles), Rename(chosen.value, SAVED_PROFILE))
      ensures faults == old(faults) ==> (chosen.Some? <==> Recoverable(old(profiles)))
      ensures journal != [] && Looks(journal[|journal| - 1].command)
    {
      chosen := PickSaved();
      if chosen.Some? {
        BootMakesSole(profiles, chosen.value);
        var made := MakeSaved(chosen.value);
        if !made {
          chosen := None;
        }
      }
    }

    method ActivateSavedStation() returns (result: Result)
      modifies this
      ensures old(faults) <= faults
      ensures Booting(old(journal), journal, old(profiles)) && BootStep(old(profiles), profiles)
      ensures StationReply(result.Connected?, Air())
      ensures result.Connected? ==> exists u ::
        && Activated(old(profiles), profiles, u) && radio.up == Some(u)
        && result.ssid == if faults == old(faults) || result.ssid.Some? then ReportedSsid(profiles[u]) else None
      ensures faults == old(faults) ==> (result.Connected? <==> Recoverable(old(profiles)))
      ensures result.Refused? ==> journal != [] && EndsActivation(result.error, journal[|journal| - 1].command)
    {
      var chosen := SavedProfileForActivation();
      if chosen.None? {
        return Refused("saved_station_profile_failed");
      }
      result := BringUp(chosen.value);
      if result.Connected? {
        assert Activated(old(profiles), profiles, chosen.value);
      }
    }

    /** Wi-Fi on, the access point's DHCP service stopped, and the profile up. */
    method BringUp(uuid: Uuid) returns (result: Result)
      requires uuid in profiles
      modifies this
      ensures profiles == old(profiles) && old(faults) <= faults
      ensures old(journal) <= journal
      ensures forall k :: |old(journal)| <= k < |journal| ==> journal[k].store == profiles
      ensures result.Connected? ==>
        && radio.up == Some(uuid) && radio.dhcp == Stopped
        && result.ssid == if faults == old(faults) || result.ssid.Some? then ReportedSsid(profiles[uuid]) else None
      ensures !result.Connected? ==> result.Refused? && faults > old(faults)
      ensures result.Refused? ==> journal != [] && EndsActivation(result.error, journal[|journal| - 1].command)
    {
      var enabled := Execute(RadioOn);
      if !enabled {
        return Refused("wifi_radio_failed");
      }
      var stopped := Execute(StopDhcp);
      if !stopped {
        return Refused("ap_dhcp_stop_failed");
      }
      var activated := Execute(UpUuid(uuid));
      if !activated {
        return Refused("saved_station_timeout");
      }
      var read := Execute(ReadSsid(uuid));
      result := Connected(if read then ReportedSsid(profiles[uuid]) else None);
    }

    method ActivateProvisioning() returns (success: bool, error: Option<string>)
      modifies this
      ensures profiles == old(profiles) && old(faults) <= faults
      ensures Quiet(old(journal), journal, profiles)
      ensures ProvisioningReply(success, Air())
      ensures if success then error == None else faults > old(faults) && error.Some?
      ensures !success ==> journal != [] && EndsProvisioning(error, journal[|journal| - 1], profiles)
    {
      var enabled := Execute(RadioOn);
      if !enabled {
        return false, Some("wifi_radio_failed");
      }
      var raised := Execute(UpProvisioning);
      if !raised {
        return false, Some("ap_activation_failed");
      }
      success := Execute(StartDhcp);
      error := if success then None else Some("ap_dhcp_failed");
    }

    // ---------------------------------------------------------------------------------------
    // Kills

    /** The daemon is killed after `commands` commands of the call that began at journal length
        `start` with the store `before` and the radio `tuned`; what it would have done later never
        happened. */
    method Kill(start: nat, before: Store, tuned: Device, commands: nat)
      requires start <= |journal|
      modifies `journal, `profiles, `radio
      ensures if start + commands < |old(journal)|
              then journal == old(journal)[..start + commands]
                   && profiles == (if commands == 0 then before else journal[start + commands - 1].store)
                   && radio == DeviceAfterAll(tuned, journal[start..])
              else journal == old(journal) && profiles == old(profiles) && radio == old(radio)
    {
      if start + commands < |journal| {
        journal := journal[..start + commands];
        profiles := if commands == 0 then before else journal[start + commands - 1].store;
        radio := DeviceAfterAll(tuned, journal[start..]);
      }
    }

    /** An activation that a kill or an exception may end after some of its commands. */
    method ActivateInterrupted(commands: nat) returns (ended: Ended)
      modifies this
      ensures Held(old(profiles)) ==> AllHeld(old(journal), journal) && Held(profiles)
      ensures old(faults) <= faults
      ensures ended == Killed ==> |journal| == |old(journal)| + commands
      ensures ended.Answered? ==> AnswersActivate(old(profiles), profiles, ended.result, faults == old(faults))
      ensures !ended.Ignored?
    {
      var before, start, tuned := profiles, |journal|, radio;
      var result := ActivateSavedStation();
      if Held(before) {
        BootingIsHeld(old(journal), journal, before, profiles);
      }
      ended := if start + commands < |journal| then Killed else Answered(result);
      Kill(start, before, tuned, commands);
    }

    /** The same for a connection. */
    method ConnectInterrupted(ssid: string, password: Option<string>, output: seq<string>, candidate: Uuid,
                              commands: nat)
      returns (ended: Ended)
      requires candidate !in profiles
      modifies this
      ensures Held(old(profiles)) ==> AllHeld(old(journal), journal) && Held(profiles)
      ensures old(faults) <= faults
      ensures ended == Killed ==> |journal| == |old(journal)| + commands
      ensures ended.Answered? ==>
        AnswersConnect(ssid, password, output, candidate, old(profiles), profiles, ended.result, faults == old(faults))
      ensures !ended.Ignored?
    {
      var before, start, tuned := profiles, |journal|, radio;
      ghost var a := Attempt(profiles, CanonicalOf(profiles), candidate, journal);
      var result := ConnectAndReport(ssid, password, output, candidate, a);
      if Held(before) {
        SafeIsHeld(journal, profiles, a);
      }
      ended := if start + commands < |journal| then Killed else Answered(result);
      Kill(start, before, tuned, commands);
    }

    method ConnectAndReport(ssid: string, password: Option<string>, output: seq<string>, candidate: Uuid,
                            ghost a: Attempt)
      returns (result: Result)
      requires candidate !in profiles && a == Attempt(profiles, CanonicalOf(profiles), candidate, journal)
      modifies this
      ensures Steady(journal, profiles, a) && old(faults) <= faults
      ensures
        AnswersConnect(ssid, password, output, candidate, old(profiles), profiles, result, faults == old(faults))
    {
      ghost var seen;
      result, seen := ConnectStation(ssid, password, output, candidate);
      if result.Connected? {
        PromotedIsSole(a, ssid);
      }
    }

    /** No loss: from a store that holds a saved or backed-up profile, such a profile exists after
        every command of every later sequence of calls, whatever fails and wherever each call is
        killed. Every call is made, and one that is not killed does what it promises. */
    method Operate(calls: seq<Call>) returns (ghost reports: seq<Report>)
      modifies this
      ensures Held(old(profiles)) ==> AllHeld(old(journal), journal) && Held(profiles)
      ensures |reports| == |calls| && (forall i :: 0 <= i < |calls| ==> Reports(calls[i], reports[i]))
      ensures Linked(old(profiles), reports, profiles)
    {
      reports := [];
      ghost var held := Held(profiles);
      for i := 0 to |calls|
        invariant held ==> AllHeld(old(journal), journal) && Held(profiles)
        invariant |reports| == i && forall j :: 0 <= j < i ==> Reports(calls[j], reports[j])
        invariant Linked(old(profiles), reports, profiles)
      {
        ghost var before, start, failed := profiles, |journal|, faults;
        var ended := Make(calls[i]);
        reports := reports + [Report(before, profiles, |journal| - start, ended, faults == failed)];
      }
    }

    method Make(call: Call) returns (ended: Ended)
      modifies this
      ensures Held(old(profiles)) ==> AllHeld(old(journal), journal) && Held(profiles)
      ensures Reports(call,
        Report(old(profiles), profiles, |journal| - |old(journal)|, ended, faults == old(faults)))
    {
      match call {
        case Connect(ssid, password, output, uuid, commands) =>
          if uuid in profiles {
            return Ignored;
          }
          ended := ConnectInterrupted(ssid, password, output, uuid, commands);
        case Activate(commands) => ended := ActivateInterrupted(commands);
      }
    }

    method ConnectSteadily(ssid: string, password: Option<string>, output: seq<string>, candidate: Uuid,
                           ghost a: Attempt)
      requires candidate !in profiles && a == Attempt(profiles, CanonicalOf(profiles), candidate, journal)
      modifies this
      ensures Steady(journal, profiles, a)
    {
      var result, _ := ConnectStation(ssid, password, output, candidate);
    }

    /** Wherever a connection is killed, the store it leaves is guarded. */
    method ConnectThenKill(ssid: string, password: Option<string>, output: seq<string>, candidate: Uuid, commands: nat,
                           ghost a: Attempt)
      requires candidate !in profiles && a == Attempt(profiles, CanonicalOf(profiles), candidate, journal)
      modifies this
      ensures Steady(journal, profiles, a)
      ensures |journal| <= |old(journal)| + commands
    {
      var before, start, tuned := profiles, |journal|, radio;
      assert a.canonical.Some? ==> Sole(a.before, SAVED_PROFILE, a.canonical.value);
      ConnectSteadily(ssid, password, output, candidate, a);
      ghost var full, now := journal, profiles;
      Kill(start, before, tuned, commands);
      CutIsSteady(full, now, a, journal, profiles);
    }

    /** Boot on the store that an attempt has left, finished or killed anywhere. It finds a profile
        exactly if the attempt left neither two canonical profiles nor, beside an older backup, the
        old profile as a second one; the former is left exactly by a failed demotion of the
        promoted candidate, the old profile's return and no later deletion. What it finds is the
        old profile or the new one, alone under the canonical name. */
    method BootAfter(ghost a: Attempt) returns (found: bool, chosen: Option<Uuid>)
      requires Steady(journal, profiles, a)
      requires a.canonical.Some? && Sole(a.before, SAVED_PROFILE, a.canonical.value) && a.candidate !in a.before
      modifies this
      ensures Forked(old(profiles), a) <==> ForkPath(old(journal), |old(journal)|, a)
      ensures old(faults) <= faults
      ensures found ==> !Forked(old(profiles), a) && !Collided(old(profiles), a)
      ensures faults == old(faults) ==>
        && (found <==> !Forked(old(profiles), a) && !Collided(old(profiles), a))
        && (chosen.Some? <==> !Forked(old(profiles), a) && !Collided(old(profiles), a))
      ensures chosen.Some? ==>
        && (chosen == a.canonical || chosen == Some(a.candidate))
        && Bootable(old(profiles), chosen.value) && Sole(profiles, SAVED_PROFILE, chosen.value)
    {
      TrailMeans(journal, |journal|, a);
      RecoverableIff(profiles, a);
      found := HasSavedStation();
      chosen := SavedProfileForActivation();
    }
  }
}

/** NetworkManager's profile store, the commands the daemon issues, and what each does. */
module Profiles {
  import opened Options
  import opened RadioState

  type Uuid = nat

  datatype Profile = Profile(name: string, autoconnect: bool, ssid: string)

  type Store = map<Uuid, Profile>

  const SAVED_PROFILE := "RAVE-Management"
  const PENDING_PROFILE := "RAVE-Management-Pending"
  const PREVIOUS_PROFILE := "RAVE-Management-Previous"

  datatype Command =
    | RadioOn
    | ListNetworks
    | StopDhcp
    | StartDhcp
    | ListProfiles
    | Add(uuid: Uuid, ssid: string)
    | SecurePending
    | Rename(uuid: Uuid, name: string)
    | ReadName(uuid: Uuid)
    | ReadAutoconnect(uuid: Uuid)
    | ReadSsid(uuid: Uuid)
    | UpUuid(uuid: Uuid)
    | UpProvisioning
    | DeleteByName(name: string)
    | DeleteUuid(uuid: Uuid)

  /** The command with its reported outcome and the store it left. */
  datatype Entry = Entry(command: Command, ok: bool, store: Store)

  /** The effect of a command that succeeds; one that fails has none. Deleting by name removes
      every match. */
  function Effect(store: Store, command: Command): Store {
    match command
    case Add(uuid, ssid) => store[uuid := Profile(PENDING_PROFILE, false, ssid)]
    case Rename(uuid, name) =>
      if uuid in store then store[uuid := store[uuid].(name := name, autoconnect := false)] else store
    case DeleteByName(name) => map u | u in store && store[u].name != name :: store[u]
    case DeleteUuid(uuid) => store - {uuid}
    case _ => store
  }

  /** The command's target exists, so nmcli can succeed. */
  predicate Possible(store: Store, command: Command) {
    match command
    case Rename(uuid, _) => uuid in store
    case ReadName(uuid) => uuid in store
    case ReadAutoconnect(uuid) => uuid in store
    case ReadSsid(uuid) => uuid in store
    case UpUuid(uuid) => uuid in store
    case DeleteUuid(uuid) => uuid in store
    case DeleteByName(name) => exists u :: u in store && store[u].name == name
    case SecurePending => exists u :: u in store && store[u].name == PENDING_PROFILE
    case _ => true
  }

  /** What the interface was last told, and the profile that is up. */
  datatype Device = Device(ap: AccessPointUp, dhcp: DhcpService, up: Option<Uuid>)

  /** Deleting a profile takes it down. */
  function Dropping(d: Device, store: Store): Device {
    if d.up.Some? && d.up.value !in store then d.(up := None) else d
  }

  /** The device after a command that left `store`. Whatever a failed activation leaves, no profile
      is known to be up then. */
  function DeviceAfter(d: Device, command: Command, ok: bool, store: Store): Device {
    match command
    case StopDhcp => d.(dhcp := if ok then Stopped else StopFailed)
    case StartDhcp => d.(dhcp := if ok then Started else StartFailed)
    case UpProvisioning => d.(ap := if ok then Raised else RaiseFailed, up := None)
    case UpUuid(uuid) => d.(up := if ok then Some(uuid) else None)
    case DeleteByName(_) => Dropping(d, store)
    case DeleteUuid(_) => Dropping(d, store)
    case _ => d
  }

  function DeviceAfterAll(d: Device, entries: seq<Entry>): Device {
    if entries == [] then d
    else
      var last := entries[|entries| - 1];
      DeviceAfter(DeviceAfterAll(d, entries[..|entries| - 1]), last.command, last.ok, last.store)
  }

  /** At most the profile that was up has gone down. */
  predicate AtMostDropped(before: Device, now: Device) {
    now == before || now == before.(up := None)
  }

  predicate Named(store: Store, uuid: Uuid, name: string) {
    uuid in store && store[uuid].name == name
  }

  /** The one profile of that name. */
  predicate Sole(store: Store, name: string, uuid: Uuid) {
    Named(store, uuid, name) && forall v :: v in store && store[v].name == name ==> v == uuid
  }

  predicate Nobody(store: Store, name: string) {
    forall v :: v in store ==> store[v].name != name
  }

  /** Some credentials survive under a name that boot looks for. */
  predicate Held(store: Store) {
    exists u :: u in store && (store[u].name == SAVED_PROFILE || store[u].name == PREVIOUS_PROFILE)
  }

  /** The profile boot would pick. */
  predicate Bootable(store: Store, uuid: Uuid) {
    Sole(store, SAVED_PROFILE, uuid) || (Nobody(store, SAVED_PROFILE) && Sole(store, PREVIOUS_PROFILE, uuid))
  }

  ghost predicate Recoverable(store: Store) {
    exists u: Uuid :: Bootable(store, u)
  }
}

/** What the last commands to the management interface reported. */
module RadioState {
  datatype AccessPointUp = NeverRaised | Raised | RaiseFailed

  datatype DhcpService = NeverCommanded | Started | StartFailed | Stopped | StopFailed

  /** `joined` says that the profile last brought up, and not taken down since, is the only one
      under the saved name. */
  datatype Radio = Radio(ap: AccessPointUp, dhcp: DhcpService, joined: bool)

  /** All that `activate_provisioning` promises: its success means both commands succeeded. */
  predicate ProvisioningReply(success: bool, after: Radio) {
    success ==> after == Radio(Raised, Started, false)
  }

  /** All that `connect_station` and `activate_saved_station` promise: their success means that the
      saved profile is up and the access point's DHCP service is stopped. */
  predicate StationReply(success: bool, after: Radio) {
    success ==> after.joined && after.dhcp == Stopped
  }
}

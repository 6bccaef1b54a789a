/** The admission policy of the handshake handler. */
module Handshake {

  datatype AuthMode = Disabled | PreferVerified | RequireVerified

  datatype Policy = Policy(mode: AuthMode, directoryId: string)

  predicate AdvertisesNickAuth(p: Policy) {
    !p.mode.Disabled? && p.directoryId != ""
  }

  predicate NegotiatesNickAuth(p: Policy, peerOffersAuth: bool) {
    AdvertisesNickAuth(p) && peerOffersAuth
  }

  predicate Accepted(p: Policy, peerOffersAuth: bool) {
    !(p.mode.RequireVerified? && !NegotiatesNickAuth(p, peerOffersAuth))
  }
}

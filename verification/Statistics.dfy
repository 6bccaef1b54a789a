/** The offer statistics in the reachable states of the server. */
module Statistics {
  import opened Types
  import opened PeerRegistry
  import opened MessageRouter
  import opened Directory
  import opened Protocol
  import opened Runs
  import opened Objects

  /** Generations that are all current are at most as many as the owners. */
  lemma {:induction false} LiveCard<V>(m: map<Gen, V>, owners: map<Nick, Owner>)
    requires forall g :: g in m ==> g.nick in owners && owners[g.nick].conn == g.conn
    ensures |m| <= |owners|
    decreases |m|
  {
    if m != map[] {
      var g :| g in m;
      MapRemoveCard(m, g);
      MapRemoveCard(owners, g.nick);
      LiveCard(m - {g}, owners - {g.nick});
    }
  }

  lemma StatsBound(d: Dir)
    requires Consistent(d)
    ensures CurrentOffers(d.router, d.reg) == d.router.offers
    ensures |d.router.offers| <= Offered(d.router.offers) <= MAX_OFFERS_PER_OWNER * |d.router.offers|
    ensures |d.router.offers| <= |d.reg.peers| <= d.reg.maxPeers
  {
    StatsSeeEverything(d);
    OfferedBounds(d.router.offers);
    LiveCard(d.router.offers, d.reg.owners);
    assert |d.reg.owners| == |d.reg.owners.Keys| && |d.reg.peers| == |d.reg.peers.Keys|;
  }

  /** In every reachable state the statistics count the whole offer table, which has at most one entry a peer
      and at most 256 offers an entry. */
  lemma StatsExact(cfg: Config, states: seq<State>, events: seq<Event>, i: nat)
    requires IsRun(cfg, states, events) && i < |states|
    ensures var d := states[i].dir;
            && CurrentOffers(d.router, d.reg) == d.router.offers
            && |d.router.offers| <= cfg.maxPeers
            && |d.router.offers| <= Offered(d.router.offers) <= MAX_OFFERS_PER_OWNER * cfg.maxPeers
  {
    RunInv(cfg, states, events, i);
    StatsBound(states[i].dir);
    hide IsRun, Consistent, CurrentOffers;
  }
}

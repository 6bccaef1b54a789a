/** Public-message bookkeeping of the message router: tracked offers, ingress buckets, drop counts. */
module MessageRouter {
  import opened Types

  const MAX_OFFERS_PER_OWNER: nat := 256
  const MAX_OFFER_ID_LENGTH: nat := 64

  /** What a public message does to the offer table. */
  datatype PubKind = Plain | Offer(id: string) | Cancel(id: string)

  /** A token bucket is only asked whether it admits a message, so its key is all that is kept. */
  datatype Router = Router(offers: map<Gen, set<string>>, buckets: set<Gen>, drops: map<Gen, nat>)

  function RecordDrop(rt: Router, g: Gen): (rt': Router) {
    rt.(drops := rt.drops[g := (if g in rt.drops then rt.drops[g] else 0) + 1])
  }

  function OffersOf(rt: Router, g: Gen): (ids: set<string>) {
    if g in rt.offers then rt.offers[g] else {}
  }

  /** `cancel` of one id: an offer set that becomes empty loses its entry. */
  function CancelOffer(rt: Router, g: Gen, id: string): (rt': Router) {
    var ids := OffersOf(rt, g) - {id};
    rt.(offers := if ids == {} then rt.offers - {g} else rt.offers[g := ids])
  }

  predicate Accepts(rt: Router, g: Gen, kind: PubKind) {
    kind.Offer? ==>
      && |kind.id| <= MAX_OFFER_ID_LENGTH
      && (kind.id in OffersOf(rt, g) || |OffersOf(rt, g)| < MAX_OFFERS_PER_OWNER)
  }

  /** The tables after one public message of `g`; `admit` is the answer of its token bucket. */
  function Ingress(rt: Router, g: Gen, kind: PubKind, admit: bool): (rt': Router) {
    var rt1 := rt.(buckets := rt.buckets + {g});
    if !admit || !Accepts(rt, g, kind) then RecordDrop(rt1, g)
    else match kind
      case Plain => rt1
      case Offer(id) => rt1.(offers := rt1.offers[g := OffersOf(rt, g) + {id}])
      case Cancel(id) => CancelOffer(rt1, g, id)
  }

  function Forget(rt: Router, g: Gen): (rt': Router) {
    Router(rt.offers - {g}, rt.buckets - {g}, rt.drops - {g})
  }

  ghost predicate BoundedOffers(rt: Router) {
    forall g :: g in rt.offers ==>
      && 1 <= |rt.offers[g]| <= MAX_OFFERS_PER_OWNER
      && (forall id :: id in rt.offers[g] ==> |id| <= MAX_OFFER_ID_LENGTH)
  }

  function DropsOf(rt: Router, g: Gen): (n: nat) {
    if g in rt.drops then rt.drops[g] else 0
  }

  /** A message that the bucket and the limits accept adds or cancels its id and nothing else; any other one is
      counted as dropped and leaves the offers. A generation without offers has no entry. */
  lemma IngressTracks(rt: Router, g: Gen, kind: PubKind, admit: bool, id: string)
    requires BoundedOffers(rt)
    ensures var rt' := Ingress(rt, g, kind, admit);
            var taken := admit && (kind.Offer? ==>
              |kind.id| <= 64 && (kind.id in OffersOf(rt, g) || |OffersOf(rt, g)| < 256));
            && g in rt'.buckets
            && (id in OffersOf(rt', g) <==>
                  (taken && kind == Offer(id)) || (id in OffersOf(rt, g) && !(taken && kind == Cancel(id))))
            && DropsOf(rt', g) == DropsOf(rt, g) + (if taken then 0 else 1)
            && (g in rt'.offers <==> OffersOf(rt', g) != {})
  {
    IngressKeepsBounds(rt, g, kind, admit);
  }

  lemma IngressKeepsBounds(rt: Router, g: Gen, kind: PubKind, admit: bool)
    requires BoundedOffers(rt)
    ensures BoundedOffers(Ingress(rt, g, kind, admit))
  {
    if kind.Cancel? {
      var ids := OffersOf(rt, g);
      assert |ids - {kind.id}| <= |ids|;
      if ids - {kind.id} != {} { assert |ids - {kind.id}| >= 1; }
    } else if kind.Offer? && kind.id in OffersOf(rt, g) {
      assert OffersOf(rt, g) + {kind.id} == OffersOf(rt, g);
    }
  }

  /** `Ingress` only writes the entries of its own generation. */
  lemma IngressIsLocal(rt: Router, g: Gen, kind: PubKind, admit: bool, h: Gen)
    requires h != g
    ensures var rt' := Ingress(rt, g, kind, admit);
            && (h in rt'.offers <==> h in rt.offers) && (h in rt.offers ==> rt'.offers[h] == rt.offers[h])
            && (h in rt'.buckets <==> h in rt.buckets)
            && (h in rt'.drops <==> h in rt.drops) && (h in rt.drops ==> rt'.drops[h] == rt.drops[h])
  {
  }
}

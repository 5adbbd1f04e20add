/** A host-signed access list, after `parseAcl`. */
module Acls {
  import opened Wrappers

  datatype Grant = Grant(dk: string, grant: Option<string>)

  datatype Offer = Offer(id: string, exp: int)

  datatype Acl = Acl(computer: string, ver: int, devices: seq<Grant>, offers: seq<Offer>)

  predicate Lists(acl: Acl, dk: string) {
    exists g :: g in acl.devices && g.dk == dk
  }

  predicate Offers(acl: Acl, id: string) {
    exists o :: o in acl.offers && o.id == id
  }

  /** The offer is listed and still good after `now`. */
  predicate OffersAfter(acl: Acl, id: string, now: int) {
    exists o :: o in acl.offers && o.id == id && o.exp > now
  }

  /** `find((o) => o.id === id)?.exp` */
  function OfferExpiry(offers: seq<Offer>, id: string): Option<int> {
    if offers == [] then None
    else if offers[0].id == id then Some(offers[0].exp)
    else OfferExpiry(offers[1..], id)
  }

  /** The first offer of the id. */
  predicate FirstOf(offers: seq<Offer>, id: string, n: nat) {
    n < |offers| && offers[n].id == id && forall j :: 0 <= j < n ==> offers[j].id != id
  }

  lemma {:induction false} ExpiryOfFirst(offers: seq<Offer>, id: string, n: nat)
    requires FirstOf(offers, id, n)
    ensures OfferExpiry(offers, id) == Some(offers[n].exp)
    decreases n
  {
    if n > 0 {
      assert offers[0].id != id;
      assert FirstOf(offers[1..], id, n - 1) by {
        forall j | 0 <= j < n - 1
          ensures offers[1..][j].id != id
        {
          assert offers[1..][j] == offers[j + 1];
        }
      }
      ExpiryOfFirst(offers[1..], id, n - 1);
    }
  }

  /** There is no expiry exactly when no offer has the id; and else there is a first one. */
  lemma {:induction false} ExpiryFound(offers: seq<Offer>, id: string) returns (n: nat)
    ensures OfferExpiry(offers, id).None? <==> forall o :: o in offers ==> o.id != id
    ensures OfferExpiry(offers, id).Some? ==> FirstOf(offers, id, n)
  {
    n := 0;
    if offers != [] && offers[0].id != id {
      var m := ExpiryFound(offers[1..], id);
      n := m + 1;
      assert offers == [offers[0]] + offers[1..];
      if OfferExpiry(offers, id).Some? {
        forall j | 0 <= j < n
          ensures offers[j].id != id
        {
          assert j > 0 ==> offers[j] == offers[1..][j - 1];
        }
      }
    }
  }
}

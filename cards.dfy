/**
 * Card extraction across processor API versions
 * (app/gateways/MeprStripeGateway.php:1271-1301).
 *
 * A customer object names its default card by `default_source` (2015-02-15
 * on), by `default_card` (2013-07-05 on) or carries an `active_card` (before
 * 2013-07-05); the first field present decides, and a named default is looked
 * up by id in the matching list. A charge carries its card as a `source` of
 * object type "card" (2015-02-18 on) or as the legacy `card` field.
 */
module Cards {
  import opened Records

  const CardObject := "card"

  /** The first card of `list` whose id is `id`, if any. */
  function FirstWithId(list: seq<Card>, id: string): (r: Option<Card>)
    ensures r.None? <==> forall c :: c in list ==> c.id != id
    ensures r.Some? ==> r.value.id == id && r.value in list
    ensures r.Some? ==> exists i :: 0 <= i < |list| && list[i] == r.value
                                    && forall j :: 0 <= j < i ==> list[j].id != id
    decreases |list|
  {
    if list == [] then None
    else if list[0].id == id then Some(list[0])
    else
      var r := FirstWithId(list[1..], id);
      assert forall c :: c in list ==> c == list[0] || c in list[1..];
      assert r.Some? ==> exists i :: 0 <= i < |list| && list[i] == r.value
                                     && forall j :: 0 <= j < i ==> list[j].id != id
      by {
        if r.Some? {
          var i :| 0 <= i < |list[1..]| && list[1..][i] == r.value
                   && forall j :: 0 <= j < i ==> list[1..][j].id != id;
          assert list[i + 1] == r.value;
          assert forall j :: 0 <= j < i + 1 ==> list[j].id != id by {
            forall j | 0 <= j < i + 1 ensures list[j].id != id {
              if j > 0 { assert list[j] == list[1..][j - 1]; }
            }
          }
        }
      }
      r
  }

  /** The default card of a customer object, resolved in API-version order. */
  function DefaultCard(c: CustomerData): (r: Option<Card>)
    ensures c.defaultSource.Some? && r.Some? ==> r.value in c.sources && r.value.id == c.defaultSource.value
    ensures c.defaultSource.None? && c.defaultCard.Some? && r.Some? ==>
              r.value in c.cards && r.value.id == c.defaultCard.value
    ensures c.defaultSource.None? && c.defaultCard.None? ==> r == c.activeCard
  {
    if c.defaultSource.Some? then FirstWithId(c.sources, c.defaultSource.value)
    else if c.defaultCard.Some? then FirstWithId(c.cards, c.defaultCard.value)
    else c.activeCard
  }

  /**
   * The scan of get_default_card over one list: the first entry whose id is
   * the default id, or nothing.
   */
  method FindById(list: seq<Card>, id: string) returns (r: Option<Card>)
    ensures r == FirstWithId(list, id)
  {
    var i := 0;
    while i < |list|
      invariant 0 <= i <= |list|
      invariant FirstWithId(list, id) == FirstWithId(list[i..], id)
    {
      if list[i].id == id {
        return Some(list[i]);
      }
      assert list[i..][1..] == list[i + 1..];
      i := i + 1;
    }
    r := None;
  }

  /** get_default_card: the newest field present decides where the default card is looked up. */
  method GetDefaultCard(c: CustomerData) returns (r: Option<Card>)
    ensures r == DefaultCard(c)
    ensures c.defaultSource.Some? ==> (r.Some? <==> exists s :: s in c.sources && s.id == c.defaultSource.value)
    ensures c.defaultSource.None? && c.defaultCard.Some? ==>
              (r.Some? <==> exists s :: s in c.cards && s.id == c.defaultCard.value)
    ensures c.defaultSource.None? && c.defaultCard.None? ==> r == c.activeCard
  {
    if c.defaultSource.Some? {
      r := FindById(c.sources, c.defaultSource.value);
    } else if c.defaultCard.Some? {
      r := FindById(c.cards, c.defaultCard.value);
    } else {
      r := c.activeCard;
    }
  }

  /**
   * A `default_source` that names no listed source yields no card, even when
   * the legacy fields would have found one: the first field present decides.
   */
  lemma DefaultSourceShadowsLegacy(c: CustomerData)
    requires c.defaultSource.Some?
    requires forall s :: s in c.sources ==> s.id != c.defaultSource.value
    ensures DefaultCard(c) == None
  {
  }

  /** get_card: a card-typed `source` wins over the legacy `card` field. */
  function GetCard(charge: Charge): (r: Option<Card>)
    ensures r.None? <==> (charge.source.None? || charge.source.value.obj != CardObject) && charge.card.None?
    ensures charge.source.Some? && charge.source.value.obj == CardObject ==> r == charge.source
    ensures r.Some? ==> (r == charge.source && r.value.obj == CardObject) || r == charge.card
  {
    if charge.source.Some? && charge.source.value.obj == CardObject then charge.source
    else charge.card
  }

  /** The cached card summary after a lookup: replaced by a found card, kept otherwise. */
  function Cached(info: CardInfo, found: Option<Card>): (r: CardInfo)
    ensures found.Some? ==> r.last4 == found.value.last4 && r.expMonth == found.value.expMonth
                            && r.expYear == found.value.expYear
    ensures found.None? ==> r == info
  {
    match found
    case None => info
    case Some(card) => CardInfo(card.last4, card.expMonth, card.expYear)
  }
}

/** The credit-card repository (src/shared/services/credit-card.service.ts):
    create, cancel, reactivate, update and delete over the stored card list,
    and the queries by charge account. Reactivation has no precondition, and
    no expiry is checked anywhere. */
module CreditCardService {
  import opened Wrappers
  import opened Models
  import opened Seqs
  import opened Storage

  const CardPrefix: string := "card-"

  /** The card after `cancelCreditCard`: inactive, with the reason and the
      (possibly absent) note; everything else kept. */
  function Cancelled(c: CreditCard, reason: CancellationReason, note: Option<string>): CreditCard {
    c.(status := Inactive, cancellationReason := Some(reason), cancellationNote := note)
  }

  /** The card after `reactivateCreditCard`: active, reason and note cleared. */
  function Reactivated(c: CreditCard): CreditCard {
    c.(status := Active, cancellationReason := None, cancellationNote := None)
  }

  /** The collection to write after cancelling `id`; None when no card has it. */
  function CancelIn(cards: seq<CreditCard>, id: string, reason: CancellationReason, note: Option<string>): (r: Option<seq<CreditCard>>)
    ensures r.None? <==> forall j :: 0 <= j < |cards| ==> cards[j].id != id
    ensures r.Some? ==> |r.value| == |cards| && exists k ::
      && 0 <= k < |cards| && cards[k].id == id
      && (forall j :: 0 <= j < k ==> cards[j].id != id)
      && r.value[k].status == Inactive
      && r.value[k].cancellationReason == Some(reason)
      && r.value[k].cancellationNote == note
      && r.value[k].id == id && r.value[k].details == cards[k].details
      && (forall j :: 0 <= j < |cards| && j != k ==> r.value[j] == cards[j])
  {
    UpdateAtId(cards, id, CardId, c => Cancelled(c, reason, note))
  }

  /** The collection to write after reactivating `id`; None when no card has it. */
  function ReactivateIn(cards: seq<CreditCard>, id: string): (r: Option<seq<CreditCard>>)
    ensures r.None? <==> forall j :: 0 <= j < |cards| ==> cards[j].id != id
    ensures r.Some? ==> |r.value| == |cards| && exists k ::
      && 0 <= k < |cards| && cards[k].id == id
      && (forall j :: 0 <= j < k ==> cards[j].id != id)
      && r.value[k].status == Active
      && r.value[k].cancellationReason == None
      && r.value[k].cancellationNote == None
      && r.value[k].id == id && r.value[k].details == cards[k].details
      && (forall j :: 0 <= j < |cards| && j != k ==> r.value[j] == cards[j])
  {
    UpdateAtId(cards, id, CardId, Reactivated)
  }

  /** `getCardsByAccount`: the cards charged to the account, in order. */
  function CardsByAccount(cards: seq<CreditCard>, accountId: string): (r: seq<CreditCard>)
    ensures forall i :: 0 <= i < |r| ==> r[i] in cards && r[i].details.chargeAccountId == accountId
    ensures forall i :: 0 <= i < |cards| && cards[i].details.chargeAccountId == accountId ==> cards[i] in r
  {
    var charged := (c: CreditCard) => c.details.chargeAccountId == accountId;
    FilterMembers(cards, charged);
    Filter(cards, charged)
  }

  /** `hasActiveCards`: some card of the account is active. */
  function HasActiveCards(cards: seq<CreditCard>, accountId: string): (r: bool)
    ensures r <==> exists i :: 0 <= i < |cards| && cards[i].details.chargeAccountId == accountId && cards[i].status == Active
  {
    var mine := CardsByAccount(cards, accountId);
    var r := Exists(mine, (c: CreditCard) => c.status == Active);
    assert r ==> exists i :: 0 <= i < |cards| && cards[i].details.chargeAccountId == accountId && cards[i].status == Active by {
      if r {
        var j :| 0 <= j < |mine| && mine[j].status == Active;
        assert mine[j] in cards;
      }
    }
    r
  }

  /** `hasAnyCards`: the account has at least one card, of either status. */
  function HasAnyCards(cards: seq<CreditCard>, accountId: string): (r: bool)
    ensures r <==> exists i :: 0 <= i < |cards| && cards[i].details.chargeAccountId == accountId
  {
    var mine := CardsByAccount(cards, accountId);
    assert |mine| > 0 ==> mine[0] in cards;
    |mine| > 0
  }

  lemma ActiveCardsAreCards(cards: seq<CreditCard>, accountId: string)
    ensures HasActiveCards(cards, accountId) ==> HasAnyCards(cards, accountId)
  {
  }

  /** Cancelling a card that is active and carries no reason or note, then
      reactivating it, gives back the collection that was there before. */
  lemma CancelThenReactivate(cards: seq<CreditCard>, id: string, reason: CancellationReason, note: Option<string>)
    requires exists j :: 0 <= j < |cards| && cards[j].id == id
    requires var k := IndexOfId(cards, id, CardId);
      cards[k].status == Active && cards[k].cancellationReason == None && cards[k].cancellationNote == None
    ensures CancelIn(cards, id, reason, note).Some?
    ensures ReactivateIn(CancelIn(cards, id, reason, note).value, id) == Some(cards)
  {
    var k := IndexOfId(cards, id, CardId);
    var cancelled := cards[k := Cancelled(cards[k], reason, note)];
    assert CancelIn(cards, id, reason, note) == Some(cancelled);
    assert IndexOfId(cancelled, id, CardId) == k by {
      assert forall j :: 0 <= j < k ==> CardId(cancelled[j]) != id;
    }
    assert cancelled[k := Reactivated(cancelled[k])] == cards;
  }

  method GetCreditCards(store: Store) returns (r: Result<seq<CreditCard>>)
    ensures store.backend == Firebase ==> r == Err(FirebaseUnsupported)
    ensures store.backend == Local ==> r == Ok(store.Cards())
    ensures store.backend == Local && CardsKey !in store.items ==> r == Ok([])
  {
    var got := store.GetItem(CardsKey);
    if got.Err? {
      return Err(got.message);
    }
    match got.value
    case Some(CardList(cs)) => r := Ok(cs);
    case _ => r := Ok([]);
  }

  /** `createCreditCard`: a new active card, without reason or note, at the end. */
  method CreateCreditCard(store: Store, details: CardDetails, stamp: string) returns (r: Result<CreditCard>)
    modifies store
    ensures store.backend == Firebase ==> r == Err(FirebaseUnsupported) && store.items == old(store.items)
    ensures store.backend == Local ==>
      && r == Ok(CreditCard(CardPrefix + stamp, details, Active, None, None))
      && store.items == old(store.items)[CardsKey := CardList(old(store.Cards()) + [r.value])]
  {
    var newCard := CreditCard(CardPrefix + stamp, details, Active, None, None);
    var cards := GetCreditCards(store);
    if cards.Err? {
      return Err(cards.message);
    }
    var _ := store.SetItem(CardsKey, CardList(cards.value + [newCard]));
    r := Ok(newCard);
  }

  method CancelCreditCard(store: Store, id: string, reason: CancellationReason, note: Option<string>) returns (r: Result<()>)
    modifies store
    ensures store.backend == Firebase ==> r == Err(FirebaseUnsupported) && store.items == old(store.items)
    ensures store.backend == Local ==>
      && r == Ok(())
      && store.items == (match CancelIn(old(store.Cards()), id, reason, note)
                         case None => old(store.items)
                         case Some(cs) => old(store.items)[CardsKey := CardList(cs)])
  {
    var cards := GetCreditCards(store);
    if cards.Err? {
      return Err(cards.message);
    }
    var updated := CancelIn(cards.value, id, reason, note);
    if updated.Some? {
      var _ := store.SetItem(CardsKey, CardList(updated.value));
    }
    r := Ok(());
  }

  method ReactivateCreditCard(store: Store, id: string) returns (r: Result<()>)
    modifies store
    ensures store.backend == Firebase ==> r == Err(FirebaseUnsupported) && store.items == old(store.items)
    ensures store.backend == Local ==>
      && r == Ok(())
      && store.items == (match ReactivateIn(old(store.Cards()), id)
                         case None => old(store.items)
                         case Some(cs) => old(store.items)[CardsKey := CardList(cs)])
  {
    var cards := GetCreditCards(store);
    if cards.Err? {
      return Err(cards.message);
    }
    var updated := ReactivateIn(cards.value, id);
    if updated.Some? {
      var _ := store.SetItem(CardsKey, CardList(updated.value));
    }
    r := Ok(());
  }

  method UpdateCreditCard(store: Store, updated: CreditCard) returns (r: Result<CreditCard>)
    modifies store
    ensures store.backend == Firebase ==> r == Err(FirebaseUnsupported) && store.items == old(store.items)
    ensures store.backend == Local ==>
      && r == Ok(updated)
      && store.items == (match ReplaceFirst(old(store.Cards()), updated, CardId)
                         case None => old(store.items)
                         case Some(cs) => old(store.items)[CardsKey := CardList(cs)])
  {
    var cards := GetCreditCards(store);
    if cards.Err? {
      return Err(cards.message);
    }
    var replaced := ReplaceFirst(cards.value, updated, CardId);
    if replaced.Some? {
      var _ := store.SetItem(CardsKey, CardList(replaced.value));
    }
    r := Ok(updated);
  }

  method DeleteCreditCard(store: Store, id: string) returns (r: Result<()>)
    modifies store
    ensures store.backend == Firebase ==> r == Err(FirebaseUnsupported) && store.items == old(store.items)
    ensures store.backend == Local ==>
      && r == Ok(())
      && store.items == old(store.items)[CardsKey := CardList(RemoveById(old(store.Cards()), id, CardId))]
  {
    var cards := GetCreditCards(store);
    if cards.Err? {
      return Err(cards.message);
    }
    var _ := store.SetItem(CardsKey, CardList(RemoveById(cards.value, id, CardId)));
    r := Ok(());
  }
}

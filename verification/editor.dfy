/** The card editor (components/FlashcardEditor.tsx): the three list
    transforms its handlers apply to the `cards` state, the state itself, and
    the save button. */
module Editor {
  import opened Results
  import opened Flashcards

  /** The two text fields a textarea can change. */
  datatype Field = Question | Answer

  /** `{ ...card, [field]: value }` */
  function WithField(card: Card, field: Field, value: string): (r: Card)
    ensures r.id == card.id
    ensures field == Question ==> r.question == value && r.answer == card.answer
    ensures field == Answer ==> r.answer == value && r.question == card.question
  {
    match field
    case Question => card.(question := value)
    case Answer => card.(answer := value)
  }

  /** The transform of `handleCardChange`: every card whose id is `id` gets
      `field` set to `value`; the list keeps its length, order and ids. */
  function ChangeField(cards: seq<Card>, id: string, field: Field, value: string): (r: seq<Card>)
    ensures |r| == |cards|
    ensures forall i :: 0 <= i < |r| ==> r[i].id == cards[i].id
    ensures forall i :: 0 <= i < |r| && cards[i].id != id ==> r[i] == cards[i]
    ensures forall i :: 0 <= i < |r| && cards[i].id == id ==> r[i] == WithField(cards[i], field, value)
  {
    if cards == [] then []
    else [if cards[0].id == id then WithField(cards[0], field, value) else cards[0]]
         + ChangeField(cards[1..], id, field, value)
  }

  /** The transform of `handleDeleteCard`: the cards whose id is not `id`. */
  function DeleteCard(cards: seq<Card>, id: string): (r: seq<Card>)
    ensures |r| <= |cards|
    ensures forall c :: c in r <==> c in cards && c.id != id
  {
    if cards == [] then []
    else (if cards[0].id == id then [] else [cards[0]]) + DeleteCard(cards[1..], id)
  }

  /** A card with the given identifier and both faces empty. */
  function BlankCard(id: string): Card {
    Card(id, "", "")
  }

  /** The transform of `handleAddCard`: `[...cards, newCard]`. */
  function AddCard(cards: seq<Card>, newId: string): (r: seq<Card>)
    ensures |r| == |cards| + 1
    ensures r[..|cards|] == cards
    ensures r[|cards|] == BlankCard(newId)
  {
    cards + [BlankCard(newId)]
  }

  /** Changing a field for an identifier that is not present changes nothing. */
  lemma ChangeAbsentIsIdentity(cards: seq<Card>, id: string, field: Field, value: string)
    requires !HasId(cards, id)
    ensures ChangeField(cards, id, field, value) == cards
  {
    var r := ChangeField(cards, id, field, value);
    forall i | 0 <= i < |cards| ensures r[i] == cards[i] {
      assert cards[i].id != id;
    }
  }

  /** Two edits of the same field of the same card: the second one wins. */
  lemma ChangeLastWins(cards: seq<Card>, id: string, field: Field, v1: string, v2: string)
    ensures ChangeField(ChangeField(cards, id, field, v1), id, field, v2)
         == ChangeField(cards, id, field, v2)
  {
    var a := ChangeField(ChangeField(cards, id, field, v1), id, field, v2);
    var b := ChangeField(cards, id, field, v2);
    forall i | 0 <= i < |cards| ensures a[i] == b[i] {
      if cards[i].id == id {
        match field
        case Question =>
        case Answer =>
      }
    }
  }

  /** Editing never introduces or merges identifiers. */
  lemma ChangeKeepsDistinct(cards: seq<Card>, id: string, field: Field, value: string)
    requires DistinctIds(cards)
    ensures DistinctIds(ChangeField(cards, id, field, value))
  {
  }

  /** Deleting distributes over concatenation: the survivors keep their
      relative order. */
  lemma {:induction false} DeleteAppend(a: seq<Card>, b: seq<Card>, id: string)
    ensures DeleteCard(a + b, id) == DeleteCard(a, id) + DeleteCard(b, id)
  {
    if a == [] {
      assert a + b == b;
    } else {
      assert (a + b)[1..] == a[1..] + b;
      DeleteAppend(a[1..], b, id);
    }
  }

  /** Deleting an identifier that is not present changes nothing. */
  lemma {:induction false} DeleteAbsentIsIdentity(cards: seq<Card>, id: string)
    requires !HasId(cards, id)
    ensures DeleteCard(cards, id) == cards
  {
    if cards != [] {
      assert cards[0].id != id;
      assert !HasId(cards[1..], id);
      DeleteAbsentIsIdentity(cards[1..], id);
    }
  }

  /** Deleting the same identifier twice is the same as deleting it once. */
  lemma DeleteIdempotent(cards: seq<Card>, id: string)
    ensures DeleteCard(DeleteCard(cards, id), id) == DeleteCard(cards, id)
  {
    var r := DeleteCard(cards, id);
    assert !HasId(r, id);
    DeleteAbsentIsIdentity(r, id);
  }

  /** Deleting keeps identifiers distinct. */
  lemma {:induction false} DeleteKeepsDistinct(cards: seq<Card>, id: string)
    requires DistinctIds(cards)
    ensures DistinctIds(DeleteCard(cards, id))
  {
    if cards != [] {
      var rest := DeleteCard(cards[1..], id);
      DeleteKeepsDistinct(cards[1..], id);
      if cards[0].id != id {
        var r := DeleteCard(cards, id);
        assert r == [cards[0]] + rest;
        forall j | 0 <= j < |rest| ensures rest[j].id != cards[0].id {
          assert rest[j] in cards[1..];
          var k :| 0 <= k < |cards[1..]| && cards[1..][k] == rest[j];
          assert cards[k + 1] == rest[j];
        }
      }
    }
  }

  /** Deleting every identifier of the list, one after the other, empties it. */
  function DeleteEach(cards: seq<Card>, ids: seq<string>): seq<Card>
    decreases ids
  {
    if ids == [] then cards else DeleteEach(DeleteCard(cards, ids[0]), ids[1..])
  }

  lemma {:induction false} DeleteEveryIdEmpties(cards: seq<Card>, ids: seq<string>)
    requires forall c :: c in cards ==> c.id in ids
    ensures DeleteEach(cards, ids) == []
    decreases ids
  {
    if ids == [] {
      if cards != [] {
        FirstIsMember(cards);
        assert false;
      }
    } else {
      var rest := DeleteCard(cards, ids[0]);
      forall c | c in rest ensures c.id in ids[1..] {
        assert c.id in ids && c.id != ids[0];
      }
      DeleteEveryIdEmpties(rest, ids[1..]);
    }
  }

  /** The first card of a non-empty list is one of its cards. */
  lemma FirstIsMember(cards: seq<Card>)
    requires cards != []
    ensures cards[0] in cards
  {
  }

  /** Adding a card with a fresh identifier keeps identifiers distinct. */
  lemma AddKeepsDistinct(cards: seq<Card>, newId: string)
    requires DistinctIds(cards) && !HasId(cards, newId)
    ensures DistinctIds(AddCard(cards, newId))
  {
    var r := AddCard(cards, newId);
    forall i, j | 0 <= i < j < |r| ensures r[i].id != r[j].id {
      if j == |cards| {
        assert r[i] == cards[i];
      } else {
        assert r[i] == cards[i] && r[j] == cards[j];
      }
    }
  }

  /** Deleting the card just added with a fresh identifier restores the list. */
  lemma AddThenDeleteRestores(cards: seq<Card>, newId: string)
    requires !HasId(cards, newId)
    ensures DeleteCard(AddCard(cards, newId), newId) == cards
  {
    DeleteAppend(cards, [BlankCard(newId)], newId);
    DeleteAbsentIsIdentity(cards, newId);
    assert DeleteCard([BlankCard(newId)], newId) == [];
  }

  /** The editor component's state. */
  class CardEditor {
    var cards: seq<Card>

    /** `useState(initialCards)` */
    constructor (initialCards: seq<Card>)
      ensures cards == initialCards
    {
      cards := initialCards;
    }

    method HandleCardChange(id: string, field: Field, value: string)
      modifies this
      ensures cards == ChangeField(old(cards), id, field, value)
    {
      cards := ChangeField(cards, id, field, value);
    }

    method HandleDeleteCard(id: string)
      modifies this
      ensures cards == DeleteCard(old(cards), id)
    {
      cards := DeleteCard(cards, id);
    }

    /** `newId` is the value `crypto.randomUUID()` returned for this click. */
    method HandleAddCard(newId: string)
      modifies this
      ensures cards == AddCard(old(cards), newId)
      ensures old(DistinctIds(cards)) && !old(HasId(cards, newId)) ==> DistinctIds(cards)
    {
      if DistinctIds(cards) && !HasId(cards, newId) {
        AddKeepsDistinct(cards, newId);
      }
      cards := AddCard(cards, newId);
    }

    /** A click on "save": the button is disabled while the list is empty, so
        `onSave` receives the list only when it has a card. */
    method HandleSaveClick() returns (saved: Option<seq<Card>>)
      ensures saved.Some? <==> |cards| > 0
      ensures saved.Some? ==> saved.value == cards
    {
      if |cards| == 0 {
        saved := None;
      } else {
        saved := Some(cards);
      }
    }
  }
}

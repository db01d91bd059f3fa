/** The card record shared by the generator, the editor, the viewer and the
    app shell: an opaque identifier and the two editable faces. */
module Flashcards {

  datatype Card = Card(id: string, question: string, answer: string)

  /** Some card of `cards` carries identifier `id`. */
  predicate HasId(cards: seq<Card>, id: string) {
    exists i :: 0 <= i < |cards| && cards[i].id == id
  }

  /** No two positions of `cards` share an identifier. */
  predicate DistinctIds(cards: seq<Card>) {
    forall i, j :: 0 <= i < j < |cards| ==> cards[i].id != cards[j].id
  }
}

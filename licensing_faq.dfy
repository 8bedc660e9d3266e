/**
 * src/app/LicensingFAQ/page.tsx: the FAQ accordion. `activeQuestion` is the
 * index of the open answer, -1 when all are closed.
 */
module LicensingFaq {

  const Questions: seq<string> := [
    "Can I use your content for my project?",
    "How do I attribute content properly?",
    "Can I modify your content?",
    "Do you offer commercial licenses?"
  ]

  const AllClosed := -1

  /** The index an answer's button leaves active: itself, or none when it was already open. */
  function Toggle(active: int, index: int): (r: int)
    ensures r == AllClosed || r == index
    ensures index != AllClosed ==> (r == AllClosed <==> active == index)
  {
    if active == index then AllClosed else index
  }

  /** `activeQuestion === index`: answer `index` is shown. */
  predicate Shown(active: int, index: int) {
    active == index
  }

  /** At most one answer is shown. */
  lemma AtMostOneShown(active: int, i: int, j: int)
    requires Shown(active, i) && Shown(active, j)
    ensures i == j
  {
  }

  /** Two clicks on one button restore the previous state, unless a different answer was open; then all answers end closed. */
  lemma ToggleTwice(active: int, index: int)
    requires index != AllClosed
    ensures Toggle(Toggle(active, index), index) == (if active == index then index else AllClosed)
  {
  }

  class Accordion {
    var activeQuestion: int

    /** The first question starts open. */
    constructor ()
      ensures activeQuestion == 0 && Shown(activeQuestion, 0)
    {
      activeQuestion := 0;
    }

    /** A click on question `index`'s button. */
    method Click(index: int)
      requires 0 <= index < |Questions|
      modifies this
      ensures activeQuestion == Toggle(old(activeQuestion), index)
      ensures forall i :: 0 <= i < |Questions| && Shown(activeQuestion, i) ==> i == index
    {
      activeQuestion := if activeQuestion == index then AllClosed else index;
    }
  }
}

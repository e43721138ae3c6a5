/** Equalities between pieces of diagnostic text and the whole text, used by
    the worked examples of the wire checker. They live in a module of their
    own so that proving them sees only the sequence axioms. */
module MessageTexts {
  /** ProvideFoo's message, assembled from its pieces. */
  lemma ProvideFooHead()
    ensures "ProvideFoo" + "() directly calls " + "dep" + "." + "Start" == "ProvideFoo() directly calls dep.Start"
  {
  }

  lemma ProvideFooTail()
    ensures "ProvideFoo() directly calls dep.Start" + "() in wire provider function"
      == "ProvideFoo() directly calls dep.Start() in wire provider function"
  {
  }

  /** B's message, assembled from its pieces. */
  lemma CycleHead()
    ensures "B" + "() directly calls " + "dep" + "." + "M" == "B() directly calls dep.M"
  {
  }

  lemma CycleTail()
    ensures "B() directly calls dep.M" + "() in wire provider function"
      == "B() directly calls dep.M() in wire provider function"
  {
  }

  lemma CycleWithPath()
    ensures "B() directly calls dep.M() in wire provider function" + " (via call path: A -> B)"
      == "B() directly calls dep.M() in wire provider function (via call path: A -> B)"
  {
  }
}

/** Facts about concatenation that the solver is slow to find among other things. */
module Sequences {
  lemma Associates<T>(a: seq<T>, b: seq<T>, c: seq<T>)
    ensures a + b + c == a + (b + c)
  {}

  lemma HeadFirst<T>(first: seq<T>, second: seq<T>)
    requires first != []
    ensures first + second == [first[0]] + (first[1..] + second)
    ensures (first + second)[0] == first[0] && (first + second)[1..] == first[1..] + second
  {}

  lemma FirstAndRest<T>(all: seq<T>)
    requires all != []
    ensures [all[0]] + all[1..] == all
  {}
}

/** Chains of links in memory: each word holds the address of the next, 0 is null. */
module Links {

  /** The links from `head` on spell out exactly `list`, and end with null. */
  predicate Chained(word: map<nat, nat>, head: nat, list: seq<nat>)
    decreases |list|
  {
    if list == [] then head == 0
    else head == list[0] && head > 0 && head in word && Chained(word, word[head], list[1..])
  }

  /** A store outside the chain does not change it. */
  lemma {:induction false} ChainedElsewhere(word: map<nat, nat>, a: nat, w: nat, head: nat, list: seq<nat>)
    requires Chained(word, head, list) && a !in list
    ensures Chained(word[a := w], head, list)
    decreases |list|
  {
    if list != [] {
      assert head in list;
      ChainedElsewhere(word, a, w, word[head], list[1..]);
    }
  }
}

/**
  The endpoint list of the configuration: a sequence of `iperf-servers` entries, each
  mapping an endpoint address to a display name.
 */
module Endpoints {

  /**
    One `iperf-servers` entry (Go: `Servers map[string]string`), as its (address, name)
    pairs in the order one iteration over the map visits them.
   */
  type Servers = seq<(string, string)>

  /** Number of pairs over all entries: the sum of the map sizes. */
  function TotalPairs(entries: seq<Servers>): nat
  {
    if entries == [] then 0 else TotalPairs(entries[..|entries| - 1]) + |entries[|entries| - 1]|
  }

  /** The pairs of all entries, entry after entry: the order of the nested loops over them. */
  function Flatten(entries: seq<Servers>): (pairs: seq<(string, string)>)
    ensures |pairs| == TotalPairs(entries)
  {
    if entries == [] then [] else Flatten(entries[..|entries| - 1]) + entries[|entries| - 1]
  }

  /** Pair j of entry i is visited once, after all pairs of the entries before it. */
  lemma {:induction false} FlattenAt(entries: seq<Servers>, i: int, j: int)
    requires 0 <= i < |entries| && 0 <= j < |entries[i]|
    ensures TotalPairs(entries[..i]) + |entries[i]| <= |Flatten(entries)|
    ensures Flatten(entries)[TotalPairs(entries[..i]) + j] == entries[i][j]
  {
    var init := entries[..|entries| - 1];
    if i == |entries| - 1 {
      assert entries[..i] == init;
    } else {
      assert init[..i] == entries[..i];
      FlattenAt(init, i, j);
    }
  }

  /** The pairs of the first i entries are no more than those of the first i' entries, i <= i'. */
  lemma {:induction false} TotalPairsMonotone(entries: seq<Servers>, i: int, i': int)
    requires 0 <= i <= i' <= |entries|
    ensures TotalPairs(entries[..i]) <= TotalPairs(entries[..i'])
    decreases i' - i
  {
    if i < i' {
      TotalPairsMonotone(entries, i, i' - 1);
      assert entries[..i'][..i' - 1] == entries[..i' - 1];
    }
  }

  /**
    Entry i occupies the block of positions from TotalPairs(entries[..i]) up to, but not
    including, TotalPairs(entries[..i + 1]); later entries start after that block.
   */
  lemma EntryBlock(entries: seq<Servers>, i: int, i': int)
    requires 0 <= i < i' <= |entries|
    ensures TotalPairs(entries[..i]) + |entries[i]| <= TotalPairs(entries[..i'])
  {
    assert entries[..i + 1][..i] == entries[..i];
    TotalPairsMonotone(entries, i + 1, i');
  }

  /** Two different pairs of the configuration are visited at two different positions. */
  lemma FlattenDistinct(entries: seq<Servers>, i: int, j: int, i': int, j': int)
    requires 0 <= i < |entries| && 0 <= j < |entries[i]|
    requires 0 <= i' < |entries| && 0 <= j' < |entries[i']|
    requires (i, j) != (i', j')
    ensures TotalPairs(entries[..i]) + j != TotalPairs(entries[..i']) + j'
  {
    if i < i' {
      EntryBlock(entries, i, i');
    } else if i' < i {
      EntryBlock(entries, i', i);
    }
  }

  /** Adding one more entry appends its pairs. */
  lemma FlattenSnoc(entries: seq<Servers>, e: int)
    requires 0 <= e < |entries|
    ensures Flatten(entries[..e + 1]) == Flatten(entries[..e]) + entries[e]
  {
    assert entries[..e + 1][..e] == entries[..e];
  }

  /** The name a measurement is reported under: the display name, or the address when it is empty. */
  function EndpointName(address: string, name: string): string
  {
    if name == "" then address else name
  }
}

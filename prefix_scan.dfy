/**
 The ordered, first-match prefix scan that both type-string classifiers run
 over their `_structTypes` tables: walk the `(prefix, value)` pairs in list
 order and take the value of the first pair whose prefix starts the string.
 On `seq`, Dafny's `p <= s` is "p is a prefix of s" character by
 character. Swift's `hasPrefix` compares grapheme clusters instead, so the
 two agree only when the input does not continue a matched prefix's last
 character with a combining mark, a joiner or another grapheme extender
 (they always agree on ASCII input).
 */
module PrefixScan {

  /** Index of the first entry whose key is a prefix of `s`, or `|entries|`
      when no key is. */
  function MatchIndex<T>(s: string, entries: seq<(string, T)>): (i: nat)
    ensures i <= |entries|
    ensures i < |entries| ==> entries[i].0 <= s
    ensures forall j :: 0 <= j < i ==> !(entries[j].0 <= s)
  {
    if entries == [] then 0
    else if entries[0].0 <= s then 0
    else 1 + MatchIndex(s, entries[1..])
  }

  /** The value of the first matching entry, or `default` when none matches. */
  function FirstMatch<T>(s: string, entries: seq<(string, T)>, default: T): T
  {
    var i := MatchIndex(s, entries);
    if i < |entries| then entries[i].1 else default
  }

  /** The loop of `init(typeString:)`: start from `default`, scan the entries
      in order and stop at the first key that prefixes `s`. */
  method Scan<T>(s: string, entries: seq<(string, T)>, default: T) returns (t: T)
    ensures t == FirstMatch(s, entries, default)
  {
    t := default;
    for i := 0 to |entries|
      invariant forall j :: 0 <= j < i ==> !(entries[j].0 <= s)
    {
      if entries[i].0 <= s {
        t := entries[i].1;
        break;
      }
    }
  }

  /** A match exists exactly when some key prefixes `s`, and then the result
      is the value of the first such key. */
  lemma FirstMatchIsFirst<T>(s: string, entries: seq<(string, T)>, default: T)
    ensures (exists i :: 0 <= i < |entries| && entries[i].0 <= s) <==> MatchIndex(s, entries) < |entries|
    ensures MatchIndex(s, entries) == |entries| ==> FirstMatch(s, entries, default) == default
    ensures MatchIndex(s, entries) < |entries| ==>
              var i := MatchIndex(s, entries);
              && FirstMatch(s, entries, default) == entries[i].1
              && entries[i].0 <= s
              && (forall j :: 0 <= j < i ==> !(entries[j].0 <= s))
  {
  }

  /** Two tables with the same keys in the same order stop at the same index. */
  lemma {:induction false} MatchIndexSameKeys<T, U>(s: string, a: seq<(string, T)>, b: seq<(string, U)>)
    requires |a| == |b|
    requires forall i :: 0 <= i < |a| ==> a[i].0 == b[i].0
    ensures MatchIndex(s, a) == MatchIndex(s, b)
  {
    if a != [] && !(a[0].0 <= s) {
      MatchIndexSameKeys(s, a[1..], b[1..]);
    }
  }

  /** No key is a prefix of a later key: no entry is hidden behind an
      earlier, more general one. */
  predicate Unshadowed<T>(entries: seq<(string, T)>)
  {
    forall i, j :: 0 <= i < j < |entries| ==> !(entries[i].0 <= entries[j].0)
  }

  /** In an unshadowed table, every key finds its own entry. */
  lemma KeyFindsOwnEntry<T>(entries: seq<(string, T)>, k: nat, default: T)
    requires Unshadowed(entries)
    requires k < |entries|
    ensures MatchIndex(entries[k].0, entries) == k
    ensures FirstMatch(entries[k].0, entries, default) == entries[k].1
  {
  }
}

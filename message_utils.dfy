/**
 * `flattenMessages`: turns the nested translation tables into the flat
 * dotted-key table the translation provider expects.
 */
module MessageUtils {
  import opened Js

  /** A translation table entry: a text, or a nested table (`NestedMessages`). */
  datatype Message = Leaf(text: string) | Group(entries: seq<(string, Message)>)

  /** `prefix ? `${prefix}.${key}` : key`. */
  function Prefixed(prefix: string, key: string): string
  {
    if prefix != "" then prefix + "." + key else key
  }

  /**
   * The accumulator of the `reduce` over the keys of `m` after its first `n`
   * keys: a text is written under its prefixed key, a nested table is
   * flattened under that key and merged in with `Object.assign`, so a later
   * key overwrites an earlier one.
   */
  function FlattenFirst(m: Message, n: nat, prefix: string): map<string, string>
    requires m.Group? && n <= |m.entries|
    decreases m, n
  {
    if n == 0 then map[]
    else
      var acc := FlattenFirst(m, n - 1, prefix);
      var key := m.entries[n - 1].0;
      var value := m.entries[n - 1].1;
      match value
      case Leaf(t) => acc[Prefixed(prefix, key) := t]
      case Group(_) => acc + FlattenFirst(value, |value.entries|, Prefixed(prefix, key))
  }

  /** The table `flattenMessages(m, prefix)` returns. */
  function Flatten(m: Message, prefix: string): map<string, string>
    requires m.Group?
  {
    FlattenFirst(m, |m.entries|, prefix)
  }

  /**
   * `flattenMessages`, with the `reduce` accumulator updated in place: a loop
   * over the keys that assigns texts and merges the recursively flattened
   * nested tables.
   */
  method FlattenMessages(nested: Message, prefix: string) returns (messages: map<string, string>)
    requires nested.Group?
    ensures messages == Flatten(nested, prefix)
    decreases nested
  {
    messages := map[];
    var i := 0;
    while i < |nested.entries|
      invariant 0 <= i <= |nested.entries|
      invariant messages == FlattenFirst(nested, i, prefix)
    {
      var key := nested.entries[i].0;
      var value := nested.entries[i].1;
      var prefixedKey := if prefix != "" then prefix + "." + key else key;
      if value.Group? {
        var inner := FlattenMessages(value, prefixedKey);
        messages := messages + inner;
      } else {
        messages := messages[prefixedKey := value.text];
      }
      i := i + 1;
    }
  }

  // ------------------------------------------------------ leaves and paths

  /** The dotted key of the path `keys` below `prefix`. */
  function Dotted(prefix: string, keys: seq<string>): string
    decreases |keys|
  {
    if keys == [] then prefix else Dotted(Prefixed(prefix, keys[0]), keys[1..])
  }

  /** Following `keys` from `v` reaches the text `t`. */
  ghost predicate LeafBelow(v: Message, keys: seq<string>, t: string)
    decreases v
  {
    match v
    case Leaf(s) => keys == [] && s == t
    case Group(es) =>
      |keys| >= 1 &&
      exists i :: 0 <= i < |es| && es[i].0 == keys[0] && LeafBelow(es[i].1, keys[1..], t)
  }

  /** Among the first `n` keys of `m`, the path `keys` leads to the text `t`. */
  ghost predicate LeafAmong(m: Message, n: nat, keys: seq<string>, t: string)
    requires m.Group? && n <= |m.entries|
  {
    |keys| >= 1 &&
    exists i :: 0 <= i < n && m.entries[i].0 == keys[0] && LeafBelow(m.entries[i].1, keys[1..], t)
  }

  /** A key written among the first `n` keys stays written by the later ones. */
  lemma {:induction false} FlattenFirstGrows(m: Message, i: nat, n: nat, prefix: string)
    requires m.Group? && i <= n <= |m.entries|
    ensures FlattenFirst(m, i, prefix).Keys <= FlattenFirst(m, n, prefix).Keys
    decreases n
  {
    if i < n {
      FlattenFirstGrows(m, i, n - 1, prefix);
    }
  }

  /** Every key of the flat table is the dotted path of a text, and holds a text found at that path. */
  lemma {:induction false} FlattenSound(m: Message, n: nat, prefix: string, k: string)
    requires m.Group? && n <= |m.entries|
    requires k in FlattenFirst(m, n, prefix)
    ensures exists keys :: Dotted(prefix, keys) == k && LeafAmong(m, n, keys, FlattenFirst(m, n, prefix)[k])
    decreases m, n
  {
    var acc := FlattenFirst(m, n - 1, prefix);
    var key := m.entries[n - 1].0;
    var value := m.entries[n - 1].1;
    var pk := Prefixed(prefix, key);
    var t := FlattenFirst(m, n, prefix)[k];
    if value.Leaf? && k == pk {
      var keys := [key];
      assert Dotted(prefix, keys) == Dotted(pk, []) == k;
      assert m.entries[n - 1].0 == keys[0] && LeafBelow(value, keys[1..], t);
      assert LeafAmong(m, n, keys, t);
    } else if value.Group? && k in FlattenFirst(value, |value.entries|, pk) {
      FlattenSound(value, |value.entries|, pk, k);
      var rest :| Dotted(pk, rest) == k && LeafAmong(value, |value.entries|, rest, t);
      var keys := [key] + rest;
      assert keys[1..] == rest;
      assert Dotted(prefix, keys) == k;
      assert m.entries[n - 1].0 == keys[0] && LeafBelow(value, keys[1..], t);
      assert LeafAmong(m, n, keys, t);
    } else {
      assert k in acc && acc[k] == t;
      FlattenSound(m, n - 1, prefix, k);
      var keys :| Dotted(prefix, keys) == k && LeafAmong(m, n - 1, keys, t);
      var i :| 0 <= i < n - 1 && m.entries[i].0 == keys[0] && LeafBelow(m.entries[i].1, keys[1..], t);
      assert LeafAmong(m, n, keys, t);
    }
  }

  /** The dotted path of every text below the first `n` keys is a key of the flat table. */
  lemma {:induction false} FlattenComplete(m: Message, n: nat, prefix: string, keys: seq<string>, t: string)
    requires m.Group? && n <= |m.entries|
    requires LeafAmong(m, n, keys, t)
    ensures Dotted(prefix, keys) in FlattenFirst(m, n, prefix)
    decreases m, n, 1
  {
    var i :| 0 <= i < n && m.entries[i].0 == keys[0] && LeafBelow(m.entries[i].1, keys[1..], t);
    if i < n - 1 {
      assert LeafAmong(m, n - 1, keys, t);
      FlattenComplete(m, n - 1, prefix, keys, t);
      FlattenFirstGrows(m, n - 1, n, prefix);
    } else {
      FlattenCompleteLast(m, n, prefix, keys, t);
    }
  }

  /** The case of `FlattenComplete` where the path starts at the `n`-th key. */
  lemma {:induction false} FlattenCompleteLast(m: Message, n: nat, prefix: string, keys: seq<string>, t: string)
    requires m.Group? && 0 < n <= |m.entries| && |keys| >= 1
    requires m.entries[n - 1].0 == keys[0] && LeafBelow(m.entries[n - 1].1, keys[1..], t)
    ensures Dotted(prefix, keys) in FlattenFirst(m, n, prefix)
    decreases m, n, 0
  {
    var value := m.entries[n - 1].1;
    var pk := Prefixed(prefix, keys[0]);
    assert Dotted(prefix, keys) == Dotted(pk, keys[1..]);
    if value.Group? {
      assert Dotted(pk, keys[1..]) in FlattenFirst(value, |value.entries|, pk) by {
        FlattenComplete(value, |value.entries|, pk, keys[1..], t);
      }
    } else {
      assert keys[1..] == [];
    }
  }

  /**
   * The keys of the flat table are exactly the dotted paths of the texts in
   * the nested table (top-level keys without a leading dot), and each key
   * holds a text found at its path: nested tables never appear as values.
   */
  lemma KeysAreTextPaths(m: Message, prefix: string)
    requires m.Group?
    ensures forall k :: k in Flatten(m, prefix) ==>
              exists keys :: Dotted(prefix, keys) == k && LeafAmong(m, |m.entries|, keys, Flatten(m, prefix)[k])
    ensures forall keys, t :: LeafAmong(m, |m.entries|, keys, t) ==> Dotted(prefix, keys) in Flatten(m, prefix)
  {
    assert Flatten(m, prefix) == FlattenFirst(m, |m.entries|, prefix);
    forall k | k in Flatten(m, prefix)
      ensures exists keys :: Dotted(prefix, keys) == k && LeafAmong(m, |m.entries|, keys, Flatten(m, prefix)[k])
    {
      FlattenSound(m, |m.entries|, prefix, k);
    }
    forall keys, t | LeafAmong(m, |m.entries|, keys, t)
      ensures Dotted(prefix, keys) in Flatten(m, prefix)
    {
      FlattenComplete(m, |m.entries|, prefix, keys, t);
    }
  }

  lemma {:induction false} DottedBelow(p: string, keys: seq<string>)
    requires p != "" && keys != []
    ensures Dotted(p, keys) == p + "." + Join(keys, ".")
    decreases |keys|
  {
    var p' := p + "." + keys[0];
    if |keys| == 1 {
      assert Dotted(p, keys) == Dotted(p', []);
    } else {
      DottedBelow(p', keys[1..]);
      assert Join(keys, ".") == keys[0] + "." + Join(keys[1..], ".");
      assert p' + "." + Join(keys[1..], ".") == p + "." + (keys[0] + "." + Join(keys[1..], "."));
    }
  }

  /**
   * A text reached through the keys k1, …, kn from the top level is stored
   * under "k1.….kn": the empty top-level prefix adds no leading dot.
   */
  lemma DottedFromTop(keys: seq<string>)
    requires keys != [] && keys[0] != ""
    ensures Dotted("", keys) == Join(keys, ".")
  {
    if |keys| > 1 {
      DottedBelow(keys[0], keys[1..]);
    }
  }

  // ---------------------------------------------------- entry-order facts

  /** Adding keys after the first `n` does not change what the first `n` produce. */
  lemma {:induction false} FlattenFirstPrefix(es: seq<(string, Message)>, more: seq<(string, Message)>, n: nat, prefix: string)
    requires n <= |es|
    ensures FlattenFirst(Group(es + more), n, prefix) == FlattenFirst(Group(es), n, prefix)
    decreases n
  {
    if n > 0 {
      FlattenFirstPrefix(es, more, n - 1, prefix);
      assert (es + more)[n - 1] == es[n - 1];
    }
  }

  /** A nested table with no keys contributes no entries. */
  lemma EmptyGroupAddsNothing(es: seq<(string, Message)>, key: string, prefix: string)
    ensures Flatten(Group(es + [(key, Group([]))]), prefix) == Flatten(Group(es), prefix)
  {
    var all := es + [(key, Group([]))];
    FlattenFirstPrefix(es, [(key, Group([]))], |es|, prefix);
    assert all[|es|] == (key, Group([]));
    assert FlattenFirst(Group([]), 0, Prefixed(prefix, key)) == map[];
    assert FlattenFirst(Group(all), |all|, prefix) == FlattenFirst(Group(all), |es|, prefix) + map[];
  }

  /** On a key collision the text processed later wins. */
  lemma LaterTextWins(es: seq<(string, Message)>, key: string, t: string, prefix: string)
    ensures Flatten(Group(es + [(key, Leaf(t))]), prefix)
            == Flatten(Group(es), prefix)[Prefixed(prefix, key) := t]
  {
    FlattenFirstPrefix(es, [(key, Leaf(t))], |es|, prefix);
  }

  /** Every value of a table whose values are all texts. */
  predicate AllTexts(es: seq<(string, Message)>)
  {
    forall i :: 0 <= i < |es| ==> es[i].1.Leaf?
  }

  predicate DistinctKeys(es: seq<(string, Message)>)
  {
    forall i, j :: 0 <= i < j < |es| ==> es[i].0 != es[j].0
  }

  lemma {:induction false} FlatFirst(es: seq<(string, Message)>, n: nat)
    requires n <= |es| && AllTexts(es) && DistinctKeys(es)
    ensures FlattenFirst(Group(es), n, "").Keys == set i | 0 <= i < n :: es[i].0
    ensures forall i :: 0 <= i < n ==> FlattenFirst(Group(es), n, "")[es[i].0] == es[i].1.text
    decreases n
  {
    if n > 0 {
      FlatFirst(es, n - 1);
      var prev := set i | 0 <= i < n - 1 :: es[i].0;
      assert (set i | 0 <= i < n :: es[i].0) == prev + {es[n - 1].0};
    }
  }

  /** A table whose values are all texts, under distinct keys, flattens to the same entries. */
  lemma FlatInputIsFixedPoint(es: seq<(string, Message)>)
    requires AllTexts(es) && DistinctKeys(es)
    ensures Flatten(Group(es), "").Keys == set i | 0 <= i < |es| :: es[i].0
    ensures forall i :: 0 <= i < |es| ==> Flatten(Group(es), "")[es[i].0] == es[i].1.text
  {
    FlatFirst(es, |es|);
  }
}

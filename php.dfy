/**
 * The part of PHP's value model that the API client relies on: scalar and
 * array values, ordered string-keyed arrays with the element assignment
 * `$a[k] = v` and `array_merge`, and the truthiness of strings.
 */
module Php {

  datatype Option<+T> = None | Some(value: T)

  /** A PHP value as the client passes it in or hands it back. */
  datatype Value =
    | Null
    | Bool(b: bool)
    | Int(i: int)
    | Real(r: real)
    | Str(s: string)
    | Arr(entries: seq<(string, Value)>)

  /** An ordered PHP array with string keys: its key/value pairs in insertion order. */
  type Entries = seq<(string, Value)>

  /** The value stored under key `k`, if the array has that key. */
  function Get(a: Entries, k: string): Option<Value>
  {
    if a == [] then None
    else if a[0].0 == k then Some(a[0].1)
    else Get(a[1..], k)
  }

  predicate Has(a: Entries, k: string)
  {
    Get(a, k).Some?
  }

  /** Every key occurs once, as in every array PHP builds. */
  predicate DistinctKeys(a: Entries)
  {
    a == [] || (!Has(a[1..], a[0].0) && DistinctKeys(a[1..]))
  }

  /** PHP's falsy strings: the empty string and "0". */
  predicate FalsyString(s: string)
  {
    s == "" || s == "0"
  }

  /**
   * `$a[k] = v`: a key already present keeps its position and takes the new
   * value; a new key is appended at the end.
   */
  function Put(a: Entries, k: string, v: Value): (r: Entries)
    ensures Get(r, k) == Some(v)
    ensures forall k' :: k' != k ==> Get(r, k') == Get(a, k')
    ensures |r| == if Has(a, k) then |a| else |a| + 1
    ensures forall i :: 0 <= i < |a| ==> r[i].0 == a[i].0
    ensures !Has(a, k) ==> r == a + [(k, v)]
    ensures DistinctKeys(a) ==> DistinctKeys(r)
  {
    if a == [] then [(k, v)]
    else if a[0].0 == k then [(k, v)] + a[1..]
    else [a[0]] + Put(a[1..], k, v)
  }

  /**
   * `array_merge(a, b)` on string keys: the entries of `b` are written, in
   * order, into a copy of `a`. A key of both takes `b`'s value and keeps its
   * place in `a`; keys only in `b` follow `a`'s entries.
   */
  function Merge(a: Entries, b: Entries): (r: Entries)
    ensures forall k :: Has(r, k) <==> Has(a, k) || Has(b, k)
    ensures DistinctKeys(b) ==>
              forall k :: Get(r, k) == if Has(b, k) then Get(b, k) else Get(a, k)
    ensures |a| <= |r| && forall i :: 0 <= i < |a| ==> r[i].0 == a[i].0
    ensures DistinctKeys(a) ==> DistinctKeys(r)
    decreases |b|
  {
    if b == [] then a else Merge(Put(a, b[0].0, b[0].1), b[1..])
  }

  lemma {:induction false} HasConcat(a: Entries, c: Entries, k: string)
    ensures Has(a + c, k) <==> Has(a, k) || Has(c, k)
  {
    if a == [] {
      assert a + c == c;
    } else {
      assert (a + c)[1..] == a[1..] + c;
      HasConcat(a[1..], c, k);
    }
  }

  /**
   * When no key of `b` is already in `a`, `array_merge(a, b)` is `a`'s
   * entries followed by `b`'s, in their own order.
   */
  lemma {:induction false} MergeFreshKeysAppends(a: Entries, b: Entries)
    requires DistinctKeys(b)
    requires forall k :: Has(b, k) ==> !Has(a, k)
    ensures Merge(a, b) == a + b
    decreases |b|
  {
    if b != [] {
      var k, v, rest := b[0].0, b[0].1, b[1..];
      assert Get(b, k) == Some(v);
      var a' := a + [(k, v)];
      assert Put(a, k, v) == a';
      assert !Has(rest, k) && DistinctKeys(rest);
      forall k' | Has(rest, k')
        ensures !Has(a', k')
      {
        assert k' != k && Get(b, k') == Get(rest, k');
        assert [(k, v)][1..] == [];
        HasConcat(a, [(k, v)], k');
      }
      MergeFreshKeysAppends(a', rest);
      assert a' + rest == a + b;
    }
  }

  /** An entry's key is a key of the array; without duplicates its value is the one stored there. */
  lemma {:induction false} GetAtIndex(a: Entries, i: nat)
    requires i < |a|
    ensures Has(a, a[i].0)
    ensures DistinctKeys(a) ==> Get(a, a[i].0) == Some(a[i].1)
  {
    if i > 0 {
      GetAtIndex(a[1..], i - 1);
    }
  }

  /** The value `b` writes over `current` for `key`: b's value when b has the key. */
  function Overriding(b: Entries, key: string, current: Value): Value
  {
    if Has(b, key) then Get(b, key).value else current
  }

  /** `a`'s entries in `a`'s order, each taking `b`'s value where `b` has its key. */
  function Overwritten(a: Entries, b: Entries): (r: Entries)
    ensures |r| == |a|
    ensures forall i :: 0 <= i < |a| ==> r[i] == (a[i].0, Overriding(b, a[i].0, a[i].1))
  {
    if a == [] then [] else [(a[0].0, Overriding(b, a[0].0, a[0].1))] + Overwritten(a[1..], b)
  }

  /** `b`'s entries whose keys `a` lacks, in `b`'s order. */
  function FreshEntries(a: Entries, b: Entries): Entries
  {
    if b == [] then []
    else (if Has(a, b[0].0) then [] else [b[0]]) + FreshEntries(a, b[1..])
  }

  lemma {:induction false} FreshEntriesAgree(a1: Entries, a2: Entries, b: Entries)
    requires forall i :: 0 <= i < |b| ==> Has(a1, b[i].0) == Has(a2, b[i].0)
    ensures FreshEntries(a1, b) == FreshEntries(a2, b)
  {
    if b != [] {
      assert Has(a1, b[0].0) == Has(a2, b[0].0);
      FreshEntriesAgree(a1, a2, b[1..]);
    }
  }

  lemma OverwrittenEntryAfterPut(a: Entries, b: Entries, i: nat)
    requires DistinctKeys(a) && DistinctKeys(b) && b != [] && i < |a|
    ensures Overwritten(Put(a, b[0].0, b[0].1), b[1..])[i] == Overwritten(a, b)[i]
  {
    var k, v, rest := b[0].0, b[0].1, b[1..];
    var a' := Put(a, k, v);
    var key := a[i].0;
    assert a'[i].0 == key;
    assert Overwritten(a, b)[i] == (key, Overriding(b, key, a[i].1));
    assert Overwritten(a', rest)[i] == (key, Overriding(rest, key, a'[i].1));
    GetAtIndex(a, i);
    GetAtIndex(a', i);
    if key == k {
      PutValueAt(a, k, v, i);
      assert !Has(rest, k) && Get(b, k) == Some(v);
    } else {
      assert Get(a', key) == Get(a, key);
      assert Get(b, key) == Get(rest, key);
    }
  }

  /** After `$a[k] = v`, the entry at k's position holds v. */
  lemma PutValueAt(a: Entries, k: string, v: Value, i: nat)
    requires DistinctKeys(a) && i < |a| && a[i].0 == k
    ensures Put(a, k, v)[i] == (k, v)
  {
    GetAtIndex(Put(a, k, v), i);
  }

  /** After writing b's first entry into a, the rest of b has the same fresh entries as before. */
  lemma FreshAfterPut(a: Entries, b: Entries)
    requires DistinctKeys(b) && b != []
    ensures FreshEntries(Put(a, b[0].0, b[0].1), b[1..]) == FreshEntries(a, b[1..])
  {
    var k, v, rest := b[0].0, b[0].1, b[1..];
    assert !Has(rest, k);
    forall i | 0 <= i < |rest|
      ensures Has(Put(a, k, v), rest[i].0) == Has(a, rest[i].0)
    {
      GetAtIndex(rest, i);
    }
    FreshEntriesAgree(Put(a, k, v), a, rest);
  }

  lemma OverwrittenPrefixAfterPut(a: Entries, b: Entries)
    requires DistinctKeys(a) && DistinctKeys(b) && b != []
    ensures |Overwritten(Put(a, b[0].0, b[0].1), b[1..])| >= |a|
    ensures forall i :: 0 <= i < |a| ==>
              Overwritten(Put(a, b[0].0, b[0].1), b[1..])[i] == Overwritten(a, b)[i]
  {
    forall i | 0 <= i < |a|
      ensures Overwritten(Put(a, b[0].0, b[0].1), b[1..])[i] == Overwritten(a, b)[i]
    {
      OverwrittenEntryAfterPut(a, b, i);
    }
  }

  /** When b's first key is already in a, writing it and then the rest of b overwrites a as all of b does. */
  lemma OverwrittenAfterPutKnown(a: Entries, b: Entries)
    requires DistinctKeys(a) && DistinctKeys(b) && b != [] && Has(a, b[0].0)
    ensures Overwritten(Put(a, b[0].0, b[0].1), b[1..]) == Overwritten(a, b)
  {
    OverwrittenPrefixAfterPut(a, b);
  }

  /** When b's first key is new to a, the same leaves a overwritten as by all of b, then b's first entry. */
  lemma OverwrittenAfterPutNew(a: Entries, b: Entries)
    requires DistinctKeys(a) && DistinctKeys(b) && b != [] && !Has(a, b[0].0)
    ensures Overwritten(Put(a, b[0].0, b[0].1), b[1..]) == Overwritten(a, b) + [b[0]]
  {
    OverwrittenPrefixAfterPut(a, b);
    OverwrittenNewEntry(a, b);
  }

  lemma OverwrittenNewEntry(a: Entries, b: Entries)
    requires DistinctKeys(b) && b != [] && !Has(a, b[0].0)
    ensures |Overwritten(Put(a, b[0].0, b[0].1), b[1..])| == |a| + 1
    ensures Overwritten(Put(a, b[0].0, b[0].1), b[1..])[|a|] == b[0]
  {
    var k, v, rest := b[0].0, b[0].1, b[1..];
    assert Put(a, k, v) == a + [(k, v)];
    assert (a + [(k, v)])[|a|] == (k, v);
    assert !Has(rest, k);
  }

  /** The step of the induction below: from the rest of b written into a', to all of b written into a. */
  lemma OverwriteThenAppendStep(a: Entries, b: Entries)
    requires DistinctKeys(a) && DistinctKeys(b) && b != []
    ensures Overwritten(Put(a, b[0].0, b[0].1), b[1..]) + FreshEntries(Put(a, b[0].0, b[0].1), b[1..]) ==
            Overwritten(a, b) + FreshEntries(a, b)
  {
    FreshAfterPut(a, b);
    if Has(a, b[0].0) {
      OverwrittenAfterPutKnown(a, b);
      FreshEntriesSkipKnown(a, b);
    } else {
      OverwriteThenAppendStepNew(a, b);
    }
  }

  /** The step when b's first key is new to a: that entry moves from the overwritten part to the fresh part. */
  lemma OverwriteThenAppendStepNew(a: Entries, b: Entries)
    requires DistinctKeys(a) && DistinctKeys(b) && b != [] && !Has(a, b[0].0)
    ensures Overwritten(Put(a, b[0].0, b[0].1), b[1..]) + FreshEntries(a, b[1..]) ==
            Overwritten(a, b) + FreshEntries(a, b)
  {
    var o, f := Overwritten(a, b), FreshEntries(a, b[1..]);
    calc {
      Overwritten(Put(a, b[0].0, b[0].1), b[1..]) + f;
      == { OverwrittenAfterPutNew(a, b); }
      o + [b[0]] + f;
      == // associativity of concatenation
      o + ([b[0]] + f);
      == { FreshEntriesKeepNew(a, b); }
      o + FreshEntries(a, b);
    }
  }

  lemma FreshEntriesSkipKnown(a: Entries, b: Entries)
    requires b != [] && Has(a, b[0].0)
    ensures FreshEntries(a, b) == FreshEntries(a, b[1..])
  {
  }

  lemma FreshEntriesKeepNew(a: Entries, b: Entries)
    requires b != [] && !Has(a, b[0].0)
    ensures FreshEntries(a, b) == [b[0]] + FreshEntries(a, b[1..])
  {
  }

  /**
   * `array_merge(a, b)`, stated independently of how it is computed: `a`'s
   * entries in place with `b`'s values written over them, then the entries
   * of `b` with new keys, in `b`'s order.
   */
  lemma {:induction false} MergeIsOverwriteThenAppend(a: Entries, b: Entries)
    requires DistinctKeys(a) && DistinctKeys(b)
    ensures Merge(a, b) == Overwritten(a, b) + FreshEntries(a, b)
    decreases |b|
  {
    if b != [] {
      assert DistinctKeys(b[1..]);
      MergeIsOverwriteThenAppend(Put(a, b[0].0, b[0].1), b[1..]);
      OverwriteThenAppendStep(a, b);
    }
  }
}

/** Order-preserving sequence operations that JavaScript code in the application
    expresses with `Array.prototype.filter`, `new Set(...)`, `slice` and `push`. */
module Seqs {

  import opened Wrappers

  /** `s.filter(f)`: the elements of `s` that satisfy `f`, in their original order. */
  function Filter<T>(f: T -> bool, s: seq<T>): (r: seq<T>)
    ensures |r| <= |s|
    ensures forall x :: x in r ==> x in s && f(x)
  {
    if s == [] then [] else (if f(s[0]) then [s[0]] else []) + Filter(f, s[1..])
  }

  /** Membership in a filtered sequence, both directions. */
  lemma {:induction false} FilterMembership<T>(f: T -> bool, s: seq<T>, x: T)
    ensures x in Filter(f, s) <==> x in s && f(x)
  {
    if s != [] {
      FilterMembership(f, s[1..], x);
      assert s == [s[0]] + s[1..];
    }
  }

  /** Filtering distributes over concatenation: the relative order of the kept
      elements is the order they had in the input. */
  lemma {:induction false} FilterConcat<T>(f: T -> bool, a: seq<T>, b: seq<T>)
    ensures Filter(f, a + b) == Filter(f, a) + Filter(f, b)
  {
    if a == [] {
      assert a + b == b;
    } else {
      assert (a + b)[1..] == a[1..] + b;
      FilterConcat(f, a[1..], b);
    }
  }

  /** A filter that every element passes changes nothing. */
  lemma {:induction false} FilterAll<T>(f: T -> bool, s: seq<T>)
    requires forall i :: 0 <= i < |s| ==> f(s[i])
    ensures Filter(f, s) == s
  {
    if s != [] {
      FilterAll(f, s[1..]);
    }
  }

  /** A filter that no element passes gives the empty sequence. */
  lemma {:induction false} FilterNone<T>(f: T -> bool, s: seq<T>)
    requires forall i :: 0 <= i < |s| ==> !f(s[i])
    ensures Filter(f, s) == []
  {
    if s != [] {
      FilterNone(f, s[1..]);
    }
  }

  /** Filters with the same verdict on every element of `s` give the same result. */
  lemma {:induction false} FilterCongruent<T>(f: T -> bool, g: T -> bool, s: seq<T>)
    requires forall i :: 0 <= i < |s| ==> f(s[i]) == g(s[i])
    ensures Filter(f, s) == Filter(g, s)
  {
    if s != [] {
      FilterCongruent(f, g, s[1..]);
    }
  }

  /** Concatenation of a sequence of sequences (repeated `push(...xs)`). */
  function Flatten<T>(ss: seq<seq<T>>): (r: seq<T>)
  {
    if ss == [] then [] else ss[0] + Flatten(ss[1..])
  }

  lemma {:induction false} FlattenAppend<T>(ss: seq<seq<T>>, s: seq<T>)
    ensures Flatten(ss + [s]) == Flatten(ss) + s
  {
    if ss == [] {
      assert [] + [s] == [s];
    } else {
      assert (ss + [s])[1..] == ss[1..] + [s];
      FlattenAppend(ss[1..], s);
    }
  }

  /** The elements of `s` whose key is absent or not yet seen, keeping the
      first element for each key and the original order. Elements without a
      key are always kept. */
  function KeepFirstBy<T, K>(key: T -> Option<K>, seen: set<K>, s: seq<T>): (r: seq<T>)
    ensures |r| <= |s|
    ensures forall x :: x in r ==> x in s
    decreases s
  {
    if s == [] then []
    else if key(s[0]).Some? && key(s[0]).value in seen then KeepFirstBy(key, seen, s[1..])
    else
      var seen' := if key(s[0]).Some? then seen + {key(s[0]).value} else seen;
      [s[0]] + KeepFirstBy(key, seen', s[1..])
  }

  lemma AppendAssoc<T>(a: seq<T>, b: seq<T>, c: seq<T>)
    ensures a + (b + c) == (a + b) + c
  {
  }

  /** One step of the scan: the head is dropped when its key was seen, and
      kept otherwise, its key joining the seen set. */
  lemma KeepFirstByStep<T, K>(key: T -> Option<K>, seen: set<K>, s: seq<T>)
    requires s != []
    ensures key(s[0]).Some? && key(s[0]).value in seen ==> KeepFirstBy(key, seen, s) == KeepFirstBy(key, seen, s[1..])
    ensures key(s[0]).None? ==> KeepFirstBy(key, seen, s) == [s[0]] + KeepFirstBy(key, seen, s[1..])
    ensures key(s[0]).Some? && key(s[0]).value !in seen ==>
              KeepFirstBy(key, seen, s) == [s[0]] + KeepFirstBy(key, seen + {key(s[0]).value}, s[1..])
  {
  }

  /** No key of a kept element was seen before. */
  lemma {:induction false} KeepFirstByFresh<T, K>(key: T -> Option<K>, seen: set<K>, s: seq<T>)
    ensures forall i :: 0 <= i < |KeepFirstBy(key, seen, s)| && key(KeepFirstBy(key, seen, s)[i]).Some? ==>
                          key(KeepFirstBy(key, seen, s)[i]).value !in seen
    decreases s
  {
    if s != [] {
      var seen' := if key(s[0]).Some? then seen + {key(s[0]).value} else seen;
      if key(s[0]).Some? && key(s[0]).value in seen {
        KeepFirstByFresh(key, seen, s[1..]);
      } else {
        KeepFirstByFresh(key, seen', s[1..]);
      }
    }
  }

  /** Kept keys are pairwise distinct. */
  lemma {:induction false} KeepFirstByDistinct<T, K>(key: T -> Option<K>, seen: set<K>, s: seq<T>)
    ensures forall i, j :: 0 <= i < j < |KeepFirstBy(key, seen, s)| &&
                           key(KeepFirstBy(key, seen, s)[i]).Some? && key(KeepFirstBy(key, seen, s)[j]).Some? ==>
                             key(KeepFirstBy(key, seen, s)[i]).value != key(KeepFirstBy(key, seen, s)[j]).value
    decreases s
  {
    if s != [] {
      var seen' := if key(s[0]).Some? then seen + {key(s[0]).value} else seen;
      if key(s[0]).Some? && key(s[0]).value in seen {
        KeepFirstByDistinct(key, seen, s[1..]);
      } else {
        KeepFirstByDistinct(key, seen', s[1..]);
        KeepFirstByFresh(key, seen', s[1..]);
        var rest := KeepFirstBy(key, seen', s[1..]);
        var r := KeepFirstBy(key, seen, s);
        assert r == [s[0]] + rest;
        forall i, j | 0 <= i < j < |r| && key(r[i]).Some? && key(r[j]).Some?
          ensures key(r[i]).value != key(r[j]).value
        {
          assert r[j] == rest[j - 1];
          if i > 0 { assert r[i] == rest[i - 1]; }
        }
      }
    }
  }

  /** Elements without a key all survive, in order. */
  lemma {:induction false} KeepFirstByKeyless<T, K>(key: T -> Option<K>, seen: set<K>, s: seq<T>, keyless: T -> bool)
    requires forall x :: keyless(x) == key(x).None?
    ensures Filter(keyless, KeepFirstBy(key, seen, s)) == Filter(keyless, s)
    decreases s
  {
    if s != [] {
      var seen' := if key(s[0]).Some? then seen + {key(s[0]).value} else seen;
      KeepFirstByKeyless(key, seen, s[1..], keyless);
      KeepFirstByKeyless(key, seen', s[1..], keyless);
      var r := KeepFirstBy(key, seen, s);
      if !(key(s[0]).Some? && key(s[0]).value in seen) {
        assert r == [s[0]] + KeepFirstBy(key, seen', s[1..]);
        FilterConcat(keyless, [s[0]], KeepFirstBy(key, seen', s[1..]));
      }
    }
  }

  /** Every key of the input that was not seen beforehand is the key of some kept element. */
  lemma {:induction false} KeepFirstByCovers<T, K>(key: T -> Option<K>, seen: set<K>, s: seq<T>, i: nat)
    requires i < |s| && key(s[i]).Some? && key(s[i]).value !in seen
    ensures exists j :: 0 <= j < |KeepFirstBy(key, seen, s)| &&
                        key(KeepFirstBy(key, seen, s)[j]) == key(s[i])
    decreases s
  {
    var r := KeepFirstBy(key, seen, s);
    var seen' := if key(s[0]).Some? then seen + {key(s[0]).value} else seen;
    if key(s[0]).Some? && key(s[0]).value in seen {
      KeepFirstByCovers(key, seen, s[1..], i - 1);
      var j :| 0 <= j < |KeepFirstBy(key, seen, s[1..])| && key(KeepFirstBy(key, seen, s[1..])[j]) == key(s[i]);
      assert r[j] == KeepFirstBy(key, seen, s[1..])[j];
    } else if i == 0 || key(s[i]) == key(s[0]) {
      assert key(r[0]) == key(s[i]);
    } else {
      KeepFirstByCovers(key, seen', s[1..], i - 1);
      var j :| 0 <= j < |KeepFirstBy(key, seen', s[1..])| && key(KeepFirstBy(key, seen', s[1..])[j]) == key(s[i]);
      assert r[j + 1] == KeepFirstBy(key, seen', s[1..])[j];
    }
  }

  /** The keys seen after scanning `s`, starting from `seen`. */
  function SeenAfter<T, K>(key: T -> Option<K>, seen: set<K>, s: seq<T>): set<K>
    decreases s
  {
    if s == [] then seen
    else SeenAfter(key, if key(s[0]).Some? then seen + {key(s[0]).value} else seen, s[1..])
  }

  /** Scanning a concatenation keeps what the first part keeps, then what the
      second part keeps given the keys the first part has seen. */
  lemma {:induction false} KeepFirstByConcat<T, K>(key: T -> Option<K>, seen: set<K>, a: seq<T>, b: seq<T>)
    ensures KeepFirstBy(key, seen, a + b) == KeepFirstBy(key, seen, a) + KeepFirstBy(key, SeenAfter(key, seen, a), b)
    decreases a
  {
    if a == [] {
      assert a + b == b;
    } else {
      assert (a + b)[0] == a[0];
      assert (a + b)[1..] == a[1..] + b;
      var seen' := if key(a[0]).Some? then seen + {key(a[0]).value} else seen;
      if key(a[0]).Some? && key(a[0]).value in seen {
        assert seen' == seen;
        KeepFirstByConcat(key, seen, a[1..], b);
      } else {
        KeepFirstByConcat(key, seen', a[1..], b);
      }
    }
  }

  /** Position `i` of `s` holds the first element with its key: it has no
      key, or its key is neither in `seen` nor the key of an earlier element. */
  predicate IsFirst<T, K>(key: T -> Option<K>, seen: set<K>, s: seq<T>, i: nat)
    requires i < |s|
  {
    key(s[i]).None? || (key(s[i]).value !in seen && forall j :: 0 <= j < i ==> key(s[j]) != key(s[i]))
  }

  /** The elements at the positions below `n` that are first for their key,
      in the order of the positions: a reference definition that looks at
      each position on its own rather than scanning with a seen set. */
  function Firsts<T, K>(key: T -> Option<K>, seen: set<K>, s: seq<T>, n: nat): seq<T>
    requires n <= |s|
  {
    if n == 0 then []
    else Firsts(key, seen, s, n - 1) + (if IsFirst(key, seen, s, n - 1) then [s[n - 1]] else [])
  }

  /** A key is seen after a scan exactly when it was seen before it or is the
      key of a scanned element. */
  lemma {:induction false} SeenAfterSpec<T, K>(key: T -> Option<K>, seen: set<K>, a: seq<T>, k: K)
    ensures k in SeenAfter(key, seen, a) <==> k in seen || exists j :: 0 <= j < |a| && key(a[j]) == Some(k)
    decreases a
  {
    if a != [] {
      var seen' := if key(a[0]).Some? then seen + {key(a[0]).value} else seen;
      SeenAfterSpec(key, seen', a[1..], k);
      if exists j :: 0 <= j < |a| && key(a[j]) == Some(k) {
        var j :| 0 <= j < |a| && key(a[j]) == Some(k);
        if j > 0 {
          assert key(a[1..][j - 1]) == Some(k);
        }
      }
      if exists j :: 0 <= j < |a[1..]| && key(a[1..][j]) == Some(k) {
        var j :| 0 <= j < |a[1..]| && key(a[1..][j]) == Some(k);
        assert key(a[j + 1]) == Some(k);
      }
    }
  }

  /** Scanning a prefix keeps exactly the first elements of that prefix, in order. */
  lemma {:induction false} KeepFirstByPrefix<T, K>(key: T -> Option<K>, seen: set<K>, s: seq<T>, n: nat)
    requires n <= |s|
    ensures KeepFirstBy(key, seen, s[..n]) == Firsts(key, seen, s, n)
  {
    if n == 0 {
      assert s[..0] == [];
    } else {
      var a, x := s[..n - 1], s[n - 1];
      KeepFirstByPrefix(key, seen, s, n - 1);
      assert s[..n] == a + [x];
      KeepFirstByConcat(key, seen, a, [x]);
      var after := SeenAfter(key, seen, a);
      assert [x][1..] == [];
      assert KeepFirstBy(key, after, [x]) == if key(x).Some? && key(x).value in after then [] else [x];
      if key(x).Some? {
        SeenAfterSpec(key, seen, a, key(x).value);
        if key(x).value in after && key(x).value !in seen {
          var j :| 0 <= j < |a| && key(a[j]) == Some(key(x).value);
          assert key(s[j]) == key(x);
        }
        if !IsFirst(key, seen, s, n - 1) && key(x).value !in seen {
          var j :| 0 <= j < n - 1 && key(s[j]) == key(x);
          assert key(a[j]) == Some(key(x).value);
        }
      }
    }
  }

  /** The scan keeps exactly the elements that are first for their key, in
      input order: the first of each key wins and every keyless element stays. */
  lemma KeepFirstByIsFirsts<T, K>(key: T -> Option<K>, seen: set<K>, s: seq<T>)
    ensures KeepFirstBy(key, seen, s) == Firsts(key, seen, s, |s|)
  {
    KeepFirstByPrefix(key, seen, s, |s|);
    assert s[..|s|] == s;
  }

  /** `Array.from(new Set(s))`: first occurrences, in order. */
  function Dedup<T(==)>(s: seq<T>): (r: seq<T>)
  {
    KeepFirstBy(x => Some(x), {}, s)
  }

  /** De-duplicating a concatenation keeps the de-duplicated first part as
      a prefix. */
  lemma DedupConcat<T>(a: seq<T>, b: seq<T>)
    ensures Dedup(a + b) == Dedup(a) + KeepFirstBy(x => Some(x), SeenAfter(x => Some(x), {}, a), b)
  {
    KeepFirstByConcat(x => Some(x), {}, a, b);
  }

  /** The de-duplicated sequence holds every element of the input exactly
      once: it is the subsequence of the positions whose element does not
      occur earlier, in input order. */
  lemma DedupSpec<T>(s: seq<T>)
    ensures forall x :: x in Dedup(s) <==> x in s
    ensures forall i, j :: 0 <= i < j < |Dedup(s)| ==> Dedup(s)[i] != Dedup(s)[j]
    ensures Dedup(s) == Firsts(x => Some(x), {}, s, |s|)
    ensures forall i :: 0 <= i < |s| ==> (IsFirst(x => Some(x), {}, s, i) <==> forall j :: 0 <= j < i ==> s[j] != s[i])
  {
    var key: T -> Option<T> := x => Some(x);
    KeepFirstByIsFirsts(key, {}, s);
    KeepFirstByDistinct(key, {}, s);
    var r := Dedup(s);
    assert forall i :: 0 <= i < |r| ==> key(r[i]) == Some(r[i]);
    forall i, j | 0 <= i < j < |r| ensures r[i] != r[j] {
      assert key(r[i]).value != key(r[j]).value;
    }
    forall x | x in s ensures x in Dedup(s) {
      var i :| 0 <= i < |s| && s[i] == x;
      KeepFirstByCovers(key, {}, s, i);
    }
  }

  /** `s.filter((_, i) => i !== index)`: drops position `index` if there is one. */
  function RemoveAt<T>(s: seq<T>, index: int): (r: seq<T>)
    ensures 0 <= index < |s| ==>
              |r| == |s| - 1 && forall j :: 0 <= j < |r| ==> r[j] == if j < index then s[j] else s[j + 1]
    ensures !(0 <= index < |s|) ==> r == s
  {
    if 0 <= index < |s| then s[..index] + s[index + 1..] else s
  }
}
